/**
 The local checkpoint store as its processes run it: every operation is a sequence of steps on
 shared files and locks, any number of clients interleave, and a client may crash between any two
 steps. A scheduler's choice is an Action; an action that is not enabled changes nothing, so every
 sequence of actions is a run.
 */
module StoreProtocol {
  import opened Text
  import opened JsonValues
  import opened Layout
  import opened StoreSpec
  import PrivateIgnore

  datatype World = World(codec: Codec, patterns: seq<string>)

  /** Continue with createSession's registry, or leave the locked section with a reply. */
  datatype Next = Proceed | Return(reply: Reply)

  /** One atomic replacement: the file, what was read there, what to put there, and what follows. */
  datatype Plan = Plan(target: string, basis: Option<string>, text: string, next: Next)

  datatype Temp = Temp(stem: string, pid: string, uuid: string) {
    function Name(): string { TempName(stem, pid, uuid) }
  }

  datatype Pc =
    | Idle
    | Called(op: Op)
    | Admitted(op: Op)
    | Holding(op: Op)                            // lock held
    | Prepared(op: Op)                           // lock held, ignore file in order
    | Staged(op: Op, plan: Plan)                 // target read, replacement decided
    | Opened(op: Op, plan: Plan, temp: Temp)     // temporary file created, possibly half written
    | Filled(op: Op, plan: Plan, temp: Temp)     // temporary file complete
    | Sweeping(op: Op, temp: Temp, next: Next)   // the finally block
    | Releasing(op: Op, reply: Reply)
    | Finishing(op: Op, reply: Reply)            // lock released
    | Crashed

  datatype State = State(
    files: map<string, string>,
    locks: map<string, nat>,
    clients: map<nat, Pc>,
    used: set<string>,        // every uuid ever drawn
    log: seq<Event>)          // history, for the statements only

  datatype Action =
    | Invoke(c: nat, op: Op)
    | Check(c: nat)
    | Fetch(c: nat)
    | Acquire(c: nat)
    | Prepare(c: nat)
    | Load(c: nat, uuid: string)
    | Open(c: nat, pid: string, uuid: string)
    | Scribble(c: nat, junk: string)
    | Fill(c: nat)
    | Rename(c: nat)
    | Sweep(c: nat, removed: bool)
    | Fault(c: nat)
    | Release(c: nat)
    | Answer(c: nat)
    | Crash(c: nat)
    | Reap(lock: string)

  function PcOf(st: State, c: nat): Pc { if c in st.clients then st.clients[c] else Idle }

  function Goto(st: State, c: nat, pc: Pc): State { st.(clients := st.clients[c := pc]) }

  function Log(st: State, e: Event): State { st.(log := st.log + [e]) }

  function Target(op: Op): string {
    if op.Create? then REGISTRY else RecordName(op.skill)
  }

  function LockOf(op: Op): string { LockName(Target(op)) }

  function Stem(op: Op, plan: Plan): string {
    if plan.target == IGNORE then "gitignore" else if op.Create? then "mcp-sessions" else op.skill
  }

  // ---- the session registry file ----

  predicate IsRegistry(v: Json) {
    v.Arr? && forall item <- v.items :: item.Str? && IsUuidV4(item.s)
  }

  function Strings(items: seq<Json>): (r: seq<string>)
    requires forall item <- items :: item.Str?
    ensures |r| == |items| && forall i | 0 <= i < |items| :: items[i] == Str(r[i])
  {
    if items == [] then [] else [items[0].s] + Strings(items[1..])
  }

  /** readSessions: the ids in the file, none when it is absent, None when it is invalid. */
  function Ids(codec: Codec, text: Option<string>): Option<seq<string>> {
    if text.None? then Some([])
    else
      var v := codec.parse(text.value);
      if v.Some? && IsRegistry(v.value) then Some(Strings(v.value.items)) else None
  }

  function Sessions(codec: Codec, files: map<string, string>): Option<set<string>> {
    match Ids(codec, Get(files, REGISTRY))
    case None => None
    case Some(ids) => Some(set id | id in ids)
  }

  function RegistryText(codec: Codec, ids: seq<string>): string {
    var sorted := SortedSet(ids);
    codec.Stored(Arr(seq(|sorted|, i requires 0 <= i < |sorted| => Str(sorted[i]))))
  }

  // ---- steps ----

  /** The step read-current-and-compare of a write, under the lock. */
  function LoadRecord(w: World, st: State, c: nat, op: Op): State
    requires op.Write?
  {
    var current := Get(st.files, RecordName(op.skill));
    if Unreadable(w.codec, current) then
      Log(Goto(st, c, Releasing(op, Corrupt)), Effect(c, op, Corrupt))
    else if !Meets(w.codec, DemandOf(op.expected), current) then
      Log(Goto(st, c, Releasing(op, Conflict)), Effect(c, op, Conflict))
    else
      var text := w.codec.Stored(op.value);
      Goto(st, c, Staged(op, Plan(RecordName(op.skill), current, text, Return(Stored(w.codec.hash(text))))))
  }

  /** createSession reads the registry under its lock and draws a fresh uuid. */
  function LoadRegistry(w: World, st: State, c: nat, uuid: string): State {
    var text := Get(st.files, REGISTRY);
    var ids := Ids(w.codec, text);
    if ids.None? then Log(Goto(st, c, Releasing(Create, Corrupt)), Effect(c, Create, Corrupt))
    else if !IsUuidV4(uuid) || uuid in st.used || uuid in ids.value then st   // a fresh uuid is new
    else
      var plan := Plan(REGISTRY, text, RegistryText(w.codec, ids.value + [uuid]), Return(Issued(uuid)));
      Goto(st, c, Staged(Create, plan)).(used := st.used + { uuid })
  }

  /** ensurePrivateRuntimeIgnore reads the ignore file and decides. */
  function LoadIgnore(w: World, st: State, c: nat): State {
    var text := Get(st.files, IGNORE);
    var current := if text.Some? then text.value else "";
    if PrivateIgnore.Missing(w.patterns, current) == [] then Goto(st, c, Prepared(Create))
    else Goto(st, c, Staged(Create, Plan(IGNORE, text, PrivateIgnore.Extended(w.patterns, current), Proceed)))
  }

  /** An I/O error or a lock that stays busy: no effect, and the finally blocks still run. */
  function Fails(st: State, c: nat, pc: Pc): State {
    match pc
    case Called(op) => Log(Goto(st, c, Finishing(op, Failed)), Effect(c, op, Failed))
    case Admitted(op) => Log(Goto(st, c, Finishing(op, Failed)), Effect(c, op, Failed))
    case Holding(op) => Log(Goto(st, c, Releasing(op, Failed)), Effect(c, op, Failed))
    case Prepared(op) => Log(Goto(st, c, Releasing(op, Failed)), Effect(c, op, Failed))
    case Staged(op, _) => Log(Goto(st, c, Releasing(op, Failed)), Effect(c, op, Failed))
    case Opened(op, _, temp) => Log(Goto(st, c, Sweeping(op, temp, Return(Failed))), Effect(c, op, Failed))
    case Filled(op, _, temp) => Log(Goto(st, c, Sweeping(op, temp, Return(Failed))), Effect(c, op, Failed))
    case _ => st
  }

  /** Exclusive creation: a name that is taken is an error, and the finally block then unlinks it. */
  function OpenTemp(st: State, c: nat, op: Op, plan: Plan, temp: Temp): State {
    var drawn := st.(used := st.used + { temp.uuid });
    if temp.Name() in st.files then
      Log(Goto(drawn, c, Sweeping(op, temp, Return(Failed))), Effect(c, op, Failed))
    else
      Goto(drawn.(files := st.files[temp.Name() := ""]), c, Opened(op, plan, temp))
  }

  /** The commit: whatever the temporary file holds becomes the target, in one step. */
  function RenameTemp(st: State, c: nat, op: Op, plan: Plan, temp: Temp): State {
    if temp.Name() !in st.files then Fails(st, c, Filled(op, plan, temp))
    else
      var moved := Goto(st.(files := st.files[plan.target := st.files[temp.Name()]] - { temp.Name() }),
                        c, Sweeping(op, temp, plan.next));
      if plan.next.Return? then Log(moved, Effect(c, op, plan.next.reply)) else moved
  }

  function Apply(w: World, st: State, a: Action): State {
    match a
    case Invoke(c, op) =>
      if PcOf(st, c).Idle? then Log(Goto(st, c, Called(op)), Invoked(c, op)) else st
    case Check(c) =>
      if !PcOf(st, c).Called? then st
      else
        var op := PcOf(st, c).op;
        var verdict := Verdict(Sessions(w.codec, st.files), op);
        if verdict.None? then Goto(st, c, Admitted(op))
        else Log(Goto(st, c, Finishing(op, verdict.value)), Effect(c, op, verdict.value))
    case Fetch(c) =>
      if !PcOf(st, c).Admitted? || !PcOf(st, c).op.Read? then st
      else
        var op := PcOf(st, c).op;
        var reply := Observation(w.codec, Get(st.files, RecordName(op.skill)));
        Log(Goto(st, c, Finishing(op, reply)), Effect(c, op, reply))
    case Acquire(c) =>
      if !PcOf(st, c).Admitted? || PcOf(st, c).op.Read? then st
      else
        var op := PcOf(st, c).op;
        if LockOf(op) in st.locks then st
        else Goto(st, c, Holding(op)).(locks := st.locks[LockOf(op) := c])
    case Prepare(c) =>
      if !PcOf(st, c).Holding? then st
      else if PcOf(st, c).op.Create? then LoadIgnore(w, st, c)
      else Goto(st, c, Prepared(PcOf(st, c).op))
    case Load(c, uuid) =>
      if !PcOf(st, c).Prepared? then st
      else
        var op := PcOf(st, c).op;
        if op.Create? then LoadRegistry(w, st, c, uuid)
        else if op.Write? then LoadRecord(w, st, c, op)
        else st
    case Open(c, pid, uuid) =>
      if !PcOf(st, c).Staged? || !IsUuidV4(uuid) || uuid in st.used then st
      else
        var op, plan := PcOf(st, c).op, PcOf(st, c).plan;
        OpenTemp(st, c, op, plan, Temp(Stem(op, plan), pid, uuid))
    case Scribble(c, junk) =>
      if !PcOf(st, c).Opened? || PcOf(st, c).temp.Name() !in st.files then st
      else st.(files := st.files[PcOf(st, c).temp.Name() := junk])
    case Fill(c) =>
      if !PcOf(st, c).Opened? || PcOf(st, c).temp.Name() !in st.files then st
      else
        var op, plan, temp := PcOf(st, c).op, PcOf(st, c).plan, PcOf(st, c).temp;
        Goto(st.(files := st.files[temp.Name() := plan.text]), c, Filled(op, plan, temp))
    case Rename(c) =>
      if !PcOf(st, c).Filled? then st
      else RenameTemp(st, c, PcOf(st, c).op, PcOf(st, c).plan, PcOf(st, c).temp)
    case Sweep(c, removed) =>
      if !PcOf(st, c).Sweeping? then st
      else
        var op, temp, next := PcOf(st, c).op, PcOf(st, c).temp, PcOf(st, c).next;
        var swept := if removed then st.(files := st.files - { temp.Name() }) else st;
        Goto(swept, c, if next.Proceed? then Prepared(op) else Releasing(op, next.reply))
    case Fault(c) => Fails(st, c, PcOf(st, c))
    case Release(c) =>
      if !PcOf(st, c).Releasing? then st
      else
        var op, reply := PcOf(st, c).op, PcOf(st, c).reply;
        Goto(st, c, Finishing(op, reply)).(locks := st.locks - { LockOf(op) })
    case Answer(c) =>
      if !PcOf(st, c).Finishing? then st
      else
        var op, reply := PcOf(st, c).op, PcOf(st, c).reply;
        Log(Goto(st, c, Idle), Replied(c, op, reply))
    case Crash(c) =>
      if PcOf(st, c) in { Idle, Crashed } then st else Log(Goto(st, c, Crashed), Died(c))
    case Reap(lock) =>
      if lock in st.locks && PcOf(st, st.locks[lock]).Crashed? then st.(locks := st.locks - { lock }) else st
  }

  function Run(w: World, st: State, actions: seq<Action>): State {
    if actions == [] then st
    else Apply(w, Run(w, st, actions[..|actions| - 1]), actions[|actions| - 1])
  }

  /** A project folder as found: any files, nothing running. */
  function Start(files: map<string, string>): State { State(files, map[], map[], {}, []) }

  /** The atomic object's state, read off the files that operations read. */
  function Abstract(codec: Codec, files: map<string, string>): Store {
    Store(map name | name in files && IsRecordName(name) :: files[name], Sessions(codec, files))
  }
}
