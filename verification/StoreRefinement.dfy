/** Every interleaving of the local store's steps, with crashes anywhere, is linearizable. */
module StoreRefinement {
  import opened Text
  import opened JsonValues
  import opened Layout
  import opened StoreSpec
  import opened StoreProtocol
  import PrivateIgnore

  // ---- the invariant, clause by clause ----

  predicate HoldsLock(pc: Pc) {
    pc.Holding? || pc.Prepared? || pc.Staged? || pc.Opened? || pc.Filled? || pc.Sweeping? || pc.Releasing?
  }

  predicate HasTemp(pc: Pc) { pc.Opened? || pc.Filled? || pc.Sweeping? }

  /** A client in a locked section owns its lock, and only replacing operations lock. */
  ghost predicate Exclusive(st: State) {
    forall c: nat | HoldsLock(PcOf(st, c)) ::
      var op := PcOf(st, c).op; !op.Read? && Get(st.locks, LockOf(op)) == Some(c)
  }

  /** No two clients work on one temporary file. */
  ghost predicate TempsApart(st: State) {
    && (forall c: nat | HasTemp(PcOf(st, c)) ::
          PcOf(st, c).temp.uuid in st.used && |PcOf(st, c).temp.uuid| == 36)
    && (forall c: nat, d: nat | c != d && HasTemp(PcOf(st, c)) && HasTemp(PcOf(st, d)) ::
          PcOf(st, c).temp.uuid != PcOf(st, d).temp.uuid)
  }

  predicate PlanOk(w: World, op: Op, plan: Plan) {
    match op
    case Read(_, _) => false
    case Create =>
      if plan.target == IGNORE then
        plan.next.Proceed?
        && plan.text == PrivateIgnore.Extended(w.patterns, if plan.basis.Some? then plan.basis.value else "")
      else
        && plan.target == REGISTRY
        && plan.next.Return? && plan.next.reply.Issued?
        && var id, ids := plan.next.reply.id, Ids(w.codec, plan.basis);
           IsUuidV4(id) && ids.Some? && id !in ids.value && plan.text == RegistryText(w.codec, ids.value + [id])
    case Write(skill, _, value, expected) =>
      && plan.target == RecordName(skill)
      && !Unreadable(w.codec, plan.basis)
      && Meets(w.codec, DemandOf(expected), plan.basis)
      && plan.text == w.codec.Stored(value)
      && plan.next == Return(Stored(w.codec.hash(plan.text)))
  }

  /** What a client in the middle of an operation knows about the files. */
  predicate Knows(w: World, files: map<string, string>, pc: Pc) {
    && (pc.Admitted? || pc.Holding? || pc.Prepared? || pc.Staged? || pc.Opened? || pc.Filled? ==>
          Verdict(Sessions(w.codec, files), pc.op).None?)
    && (pc.Staged? || pc.Opened? || pc.Filled? ==>
          PlanOk(w, pc.op, pc.plan) && Get(files, pc.plan.target) == pc.plan.basis)
    && (pc.Opened? ==> pc.temp.Name() in files)
    && (pc.Filled? ==> Get(files, pc.temp.Name()) == Some(pc.plan.text))
    && (pc.Sweeping? && pc.next.Proceed? ==> pc.op.Create?)
  }

  /** The history phase a program counter stands for. */
  function Expected(pc: Pc): Phase {
    match pc
    case Idle => Quiet
    case Crashed => Dead
    case Releasing(op, r) => Done(op, r)
    case Finishing(op, r) => Done(op, r)
    case Sweeping(op, _, Return(r)) => Done(op, r)
    case _ => Pending(pc.op)
  }

  ghost predicate PhasesMatch(st: State) {
    forall c: nat :: PhaseOf(st.log, c) == Expected(PcOf(st, c))
  }

  ghost predicate AllKnow(w: World, st: State) { forall c: nat :: Knows(w, st.files, PcOf(st, c)) }

  ghost predicate Refines(w: World, origin: map<string, string>, st: State) {
    Replay(w.codec, Abstract(w.codec, origin), st.log) == Some(Abstract(w.codec, st.files))
  }

  ghost predicate Inv(w: World, origin: map<string, string>, st: State) {
    && Exclusive(st) && TempsApart(st)
    && AllKnow(w, st) && PhasesMatch(st) && Refines(w, origin, st)
  }

  // ---- how a step extends the history ----

  lemma PhaseAfter(log: seq<Event>, e: Event, c: nat)
    ensures PhaseOf(log + [e], c) == PhaseStep(PhaseOf(log, c), c, e)
  {
    assert (log + [e])[..|log + [e]| - 1] == log;
  }

  lemma ReplayAfter(codec: Codec, s: Store, log: seq<Event>, e: Event)
    ensures var before := Replay(codec, s, log);
            Replay(codec, s, log + [e]) ==
            if before.None? || !e.Effect? then before else Atomic(codec, before.value, e.op, e.reply)
  {
    assert (log + [e])[..|log + [e]| - 1] == log;
  }

  // ---- files that operations read ----

  predicate IsRead(name: string) { name == REGISTRY || name == IGNORE || IsRecordName(name) }

  ghost predicate SameReads(f: map<string, string>, g: map<string, string>) {
    forall name | IsRead(name) :: Get(f, name) == Get(g, name)
  }

  lemma SameReadsSameAbstract(codec: Codec, f: map<string, string>, g: map<string, string>)
    requires SameReads(f, g)
    ensures Abstract(codec, f) == Abstract(codec, g) && Sessions(codec, f) == Sessions(codec, g)
  {
    assert Get(f, REGISTRY) == Get(g, REGISTRY);
    var a, b := Abstract(codec, f).records, Abstract(codec, g).records;
    forall name ensures Get(a, name) == Get(b, name) {
      if IsRecordName(name) { assert Get(f, name) == Get(g, name); }
    }
    SameLookupsSameMap(a, b);
  }

  lemma PlanTargetIsRead(w: World, files: map<string, string>, pc: Pc)
    requires pc.Staged? || pc.Opened? || pc.Filled?
    requires Knows(w, files, pc)
    ensures IsRead(pc.plan.target)
    ensures pc.plan.target != IGNORE ==> pc.plan.target == Target(pc.op)
    ensures pc.plan.target == IGNORE ==> pc.op.Create?
  {
    if pc.op.Write? { RecordNamesAreExact(pc.op.skill); }
  }

  lemma TempIsNotRead(t: Temp)
    ensures !IsRead(t.Name())
  {
    TempNamesAreNeverRead(t.stem, t.pid, t.uuid);
  }

  lemma DistinctTempNames(t: Temp, u: Temp)
    requires |t.uuid| == |u.uuid| && t.uuid != u.uuid
    ensures t.Name() != u.Name()
  {
    if t.Name() == u.Name() {
      TempNamesKeepUuids(t.stem, t.pid, t.uuid, u.stem, u.pid, u.uuid);
    }
  }

  /** A change outside the read files and away from a client's temporary file is invisible to it. */
  lemma KnowsIsStable(w: World, f: map<string, string>, g: map<string, string>, pc: Pc)
    requires Knows(w, f, pc) && SameReads(f, g)
    requires HasTemp(pc) ==> Get(f, pc.temp.Name()) == Get(g, pc.temp.Name())
    ensures Knows(w, g, pc)
  {
    SameReadsSameAbstract(w.codec, f, g);
    if pc.Staged? || pc.Opened? || pc.Filled? {
      PlanTargetIsRead(w, f, pc);
      assert Get(f, pc.plan.target) == Get(g, pc.plan.target);
    }
  }

  // ---- one client moves: clause by clause ----

  ghost predicate OthersStay(st: State, st': State, c: nat) {
    forall d: nat | d != c :: PcOf(st', d) == PcOf(st, d)
  }

  /** The log grows by at most the given event, which is c's and moves c's phase along. */
  ghost predicate Logs(st: State, st': State, c: nat, e: Option<Event>) {
    if e.None? then st'.log == st.log && Expected(PcOf(st', c)) == Expected(PcOf(st, c))
    else
      && st'.log == st.log + [e.value] && e.value.client == c
      && PhaseStep(Expected(PcOf(st, c)), c, e.value) == Expected(PcOf(st', c))
  }

  lemma PhasesAfter(st: State, st': State, c: nat, e: Option<Event>)
    requires PhasesMatch(st) && OthersStay(st, st', c) && Logs(st, st', c, e)
    ensures PhasesMatch(st')
  {
    forall d: nat ensures PhaseOf(st'.log, d) == Expected(PcOf(st', d)) {
      assert PhaseOf(st.log, d) == Expected(PcOf(st, d));
      if e.Some? { PhaseAfter(st.log, e.value, d); }
    }
  }

  /** The new abstract state is the one the logged effect, if any, leads to. */
  lemma RefinesAfter(w: World, origin: map<string, string>, st: State, st': State, e: Option<Event>)
    requires Refines(w, origin, st)
    requires st'.log == st.log + if e.Some? then [e.value] else []
    requires var s, s' := Abstract(w.codec, st.files), Abstract(w.codec, st'.files);
             if e.Some? && e.value.Effect? then Atomic(w.codec, s, e.value.op, e.value.reply) == Some(s') else s' == s
    ensures Refines(w, origin, st')
  {
    if e.Some? {
      ReplayAfter(w.codec, Abstract(w.codec, origin), st.log, e.value);
    } else {
      assert st'.log == st.log;
    }
  }

  /** c keeps its temporary file, drops it, or takes one with a fresh uuid. */
  ghost predicate TempMove(st: State, st': State, c: nat) {
    HasTemp(PcOf(st', c)) ==>
      || (HasTemp(PcOf(st, c)) && PcOf(st, c).temp == PcOf(st', c).temp)
      || var u := PcOf(st', c).temp.uuid; |u| == 36 && u !in st.used && u in st'.used
  }

  lemma TempsAfter(st: State, st': State, c: nat)
    requires TempsApart(st) && OthersStay(st, st', c) && st.used <= st'.used && TempMove(st, st', c)
    ensures TempsApart(st')
  {
    forall d: nat | HasTemp(PcOf(st', d))
      ensures PcOf(st', d).temp.uuid in st'.used && |PcOf(st', d).temp.uuid| == 36
    {
      if d != c { assert PcOf(st', d) == PcOf(st, d); }
    }
    forall d: nat, b: nat | d != b && HasTemp(PcOf(st', d)) && HasTemp(PcOf(st', b))
      ensures PcOf(st', d).temp.uuid != PcOf(st', b).temp.uuid
    {
      if d != c { assert PcOf(st', d) == PcOf(st, d); }
      if b != c { assert PcOf(st', b) == PcOf(st, b); }
    }
  }

  /** c keeps its lock or leaves the locked section. */
  lemma ExclusiveAfter(st: State, st': State, c: nat)
    requires Exclusive(st) && OthersStay(st, st', c) && st'.locks == st.locks
    requires HoldsLock(PcOf(st', c)) ==> HoldsLock(PcOf(st, c)) && PcOf(st, c).op == PcOf(st', c).op
    ensures Exclusive(st')
  {
    forall d: nat | HoldsLock(PcOf(st', d))
      ensures var op := PcOf(st', d).op; !op.Read? && Get(st'.locks, LockOf(op)) == Some(d)
    {
      assert HoldsLock(PcOf(st, d));
    }
  }

  lemma AllKnowAfterQuiet(w: World, st: State, st': State, c: nat)
    requires AllKnow(w, st) && OthersStay(st, st', c) && st'.files == st.files
    requires Knows(w, st.files, PcOf(st', c))
    ensures AllKnow(w, st')
  {
    forall d: nat ensures Knows(w, st'.files, PcOf(st', d)) {
      assert Knows(w, st.files, PcOf(st, d));
    }
  }

  /** A step of c that changes no file. */
  lemma QuietStep(w: World, origin: map<string, string>, st: State, st': State, c: nat, e: Option<Event>)
    requires Inv(w, origin, st)
    requires OthersStay(st, st', c) && Logs(st, st', c, e) && TempMove(st, st', c) && Exclusive(st')
    requires st'.files == st.files && st.used <= st'.used
    requires Knows(w, st.files, PcOf(st', c))
    requires e.Some? && e.value.Effect? ==>
      var s := Abstract(w.codec, st.files); Atomic(w.codec, s, e.value.op, e.value.reply) == Some(s)
    ensures Inv(w, origin, st')
  {
    PhasesAfter(st, st', c, e);
    RefinesAfter(w, origin, st, st', e);
    TempsAfter(st, st', c);
    AllKnowAfterQuiet(w, st, st', c);
  }

  lemma AbstractLookup(codec: Codec, files: map<string, string>, skill: string)
    requires IsSkillId(skill)
    ensures Get(Abstract(codec, files).records, RecordName(skill)) == Get(files, RecordName(skill))
  {
    RecordNamesAreExact(skill);
  }

  lemma CheckStep(w: World, origin: map<string, string>, st: State, c: nat)
    requires Inv(w, origin, st)
    ensures Inv(w, origin, Apply(w, st, Check(c)))
  {
    var st' := Apply(w, st, Check(c));
    if PcOf(st, c).Called? {
      var op := PcOf(st, c).op;
      var verdict := Verdict(Sessions(w.codec, st.files), op);
      ExclusiveAfter(st, st', c);
      QuietStep(w, origin, st, st', c, if verdict.None? then None else Some(Effect(c, op, verdict.value)));
    }
  }

  lemma FetchStep(w: World, origin: map<string, string>, st: State, c: nat)
    requires Inv(w, origin, st)
    ensures Inv(w, origin, Apply(w, st, Fetch(c)))
  {
    var st' := Apply(w, st, Fetch(c));
    if PcOf(st, c).Admitted? && PcOf(st, c).op.Read? {
      var op := PcOf(st, c).op;
      assert Knows(w, st.files, PcOf(st, c));
      AbstractLookup(w.codec, st.files, op.skill);
      ExclusiveAfter(st, st', c);
      QuietStep(w, origin, st, st', c,
                Some(Effect(c, op, Observation(w.codec, Get(st.files, RecordName(op.skill))))));
    }
  }

  predicate IsBookkeeping(a: Action) { a.Invoke? || a.Acquire? || a.Release? || a.Answer? || a.Crash? }

  /** What a bookkeeping step logs. */
  function Note(st: State, a: Action): Option<Event>
    requires a.Answer? ==> PcOf(st, a.c).Finishing?
  {
    match a
    case Invoke(c, op) => Some(Invoked(c, op))
    case Answer(c) => Some(Replied(c, PcOf(st, c).op, PcOf(st, c).reply))
    case Crash(c) => Some(Died(c))
    case _ => None
  }

  lemma BookkeepingShape(w: World, st: State, a: Action)
    requires IsBookkeeping(a) && Apply(w, st, a) != st && Knows(w, st.files, PcOf(st, a.c))
    ensures a.Answer? ==> PcOf(st, a.c).Finishing?
    ensures var st' := Apply(w, st, a);
            && OthersStay(st, st', a.c) && Logs(st, st', a.c, Note(st, a)) && TempMove(st, st', a.c)
            && st'.files == st.files && st'.used == st.used && Knows(w, st.files, PcOf(st', a.c))
  {
  }

  /** Invoke, Acquire, Release, Answer, Crash. */
  lemma BookkeepingStep(w: World, origin: map<string, string>, st: State, a: Action)
    requires Inv(w, origin, st) && IsBookkeeping(a)
    ensures Inv(w, origin, Apply(w, st, a))
  {
    var st' := Apply(w, st, a);
    assert Knows(w, st.files, PcOf(st, a.c));
    if st' != st {
      BookkeepingShape(w, st, a);
      LocksMove(w, st, st', a);
      QuietStep(w, origin, st, st', a.c, Note(st, a));
    }
  }

  lemma LocksMove(w: World, st: State, st': State, a: Action)
    requires Exclusive(st) && IsBookkeeping(a) && st' == Apply(w, st, a)
    ensures Exclusive(st')
  {
    var c := a.c;
    forall d: nat | HoldsLock(PcOf(st', d))
      ensures var op := PcOf(st', d).op; !op.Read? && Get(st'.locks, LockOf(op)) == Some(d)
    {
      if d != c { assert HoldsLock(PcOf(st, d)); }
      if a.Release? { assert PcOf(st, c).Releasing? ==> HoldsLock(PcOf(st, c)); }
    }
  }

  lemma ReapStep(w: World, origin: map<string, string>, st: State, name: string)
    requires Inv(w, origin, st)
    ensures Inv(w, origin, Apply(w, st, Reap(name)))
  {
    var st' := Apply(w, st, Reap(name));
    forall d: nat ensures PcOf(st', d) == PcOf(st, d) {}
    forall d: nat | HoldsLock(PcOf(st', d))
      ensures var op := PcOf(st', d).op; !op.Read? && Get(st'.locks, LockOf(op)) == Some(d)
    {
      assert HoldsLock(PcOf(st, d));
    }
    QuietStep(w, origin, st, st', 0, None);
  }

  lemma FaultShape(st: State, c: nat)
    requires Fails(st, c, PcOf(st, c)) != st
    ensures var st', pc := Fails(st, c, PcOf(st, c)), PcOf(st, c);
            && OthersStay(st, st', c) && Logs(st, st', c, Some(Effect(c, pc.op, Failed))) && TempMove(st, st', c)
            && st'.files == st.files && st'.used == st.used && st'.locks == st.locks
            && (HoldsLock(PcOf(st', c)) ==> HoldsLock(pc) && pc.op == PcOf(st', c).op)
            && (PcOf(st', c).Finishing? || PcOf(st', c).Releasing?
                || (PcOf(st', c).Sweeping? && PcOf(st', c).next.Return?))
  {
  }

  lemma FaultStep(w: World, origin: map<string, string>, st: State, c: nat)
    requires Inv(w, origin, st)
    ensures Inv(w, origin, Apply(w, st, Fault(c)))
  {
    var st' := Apply(w, st, Fault(c));
    if st' != st {
      FaultShape(st, c);
      ExclusiveAfter(st, st', c);
      assert Knows(w, st.files, PcOf(st', c));
      QuietStep(w, origin, st, st', c, Some(Effect(c, PcOf(st, c).op, Failed)));
    }
  }

  lemma PrepareStep(w: World, origin: map<string, string>, st: State, c: nat)
    requires Inv(w, origin, st)
    ensures Inv(w, origin, Apply(w, st, Prepare(c)))
  {
    var st', pc := Apply(w, st, Prepare(c)), PcOf(st, c);
    if pc.Holding? {
      assert Knows(w, st.files, pc);
      assert pc.op.Create? ==> pc.op == Create;
      ExclusiveAfter(st, st', c);
      QuietStep(w, origin, st, st', c, None);
    }
  }

  /** The decision of a write under its lock agrees with the atomic object's. */
  lemma LoadRecordShape(w: World, st: State, c: nat, op: Op)
    requires op.Write? && PcOf(st, c) == Prepared(op) && Knows(w, st.files, PcOf(st, c))
    ensures var st' := LoadRecord(w, st, c, op);
            && OthersStay(st, st', c) && TempMove(st, st', c)
            && st'.files == st.files && st'.locks == st.locks && st'.used == st.used
            && Knows(w, st.files, PcOf(st', c)) && HoldsLock(PcOf(st', c)) && PcOf(st', c).op == op
            && (PcOf(st', c).Staged? || PcOf(st', c).Releasing?)
            && Logs(st, st', c, if PcOf(st', c).Staged? then None else Some(Effect(c, op, PcOf(st', c).reply)))
  {
  }

  lemma LoadRecordRefuses(w: World, st: State, c: nat, op: Op)
    requires op.Write? && PcOf(st, c) == Prepared(op) && Knows(w, st.files, PcOf(st, c))
    ensures var pc, s := PcOf(LoadRecord(w, st, c, op), c), Abstract(w.codec, st.files);
            pc.Releasing? ==> Atomic(w.codec, s, op, pc.reply) == Some(s)
  {
    AbstractLookup(w.codec, st.files, op.skill);
  }

  lemma LoadRecordStep(w: World, origin: map<string, string>, st: State, c: nat, op: Op)
    requires Inv(w, origin, st) && PcOf(st, c) == Prepared(op) && op.Write?
    ensures Inv(w, origin, LoadRecord(w, st, c, op))
  {
    var st' := LoadRecord(w, st, c, op);
    assert Knows(w, st.files, PcOf(st, c));
    LoadRecordShape(w, st, c, op);
    LoadRecordRefuses(w, st, c, op);
    ExclusiveAfter(st, st', c);
    QuietStep(w, origin, st, st', c,
              if PcOf(st', c).Staged? then None else Some(Effect(c, op, PcOf(st', c).reply)));
  }

  lemma LoadRegistryStep(w: World, origin: map<string, string>, st: State, c: nat, uuid: string)
    requires Inv(w, origin, st) && PcOf(st, c) == Prepared(Create)
    ensures Inv(w, origin, LoadRegistry(w, st, c, uuid))
  {
    var st' := LoadRegistry(w, st, c, uuid);
    if st' != st {
      assert Knows(w, st.files, PcOf(st, c));
      ExclusiveAfter(st, st', c);
      QuietStep(w, origin, st, st', c,
                if PcOf(st', c).Staged? then None else Some(Effect(c, Create, Corrupt)));
    }
  }

  lemma LoadStep(w: World, origin: map<string, string>, st: State, c: nat, uuid: string)
    requires Inv(w, origin, st)
    ensures Inv(w, origin, Apply(w, st, Load(c, uuid)))
  {
    var pc := PcOf(st, c);
    if pc.Prepared? && pc.op.Create? {
      assert pc.op == Create;
      LoadRegistryStep(w, origin, st, c, uuid);
    } else if pc.Prepared? && pc.op.Write? {
      LoadRecordStep(w, origin, st, c, pc.op);
    }
  }

  // ---- steps on a temporary file ----

  /** A step of c that touches only c's temporary file. */
  lemma TempFileStep(w: World, origin: map<string, string>, st: State, st': State, c: nat, e: Option<Event>, t: Temp)
    requires Inv(w, origin, st)
    requires OthersStay(st, st', c) && Logs(st, st', c, e) && TempMove(st, st', c)
    requires st'.locks == st.locks && st.used <= st'.used
    requires HoldsLock(PcOf(st', c)) && HoldsLock(PcOf(st, c)) && PcOf(st, c).op == PcOf(st', c).op
    requires forall name | name != t.Name() :: Get(st.files, name) == Get(st'.files, name)
    requires |t.uuid| == 36
    requires (HasTemp(PcOf(st, c)) && PcOf(st, c).temp == t) || t.uuid !in st.used
    requires Knows(w, st'.files, PcOf(st', c))
    requires e.Some? && e.value.Effect? ==> e.value.reply == Failed
    ensures Inv(w, origin, st')
  {
    TempIsNotRead(t);
    SameReadsSameAbstract(w.codec, st.files, st'.files);
    PhasesAfter(st, st', c, e);
    RefinesAfter(w, origin, st, st', e);
    TempsAfter(st, st', c);
    ExclusiveAfter(st, st', c);
    forall d: nat ensures Knows(w, st'.files, PcOf(st', d)) {
      if d != c {
        assert PcOf(st', d) == PcOf(st, d);
        assert Knows(w, st.files, PcOf(st, d));
        if HasTemp(PcOf(st, d)) { DistinctTempNames(PcOf(st, d).temp, t); }
        KnowsIsStable(w, st.files, st'.files, PcOf(st, d));
      }
    }
  }

  /** What c knew of the read files it still knows. */
  lemma StillKnows(w: World, f: map<string, string>, g: map<string, string>, op: Op, plan: Plan, t: Temp)
    requires Knows(w, f, Staged(op, plan))
    requires forall name | name != t.Name() :: Get(f, name) == Get(g, name)
    ensures Knows(w, g, Staged(op, plan))
  {
    TempIsNotRead(t);
    KnowsIsStable(w, f, g, Staged(op, plan));
  }

  lemma OpenTempStep(w: World, origin: map<string, string>, st: State, c: nat, op: Op, plan: Plan, t: Temp)
    requires Inv(w, origin, st) && PcOf(st, c) == Staged(op, plan) && |t.uuid| == 36 && t.uuid !in st.used
    ensures Inv(w, origin, OpenTemp(st, c, op, plan, t))
  {
    var st' := OpenTemp(st, c, op, plan, t);
    assert Knows(w, st.files, PcOf(st, c));
    OpenShape(w, st, c, op, plan, t);
    TempFileStep(w, origin, st, st', c, if t.Name() in st.files then Some(Effect(c, op, Failed)) else None, t);
  }

  lemma OpenShape(w: World, st: State, c: nat, op: Op, plan: Plan, t: Temp)
    requires PcOf(st, c) == Staged(op, plan) && Knows(w, st.files, Staged(op, plan))
    requires |t.uuid| == 36 && t.uuid !in st.used
    ensures var st' := OpenTemp(st, c, op, plan, t);
            && OthersStay(st, st', c) && TempMove(st, st', c)
            && Logs(st, st', c, if t.Name() in st.files then Some(Effect(c, op, Failed)) else None)
            && Knows(w, st'.files, PcOf(st', c))
            && forall name | name != t.Name() :: Get(st.files, name) == Get(st'.files, name)
  {
    if t.Name() !in st.files {
      StillKnows(w, st.files, OpenTemp(st, c, op, plan, t).files, op, plan, t);
    }
  }

  lemma OpenStep(w: World, origin: map<string, string>, st: State, c: nat, pid: string, uuid: string)
    requires Inv(w, origin, st)
    ensures Inv(w, origin, Apply(w, st, Open(c, pid, uuid)))
  {
    var pc := PcOf(st, c);
    if pc.Staged? && IsUuidV4(uuid) && uuid !in st.used {
      OpenTempStep(w, origin, st, c, pc.op, pc.plan, Temp(Stem(pc.op, pc.plan), pid, uuid));
    }
  }

  lemma WriteShape(w: World, st: State, a: Action)
    requires (a.Scribble? || a.Fill?) && Knows(w, st.files, PcOf(st, a.c))
    requires PcOf(st, a.c).Opened? && PcOf(st, a.c).temp.Name() in st.files
    ensures var st', pc := Apply(w, st, a), PcOf(st, a.c);
            && OthersStay(st, st', a.c) && Logs(st, st', a.c, None) && TempMove(st, st', a.c)
            && st'.locks == st.locks && st'.used == st.used
            && HoldsLock(PcOf(st', a.c)) && HasTemp(PcOf(st', a.c))
            && PcOf(st', a.c).op == pc.op && PcOf(st', a.c).temp == pc.temp
            && Knows(w, st'.files, PcOf(st', a.c))
            && forall name | name != pc.temp.Name() :: Get(st'.files, name) == Get(st.files, name)
  {
    var pc := PcOf(st, a.c);
    StillKnows(w, st.files, Apply(w, st, a).files, pc.op, pc.plan, pc.temp);
  }

  lemma WriteStep(w: World, origin: map<string, string>, st: State, a: Action)
    requires Inv(w, origin, st) && (a.Scribble? || a.Fill?)
    ensures Inv(w, origin, Apply(w, st, a))
  {
    var pc := PcOf(st, a.c);
    if pc.Opened? && pc.temp.Name() in st.files {
      assert Knows(w, st.files, pc);
      WriteShape(w, st, a);
      TempFileStep(w, origin, st, Apply(w, st, a), a.c, None, pc.temp);
    }
  }

  lemma SweepStep(w: World, origin: map<string, string>, st: State, c: nat, removed: bool)
    requires Inv(w, origin, st)
    ensures Inv(w, origin, Apply(w, st, Sweep(c, removed)))
  {
    var st', pc := Apply(w, st, Sweep(c, removed)), PcOf(st, c);
    if pc.Sweeping? {
      assert Knows(w, st.files, pc);
      TempFileStep(w, origin, st, st', c, None, pc.temp);
    }
  }

  // ---- the commit ----

  lemma RegistryReadsBack(codec: Codec, ids: seq<string>)
    requires codec.RoundTrips() && forall id <- ids :: IsUuidV4(id)
    ensures Ids(codec, Some(RegistryText(codec, ids))) == Some(SortedSet(ids))
  {
    var sorted := SortedSet(ids);
    var items := seq(|sorted|, i requires 0 <= i < |sorted| => Str(sorted[i]));
    assert codec.parse(RegistryText(codec, ids)) == Some(Arr(items));
    forall item <- items ensures item.Str? && IsUuidV4(item.s) {
      var i :| 0 <= i < |items| && items[i] == item;
      assert sorted[i] in sorted;
    }
    assert Strings(items) == sorted;
  }

  lemma IdsAreUuids(codec: Codec, text: Option<string>)
    requires Ids(codec, text).Some?
    ensures forall id <- Ids(codec, text).value :: IsUuidV4(id)
  {
    if text.Some? {
      var items := codec.parse(text.value).value.items;
      forall id <- Strings(items) ensures IsUuidV4(id) {
        var i :| 0 <= i < |items| && Strings(items)[i] == id;
        assert items[i] in items;
      }
    }
  }

  /** Replacing one read file and dropping one temporary file. */
  ghost predicate Replaces(f: map<string, string>, g: map<string, string>, target: string, text: string, t: Temp) {
    && Get(g, target) == Some(text)
    && forall name | name != target && name != t.Name() :: Get(f, name) == Get(g, name)
  }

  lemma SessionsAfterReplace(w: World, f: map<string, string>, g: map<string, string>, op: Op, plan: Plan, t: Temp)
    requires w.codec.RoundTrips()
    requires Knows(w, f, Staged(op, plan)) && Replaces(f, g, plan.target, plan.text, t)
    ensures plan.target != REGISTRY ==> Sessions(w.codec, g) == Sessions(w.codec, f)
    ensures plan.target == REGISTRY ==>
      && op.Create? && plan.next.Return? && plan.next.reply.Issued? && Sessions(w.codec, f).Some?
      && IsUuidV4(plan.next.reply.id) && plan.next.reply.id !in Sessions(w.codec, f).value
      && Sessions(w.codec, g) == Some(Sessions(w.codec, f).value + { plan.next.reply.id })
  {
    TempIsNotRead(t);
    PlanTargetIsRead(w, f, Staged(op, plan));
    if plan.target == REGISTRY {
      assert op.Create? by { if op.Write? { RecordNamesAreExact(op.skill); } }
      var id, ids := plan.next.reply.id, Ids(w.codec, plan.basis).value;
      IdsAreUuids(w.codec, plan.basis);
      RegistryReadsBack(w.codec, ids + [id]);
      assert Sessions(w.codec, g).value == Sessions(w.codec, f).value + { id };
    } else {
      assert Get(f, REGISTRY) == Get(g, REGISTRY);
    }
  }

  /** Records after the replacement: only a record target changes them. */
  lemma RecordsAfterReplace(w: World, f: map<string, string>, g: map<string, string>, op: Op, plan: Plan, t: Temp)
    requires Knows(w, f, Staged(op, plan)) && Replaces(f, g, plan.target, plan.text, t)
    ensures var r, r' := Abstract(w.codec, f).records, Abstract(w.codec, g).records;
            r' == if IsRecordName(plan.target) then r[plan.target := plan.text] else r
  {
    var r, r' := Abstract(w.codec, f).records, Abstract(w.codec, g).records;
    TempIsNotRead(t);
    var expected := if IsRecordName(plan.target) then r[plan.target := plan.text] else r;
    forall name ensures Get(r', name) == Get(expected, name) {
      if IsRecordName(name) && name != plan.target { assert Get(f, name) == Get(g, name); }
    }
    SameLookupsSameMap(r', expected);
  }

  /** The replacement is the atomic object's step, or none at all for the ignore file. */
  lemma ReplaceIsAtomic(w: World, f: map<string, string>, g: map<string, string>, op: Op, plan: Plan, t: Temp)
    requires w.codec.RoundTrips()
    requires Knows(w, f, Staged(op, plan)) && Replaces(f, g, plan.target, plan.text, t)
    ensures var s, s' := Abstract(w.codec, f), Abstract(w.codec, g);
            if plan.next.Return? then Atomic(w.codec, s, op, plan.next.reply) == Some(s') else s' == s
  {
    RecordsAfterReplace(w, f, g, op, plan, t);
    SessionsAfterReplace(w, f, g, op, plan, t);
    if op.Write? {
      RecordNamesAreExact(op.skill);
      AbstractLookup(w.codec, f, op.skill);
    } else {
      assert !IsRecordName(plan.target);
    }
  }

  /** Another client's knowledge survives the commit, because its lock is another lock. */
  lemma KnowsAfterReplace(w: World, f: map<string, string>, g: map<string, string>, op: Op, plan: Plan, t: Temp, pc: Pc)
    requires w.codec.RoundTrips()
    requires Knows(w, f, Staged(op, plan)) && Replaces(f, g, plan.target, plan.text, t)
    requires Knows(w, f, pc)
    requires HoldsLock(pc) ==> LockOf(pc.op) != LockOf(op)
    requires HasTemp(pc) ==> pc.temp.Name() != t.Name()
    ensures Knows(w, g, pc)
  {
    SessionsAfterReplace(w, f, g, op, plan, t);
    PlanTargetIsRead(w, f, Staged(op, plan));
    if HasTemp(pc) {
      TempIsNotRead(pc.temp);
      assert Get(f, pc.temp.Name()) == Get(g, pc.temp.Name());
    }
    TempIsNotRead(t);
    if pc.Staged? || pc.Opened? || pc.Filled? {
      PlanTargetIsRead(w, f, pc);
      assert pc.plan.target != plan.target;
    }
  }

  lemma RenameShape(w: World, st: State, c: nat, op: Op, plan: Plan, t: Temp)
    requires PcOf(st, c) == Filled(op, plan, t) && Knows(w, st.files, Filled(op, plan, t))
    ensures var st' := RenameTemp(st, c, op, plan, t);
            && OthersStay(st, st', c) && PcOf(st', c) == Sweeping(op, t, plan.next)
            && st'.locks == st.locks && st'.used == st.used
            && Logs(st, st', c, if plan.next.Return? then Some(Effect(c, op, plan.next.reply)) else None)
            && Replaces(st.files, st'.files, plan.target, plan.text, t)
    ensures Knows(w, st.files, Staged(op, plan))
  {
    assert Knows(w, st.files, Staged(op, plan));
    TempIsNotRead(t);
    PlanTargetIsRead(w, st.files, Filled(op, plan, t));
  }

  lemma RenameTempStep(w: World, origin: map<string, string>, st: State, c: nat, op: Op, plan: Plan, t: Temp)
    requires w.codec.RoundTrips()
    requires Inv(w, origin, st) && PcOf(st, c) == Filled(op, plan, t)
    ensures Inv(w, origin, RenameTemp(st, c, op, plan, t))
  {
    var st' := RenameTemp(st, c, op, plan, t);
    assert Knows(w, st.files, PcOf(st, c));
    RenameShape(w, st, c, op, plan, t);
    var e := if plan.next.Return? then Some(Effect(c, op, plan.next.reply)) else None;
    ReplaceIsAtomic(w, st.files, st'.files, op, plan, t);
    RefinesAfter(w, origin, st, st', e);
    PhasesAfter(st, st', c, e);
    TempsAfter(st, st', c);
    ExclusiveAfter(st, st', c);
    RenameKeepsKnowledge(w, st, st', c, op, plan, t);
  }

  lemma RenameStep(w: World, origin: map<string, string>, st: State, c: nat)
    requires w.codec.RoundTrips() && Inv(w, origin, st)
    ensures Inv(w, origin, Apply(w, st, Rename(c)))
  {
    var pc := PcOf(st, c);
    if pc.Filled? { RenameTempStep(w, origin, st, c, pc.op, pc.plan, pc.temp); }
  }

  lemma RenameKeepsKnowledge(w: World, st: State, st': State, c: nat, op: Op, plan: Plan, t: Temp)
    requires w.codec.RoundTrips()
    requires AllKnow(w, st) && Exclusive(st) && TempsApart(st) && OthersStay(st, st', c)
    requires PcOf(st, c) == Filled(op, plan, t) && PcOf(st', c) == Sweeping(op, t, plan.next)
    requires Replaces(st.files, st'.files, plan.target, plan.text, t)
    ensures AllKnow(w, st')
  {
    assert Knows(w, st.files, PcOf(st, c)) && HoldsLock(PcOf(st, c));
    forall d: nat ensures Knows(w, st'.files, PcOf(st', d)) {
      if d != c {
        var pc := PcOf(st, d);
        assert PcOf(st', d) == pc && Knows(w, st.files, pc);
        if HasTemp(pc) { DistinctTempNames(pc.temp, t); }
        KnowsAfterReplace(w, st.files, st'.files, op, plan, t, pc);
      }
    }
  }

  // ---- runs ----

  lemma StepKeepsInv(w: World, origin: map<string, string>, st: State, a: Action)
    requires w.codec.RoundTrips() && Inv(w, origin, st)
    ensures Inv(w, origin, Apply(w, st, a))
  {
    match a
    case Check(c) => CheckStep(w, origin, st, c);
    case Fetch(c) => FetchStep(w, origin, st, c);
    case Prepare(c) => PrepareStep(w, origin, st, c);
    case Load(c, uuid) => LoadStep(w, origin, st, c, uuid);
    case Open(c, pid, uuid) => OpenStep(w, origin, st, c, pid, uuid);
    case Rename(c) => RenameStep(w, origin, st, c);
    case Sweep(c, removed) => SweepStep(w, origin, st, c, removed);
    case Fault(c) => FaultStep(w, origin, st, c);
    case Reap(name) => ReapStep(w, origin, st, name);
    case Scribble(_, _) => WriteStep(w, origin, st, a);
    case Fill(_) => WriteStep(w, origin, st, a);
    case _ => BookkeepingStep(w, origin, st, a);
  }

  lemma {:induction false} RunKeepsInv(w: World, files: map<string, string>, actions: seq<Action>)
    requires w.codec.RoundTrips()
    ensures Inv(w, files, Run(w, Start(files), actions))
  {
    if actions != [] {
      RunKeepsInv(w, files, actions[..|actions| - 1]);
      StepKeepsInv(w, files, Run(w, Start(files), actions[..|actions| - 1]), actions[|actions| - 1]);
    }
  }

  /**
   The main theorem: whatever the folder held, whatever the clients do and however they are
   scheduled and crashed, the history is that of the atomic object, effect by effect.
   */
  lemma EveryRunIsLinearizable(w: World, files: map<string, string>, actions: seq<Action>)
    requires w.codec.RoundTrips()
    ensures var st := Run(w, Start(files), actions);
            Linearizable(w.codec, Abstract(w.codec, files), st.log, Abstract(w.codec, st.files))
  {
    RunKeepsInv(w, files, actions);
    var st := Run(w, Start(files), actions);
    forall c: nat ensures PhaseOf(st.log, c) != Broken {
      assert PhaseOf(st.log, c) == Expected(PcOf(st, c));
    }
  }
}
