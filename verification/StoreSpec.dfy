/**
 The atomic object the local store stands for: one compare-and-swap register per skill and one
 growing set of issued sessions. An operation takes effect in a single step whose reply is
 determined by the state, except that any operation may fail without effect (a busy lock, an I/O
 error) and that a new session has an unpredictable id.
 */
module StoreSpec {
  import opened Text
  import opened JsonValues
  import opened Layout

  datatype Op =
    | Create
    | Read(skill: string, session: string)
    | Write(skill: string, session: string, value: Json, expected: Option<Json>)

  datatype Reply =
    | Issued(id: string)                       // createSession
    | Absent                                   // read: null
    | Found(value: Json, revision: string)     // read: a record
    | Stored(revision: string)                 // write
    | Conflict                                 // CheckpointConflictError
    | Denied                                   // session not issued for this project
    | Refused                                  // malformed skill id or expectedRevision
    | Corrupt                                  // stored registry or record is unreadable
    | Failed                                   // lock or I/O failure before the replacement

  /** What expectedRevision asks of the current record. */
  datatype Demand = Anything | Nothing | Exactly(revision: string) | Malformed

  function DemandOf(expected: Option<Json>): Demand {
    match expected
    case None => Anything
    case Some(Null) => Nothing
    case Some(Str(s)) => if Blank(s) then Malformed else Exactly(s)
    case Some(_) => Malformed
  }

  predicate Meets(codec: Codec, demand: Demand, current: Option<string>) {
    match demand
    case Anything => true
    case Nothing => current.None?
    case Exactly(revision) => current.Some? && codec.hash(current.value) == revision
    case Malformed => false
  }

  function Get<V>(m: map<string, V>, name: string): Option<V> { if name in m then Some(m[name]) else None }

  lemma SameLookupsSameMap(a: map<string, string>, b: map<string, string>)
    requires forall name :: Get(a, name) == Get(b, name)
    ensures a == b
  {
    forall name ensures name in a <==> name in b ensures name in a ==> a[name] == b[name] {
      assert Get(a, name) == Get(b, name);
    }
  }

  datatype Store = Store(records: map<string, string>, registry: Option<set<string>>)

  /** The refusal an operation meets before it looks at a record, if any. */
  function Verdict(registry: Option<set<string>>, op: Op): Option<Reply> {
    if op.Create? then None
    else if !IsUuidV4(op.session) then Some(Denied)
    else if registry.None? then Some(Corrupt)
    else if op.session !in registry.value then Some(Denied)
    else if !IsSkillId(op.skill) then Some(Refused)
    else if op.Write? && DemandOf(op.expected).Malformed? then Some(Refused)
    else None
  }

  function Unreadable(codec: Codec, current: Option<string>): bool {
    current.Some? && codec.parse(current.value).None?
  }

  /** What a read of this text returns. */
  function Observation(codec: Codec, current: Option<string>): Reply {
    if current.None? then Absent
    else if Unreadable(codec, current) then Corrupt
    else Found(codec.parse(current.value).value, codec.hash(current.value))
  }

  /** The state after `op` atomically replies `r`; None when the object never replies so. */
  function Atomic(codec: Codec, s: Store, op: Op, r: Reply): Option<Store> {
    if r == Failed then Some(s)
    else if op.Create? then
      if s.registry.None? then (if r == Corrupt then Some(s) else None)
      else if r.Issued? && IsUuidV4(r.id) && r.id !in s.registry.value
      then Some(s.(registry := Some(s.registry.value + { r.id })))
      else None
    else
      var verdict := Verdict(s.registry, op);
      if verdict.Some? then (if r == verdict.value then Some(s) else None)
      else
        var name := RecordName(op.skill);
        var current := Get(s.records, name);
        if op.Read? then (if r == Observation(codec, current) then Some(s) else None)
        else if Unreadable(codec, current) then (if r == Corrupt then Some(s) else None)
        else if !Meets(codec, DemandOf(op.expected), current) then (if r == Conflict then Some(s) else None)
        else
          var text := codec.Stored(op.value);
          if r == Stored(codec.hash(text)) then Some(s.(records := s.records[name := text])) else None
  }

  // ---- histories ----

  datatype Event =
    | Invoked(client: nat, op: Op)
    | Effect(client: nat, op: Op, reply: Reply)
    | Replied(client: nat, op: Op, reply: Reply)
    | Died(client: nat)

  /** The effects of a history, replayed in order on the atomic object. */
  function Replay(codec: Codec, s: Store, log: seq<Event>): Option<Store> {
    if log == [] then Some(s)
    else
      var before := Replay(codec, s, log[..|log| - 1]);
      var e := log[|log| - 1];
      if before.None? || !e.Effect? then before else Atomic(codec, before.value, e.op, e.reply)
  }

  /** Where one client stands in its current operation, read off the history alone. */
  datatype Phase = Quiet | Pending(op: Op) | Done(op: Op, reply: Reply) | Dead | Broken

  function PhaseStep(p: Phase, c: nat, e: Event): Phase {
    if e.client != c then p
    else
      match e
      case Invoked(_, op) => if p == Quiet then Pending(op) else Broken
      case Effect(_, op, r) => if p == Pending(op) then Done(op, r) else Broken
      case Replied(_, op, r) => if p == Done(op, r) then Quiet else Broken
      case Died(_) => if p in { Dead, Broken, Quiet } then Broken else Dead
  }

  function PhaseOf(log: seq<Event>, c: nat): Phase {
    if log == [] then Quiet else PhaseStep(PhaseOf(log[..|log| - 1], c), c, log[|log| - 1])
  }

  /**
   A history is linearizable to `from` .. `to`: its effects form a legal run of the atomic object,
   and each client's events read (invoke, effect, reply)*, the effect carrying the invoked
   operation and the very reply returned. An effect thus lies between its call and its return.
   */
  ghost predicate Linearizable(codec: Codec, from: Store, log: seq<Event>, to: Store) {
    && Replay(codec, from, log) == Some(to)
    && forall c: nat :: PhaseOf(log, c) != Broken
  }
}
