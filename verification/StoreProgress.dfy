/**
 What one client gets done when it runs alone for a while, whatever state the others have left behind,
 as long as none of them holds the lock it needs: its call comes back with the reply it is due.
 */
module StoreProgress {
  import opened Text
  import opened JsonValues
  import opened Layout
  import opened StoreSpec
  import opened StoreProtocol
  import opened StoreRefinement
  import opened StoreReplies
  import opened StoreRuns
  import PrivateIgnore

  predicate By(actions: seq<Action>, c: nat) { forall a <- actions :: !a.Reap? && a.c == c }

  lemma OneMore(w: World, st: State, actions: seq<Action>, a: Action)
    ensures Run(w, st, actions + [a]) == Apply(w, Run(w, st, actions), a)
  {
    assert (actions + [a])[..|actions|] == actions;
  }

  lemma {:induction false} RunsAppend(w: World, st: State, a: seq<Action>, b: seq<Action>)
    ensures Run(w, st, a + b) == Run(w, Run(w, st, a), b)
  {
    if b == [] {
      assert a + b == a;
    } else {
      var n := |b| - 1;
      RunsAppend(w, st, a, b[..n]);
      assert a + b == (a + b[..n]) + [b[n]] && b == b[..n] + [b[n]];
      OneMore(w, st, a + b[..n], b[n]);
      OneMore(w, Run(w, st, a), b[..n], b[n]);
    }
  }

  /** Client c stands at `pc`, with these files, locks, uuids drawn and history. */
  predicate Stands(st: State, c: nat, pc: Pc, files: map<string, string>, locks: map<string, nat>, used: set<string>,
                   log: seq<Event>) {
    PcOf(st, c) == pc && st.files == files && st.locks == locks && st.used == used && st.log == log
  }

  /** One stretch of c's steps, then another. */
  lemma Then(w: World, st: State, a: seq<Action>, b: seq<Action>, c: nat)
    requires By(a, c) && By(b, c)
    ensures By(a + b, c) && Run(w, st, a + b) == Run(w, Run(w, st, a), b)
  {
    RunsAppend(w, st, a, b);
  }

  // ---- calling and entering ----

  lemma Calls(w: World, st: State, c: nat, op: Op) returns (actions: seq<Action>)
    requires PcOf(st, c).Idle?
    ensures By(actions, c)
    ensures var verdict := Verdict(Sessions(w.codec, st.files), op);
            if verdict.None?
            then Stands(Run(w, st, actions), c, Admitted(op), st.files, st.locks, st.used, st.log + [Invoked(c, op)])
            else Stands(Run(w, st, actions), c, Finishing(op, verdict.value), st.files, st.locks, st.used,
                        st.log + [Invoked(c, op), Effect(c, op, verdict.value)])
  {
    actions := [Invoke(c, op)] + [Check(c)];
    OneMore(w, st, [], Invoke(c, op));
    assert [] + [Invoke(c, op)] == [Invoke(c, op)];
    OneMore(w, st, [Invoke(c, op)], Check(c));
    assert Run(w, st, []) == st;
    var verdict := Verdict(Sessions(w.codec, st.files), op);
    if verdict.Some? {
      assert st.log + [Invoked(c, op)] + [Effect(c, op, verdict.value)]
             == st.log + [Invoked(c, op), Effect(c, op, verdict.value)];
    }
  }

  lemma Enters(w: World, st: State, c: nat, op: Op) returns (actions: seq<Action>)
    requires PcOf(st, c) == Admitted(op) && !op.Read? && LockOf(op) !in st.locks
    ensures By(actions, c)
    ensures Stands(Run(w, st, actions), c, Holding(op), st.files, st.locks[LockOf(op) := c], st.used, st.log)
  {
    actions := [Acquire(c)];
    OneMore(w, st, [], Acquire(c));
    assert [] + [Acquire(c)] == [Acquire(c)];
  }

  lemma Prepares(w: World, st: State, c: nat, op: Op) returns (actions: seq<Action>)
    requires PcOf(st, c) == Holding(op) && op.Write?
    ensures By(actions, c)
    ensures Stands(Run(w, st, actions), c, Prepared(op), st.files, st.locks, st.used, st.log)
  {
    actions := [Prepare(c)];
    OneMore(w, st, [], Prepare(c));
    assert [] + [Prepare(c)] == [Prepare(c)];
  }

  // ---- publishing a staged text ----

  /** From the staged text to the complete temporary file. */
  lemma Fills(w: World, st: State, c: nat, op: Op, plan: Plan, pid: string, uuid: string) returns (actions: seq<Action>)
    requires PcOf(st, c) == Staged(op, plan)
    requires IsUuidV4(uuid) && uuid !in st.used && TempName(Stem(op, plan), pid, uuid) !in st.files
    ensures By(actions, c)
    ensures var temp := Temp(Stem(op, plan), pid, uuid);
            Stands(Run(w, st, actions), c, Filled(op, plan, temp), st.files[temp.Name() := plan.text], st.locks,
                   st.used + { uuid }, st.log)
  {
    actions := [Open(c, pid, uuid)] + [Fill(c)];
    OneMore(w, st, [], Open(c, pid, uuid));
    assert [] + [Open(c, pid, uuid)] == [Open(c, pid, uuid)];
    OneMore(w, st, [Open(c, pid, uuid)], Fill(c));
  }

  /** The rename, and the unlink that finds nothing left. */
  lemma Renames(w: World, st: State, c: nat, op: Op, plan: Plan, temp: Temp) returns (actions: seq<Action>)
    requires PcOf(st, c) == Filled(op, plan, temp) && Get(st.files, temp.Name()) == Some(plan.text)
    ensures By(actions, c)
    ensures var st' := Run(w, st, actions);
            && PcOf(st', c) == (if plan.next.Proceed? then Prepared(op) else Releasing(op, plan.next.reply))
            && st'.files == st.files[plan.target := plan.text] - { temp.Name() }
            && st'.locks == st.locks && st'.used == st.used
            && st'.log == st.log + if plan.next.Return? then [Effect(c, op, plan.next.reply)] else []
  {
    actions := [Rename(c)] + [Sweep(c, false)];
    OneMore(w, st, [], Rename(c));
    assert [] + [Rename(c)] == [Rename(c)];
    OneMore(w, st, [Rename(c)], Sweep(c, false));
  }

  /** From the staged text to the swept temporary file. */
  lemma Publishes(w: World, st: State, c: nat, op: Op, plan: Plan, pid: string, uuid: string)
    returns (actions: seq<Action>)
    requires PcOf(st, c) == Staged(op, plan) && IsRead(plan.target)
    requires IsUuidV4(uuid) && uuid !in st.used && TempName(Stem(op, plan), pid, uuid) !in st.files
    ensures By(actions, c)
    ensures var st' := Run(w, st, actions);
            && PcOf(st', c) == (if plan.next.Proceed? then Prepared(op) else Releasing(op, plan.next.reply))
            && st'.files == st.files[plan.target := plan.text]
            && st'.locks == st.locks && st'.used == st.used + { uuid }
            && st'.log == st.log + if plan.next.Return? then [Effect(c, op, plan.next.reply)] else []
  {
    var temp := Temp(Stem(op, plan), pid, uuid);
    TempIsNotRead(temp);
    var fill := Fills(w, st, c, op, plan, pid, uuid);
    var rename := Renames(w, Run(w, st, fill), c, op, plan, temp);
    Then(w, st, fill, rename, c);
    FilesAfterRename(st.files, temp.Name(), plan.target, plan.text);
    actions := fill + rename;
  }

  lemma FilesAfterRename(files: map<string, string>, temp: string, target: string, text: string)
    requires temp !in files && temp != target
    ensures files[temp := text][target := text] - { temp } == files[target := text]
  {
  }

  // ---- leaving ----

  lemma Leaves(w: World, st: State, c: nat, op: Op, r: Reply) returns (actions: seq<Action>)
    requires PcOf(st, c) == Releasing(op, r)
    ensures By(actions, c)
    ensures Stands(Run(w, st, actions), c, Idle, st.files, st.locks - { LockOf(op) }, st.used,
                   st.log + [Replied(c, op, r)])
  {
    actions := [Release(c)] + [Answer(c)];
    OneMore(w, st, [], Release(c));
    assert [] + [Release(c)] == [Release(c)];
    OneMore(w, st, [Release(c)], Answer(c));
  }

  lemma Answers(w: World, st: State, c: nat, op: Op, r: Reply) returns (actions: seq<Action>)
    requires PcOf(st, c) == Finishing(op, r)
    ensures By(actions, c)
    ensures Stands(Run(w, st, actions), c, Idle, st.files, st.locks, st.used, st.log + [Replied(c, op, r)])
  {
    actions := [Answer(c)];
    OneMore(w, st, [], Answer(c));
    assert [] + [Answer(c)] == [Answer(c)];
  }

  /** The three events of one completed call. */
  function Served(c: nat, op: Op, r: Reply): seq<Event> { [Invoked(c, op), Effect(c, op, r), Replied(c, op, r)] }

  lemma LogOfCall(log: seq<Event>, c: nat, op: Op, r: Reply)
    ensures log + [Invoked(c, op)] + [Effect(c, op, r)] + [Replied(c, op, r)] == log + Served(c, op, r)
    ensures log + [Invoked(c, op), Effect(c, op, r)] + [Replied(c, op, r)] == log + Served(c, op, r)
    ensures log + [Invoked(c, op)] + [Effect(c, op, r), Replied(c, op, r)] == log + Served(c, op, r)
  {
  }

  lemma Unlocked(locks: map<string, nat>, name: string, c: nat)
    requires name !in locks
    ensures locks[name := c] - { name } == locks
  {
  }

  // ---- a whole call ----

  lemma DueWritesAreMet(codec: Codec, files: map<string, string>, op: Op)
    requires op.Write? && Due(codec, Sessions(codec, files), Get(files, RecordName(op.skill)), op)
    ensures Verdict(Sessions(codec, files), op).None?
    ensures !Unreadable(codec, Get(files, RecordName(op.skill)))
    ensures Meets(codec, DemandOf(op.expected), Get(files, RecordName(op.skill)))
  {
  }

  /** The call and the lock. */
  lemma Locks(w: World, st: State, c: nat, op: Op) returns (actions: seq<Action>)
    requires PcOf(st, c).Idle? && !op.Read? && LockOf(op) !in st.locks && Verdict(Sessions(w.codec, st.files), op).None?
    ensures By(actions, c)
    ensures Stands(Run(w, st, actions), c, Holding(op), st.files, st.locks[LockOf(op) := c], st.used,
                   st.log + [Invoked(c, op)])
  {
    var call := Calls(w, st, c, op);
    var enter := Enters(w, Run(w, st, call), c, op);
    Then(w, st, call, enter, c);
    actions := call + enter;
  }

  /** The record read under the lock: the replacement is staged, or the reply is on its way. */
  lemma Reads(w: World, st: State, c: nat, op: Op) returns (actions: seq<Action>)
    requires PcOf(st, c) == Holding(op) && op.Write?
    ensures By(actions, c)
    ensures var current, text := Get(st.files, RecordName(op.skill)), w.codec.Stored(op.value);
            var plan := Plan(RecordName(op.skill), current, text, Return(Stored(w.codec.hash(text))));
            var r := if Unreadable(w.codec, current) then Corrupt else Conflict;
            if !Unreadable(w.codec, current) && Meets(w.codec, DemandOf(op.expected), current)
            then Stands(Run(w, st, actions), c, Staged(op, plan), st.files, st.locks, st.used, st.log)
            else Stands(Run(w, st, actions), c, Releasing(op, r), st.files, st.locks, st.used,
                        st.log + [Effect(c, op, r)])
  {
    var prepare := Prepares(w, st, c, op);
    OneMore(w, st, prepare, Load(c, ""));
    actions := prepare + [Load(c, "")];
  }

  lemma Stages(w: World, st: State, c: nat, op: Op) returns (actions: seq<Action>)
    requires PcOf(st, c).Idle? && op.Write? && LockOf(op) !in st.locks
    requires Due(w.codec, Sessions(w.codec, st.files), Get(st.files, RecordName(op.skill)), op)
    ensures By(actions, c)
    ensures var text := w.codec.Stored(op.value);
            var plan := Plan(RecordName(op.skill), Get(st.files, RecordName(op.skill)), text,
                             Return(Stored(w.codec.hash(text))));
            Stands(Run(w, st, actions), c, Staged(op, plan), st.files, st.locks[LockOf(op) := c], st.used,
                   st.log + [Invoked(c, op)])
  {
    DueWritesAreMet(w.codec, st.files, op);
    var lock := Locks(w, st, c, op);
    var read := Reads(w, Run(w, st, lock), c, op);
    Then(w, st, lock, read, c);
    actions := lock + read;
  }

  /**
   A write that is due, made alone while its lock is free, comes back with its revision and leaves
   its text in the skill's file, and nothing else is changed.
   */
  lemma SoloWritesSucceed(w: World, st: State, c: nat, op: Op, pid: string, uuid: string) returns (actions: seq<Action>)
    requires PcOf(st, c).Idle? && op.Write? && LockOf(op) !in st.locks
    requires Due(w.codec, Sessions(w.codec, st.files), Get(st.files, RecordName(op.skill)), op)
    requires IsUuidV4(uuid) && uuid !in st.used && TempName(op.skill, pid, uuid) !in st.files
    ensures By(actions, c)
    ensures var text := w.codec.Stored(op.value);
            Stands(Run(w, st, actions), c, Idle, st.files[RecordName(op.skill) := text], st.locks, st.used + { uuid },
                   st.log + Served(c, op, Stored(w.codec.hash(text))))
  {
    var text := w.codec.Stored(op.value);
    var plan := Plan(RecordName(op.skill), Get(st.files, RecordName(op.skill)), text,
                     Return(Stored(w.codec.hash(text))));
    RecordNamesAreExact(op.skill);
    var stage := Stages(w, st, c, op);
    var publish := Publishes(w, Run(w, st, stage), c, op, plan, pid, uuid);
    Then(w, st, stage, publish, c);
    var leave := Leaves(w, Run(w, st, stage + publish), c, op, plan.next.reply);
    Then(w, st, stage + publish, leave, c);
    actions := stage + publish + leave;
    Unlocked(st.locks, LockOf(op), c);
    LogOfCall(st.log, c, op, plan.next.reply);
  }

  /** A call its session, skill or guard turns away at once. */
  lemma SoloCallsAreTurnedAway(w: World, st: State, c: nat, op: Op) returns (actions: seq<Action>)
    requires PcOf(st, c).Idle? && Verdict(Sessions(w.codec, st.files), op).Some?
    ensures By(actions, c)
    ensures Stands(Run(w, st, actions), c, Idle, st.files, st.locks, st.used,
                   st.log + Served(c, op, Verdict(Sessions(w.codec, st.files), op).value))
  {
    var r := Verdict(Sessions(w.codec, st.files), op).value;
    var call := Calls(w, st, c, op);
    var answer := Answers(w, Run(w, st, call), c, op, r);
    Then(w, st, call, answer, c);
    actions := call + answer;
    LogOfCall(st.log, c, op, r);
  }

  /** A write the record itself turns away. */
  lemma SoloWritesMeetTheRecord(w: World, st: State, c: nat, op: Op) returns (actions: seq<Action>)
    requires PcOf(st, c).Idle? && op.Write? && LockOf(op) !in st.locks && Verdict(Sessions(w.codec, st.files), op).None?
    requires var current := Get(st.files, RecordName(op.skill));
             Unreadable(w.codec, current) || !Meets(w.codec, DemandOf(op.expected), current)
    ensures By(actions, c)
    ensures var r := if Unreadable(w.codec, Get(st.files, RecordName(op.skill))) then Corrupt else Conflict;
            Stands(Run(w, st, actions), c, Idle, st.files, st.locks, st.used, st.log + Served(c, op, r))
  {
    var r := if Unreadable(w.codec, Get(st.files, RecordName(op.skill))) then Corrupt else Conflict;
    var lock := Locks(w, st, c, op);
    var read := Reads(w, Run(w, st, lock), c, op);
    Then(w, st, lock, read, c);
    var leave := Leaves(w, Run(w, st, lock + read), c, op, r);
    Then(w, st, lock + read, leave, c);
    actions := lock + read + leave;
    Unlocked(st.locks, LockOf(op), c);
    LogOfCall(st.log, c, op, r);
  }

  /** A write that is not due, made alone while its lock is free, is answered as such and changes no file. */
  lemma SoloWritesAreRefused(w: World, st: State, c: nat, op: Op) returns (actions: seq<Action>, r: Reply)
    requires PcOf(st, c).Idle? && op.Write? && LockOf(op) !in st.locks
    requires !Due(w.codec, Sessions(w.codec, st.files), Get(st.files, RecordName(op.skill)), op)
    ensures By(actions, c) && !r.Stored?
    ensures WriteAnswer(w.codec, Sessions(w.codec, st.files), Get(st.files, RecordName(op.skill)), op, r)
    ensures Stands(Run(w, st, actions), c, Idle, st.files, st.locks, st.used, st.log + Served(c, op, r))
  {
    if Verdict(Sessions(w.codec, st.files), op).Some? {
      r := Verdict(Sessions(w.codec, st.files), op).value;
      actions := SoloCallsAreTurnedAway(w, st, c, op);
    } else {
      UnmetWritesAreAnswered(w, st.files, op);
      r := if Unreadable(w.codec, Get(st.files, RecordName(op.skill))) then Corrupt else Conflict;
      actions := SoloWritesMeetTheRecord(w, st, c, op);
    }
  }

  lemma UnmetWritesAreAnswered(w: World, files: map<string, string>, op: Op)
    requires op.Write? && Verdict(Sessions(w.codec, files), op).None?
    requires !Due(w.codec, Sessions(w.codec, files), Get(files, RecordName(op.skill)), op)
    ensures var current := Get(files, RecordName(op.skill));
            && (Unreadable(w.codec, current) || !Meets(w.codec, DemandOf(op.expected), current))
            && WriteAnswer(w.codec, Sessions(w.codec, files), current, op,
                           if Unreadable(w.codec, current) then Corrupt else Conflict)
  {
  }

  /** A read made alone is answered from the files as they stand. */
  lemma SoloReadsSucceed(w: World, st: State, c: nat, op: Op) returns (actions: seq<Action>, r: Reply)
    requires PcOf(st, c).Idle? && op.Read?
    ensures By(actions, c)
    ensures ReadAnswer(w.codec, Sessions(w.codec, st.files), Get(st.files, RecordName(op.skill)), op, r)
    ensures Stands(Run(w, st, actions), c, Idle, st.files, st.locks, st.used, st.log + Served(c, op, r))
  {
    if Verdict(Sessions(w.codec, st.files), op).Some? {
      r := Verdict(Sessions(w.codec, st.files), op).value;
      actions := SoloCallsAreTurnedAway(w, st, c, op);
    } else {
      r := Observation(w.codec, Get(st.files, RecordName(op.skill)));
      var call := Calls(w, st, c, op);
      OneMore(w, st, call, Fetch(c));
      var answer := Answers(w, Run(w, st, call + [Fetch(c)]), c, op, r);
      Then(w, st, call + [Fetch(c)], answer, c);
      actions := call + [Fetch(c)] + answer;
      LogOfCall(st.log, c, op, r);
    }
  }

  // ---- a new session ----

  /** The ignore file put in order, if it is not. */
  lemma Ignores(w: World, st: State, c: nat, pid: string, uuid: string) returns (actions: seq<Action>)
    requires PcOf(st, c) == Holding(Create)
    requires IsUuidV4(uuid) && uuid !in st.used && TempName("gitignore", pid, uuid) !in st.files
    ensures By(actions, c)
    ensures var st' := Run(w, st, actions);
            && PcOf(st', c) == Prepared(Create) && st'.locks == st.locks && st'.log == st.log
            && st'.used <= st.used + { uuid }
            && forall name | name != IGNORE :: Get(st'.files, name) == Get(st.files, name)
  {
    OneMore(w, st, [], Prepare(c));
    assert [] + [Prepare(c)] == [Prepare(c)];
    var s1 := Run(w, st, [Prepare(c)]);
    if PcOf(s1, c).Prepared? {
      actions := [Prepare(c)];
    } else {
      var publish := Publishes(w, s1, c, Create, PcOf(s1, c).plan, pid, uuid);
      Then(w, st, [Prepare(c)], publish, c);
      actions := [Prepare(c)] + publish;
    }
  }

  /** The registry read, and the fresh id staged beside those in it. */
  lemma StagesSession(w: World, st: State, c: nat, session: string) returns (actions: seq<Action>)
    requires PcOf(st, c) == Prepared(Create) && Sessions(w.codec, st.files).Some?
    requires IsUuidV4(session) && session !in st.used && session !in Sessions(w.codec, st.files).value
    ensures By(actions, c)
    ensures Ids(w.codec, Get(st.files, REGISTRY)).Some?
    ensures var ids := Ids(w.codec, Get(st.files, REGISTRY)).value;
            var plan := Plan(REGISTRY, Get(st.files, REGISTRY), RegistryText(w.codec, ids + [session]),
                             Return(Issued(session)));
            Stands(Run(w, st, actions), c, Staged(Create, plan), st.files, st.locks, st.used + { session }, st.log)
  {
    actions := [Load(c, session)];
    OneMore(w, st, [], Load(c, session));
    assert [] + [Load(c, session)] == [Load(c, session)];
  }

  lemma RegistryAfter(w: World, files: map<string, string>, ids: seq<string>, session: string)
    requires w.codec.RoundTrips() && Ids(w.codec, Get(files, REGISTRY)) == Some(ids) && IsUuidV4(session)
    ensures Sessions(w.codec, files).Some?
    ensures Sessions(w.codec, files[REGISTRY := RegistryText(w.codec, ids + [session])])
            == Some(Sessions(w.codec, files).value + { session })
  {
    IdsAreUuids(w.codec, Get(files, REGISTRY));
    RegistryReadsBack(w.codec, ids + [session]);
    var after := files[REGISTRY := RegistryText(w.codec, ids + [session])];
    assert Get(after, REGISTRY) == Some(RegistryText(w.codec, ids + [session]));
    assert Sessions(w.codec, after).value == Sessions(w.codec, files).value + { session };
  }

  /**
   createSession, made alone while the registry's lock is free and the registry, if there is one, can
   be used: it comes back with the fresh id, and the registry holds that id beside the old ones.
   */
  lemma SoloSessionsSucceed(w: World, st: State, c: nat, session: string, pid: string, uuid: string, uuid': string)
    returns (actions: seq<Action>)
    requires w.codec.RoundTrips() && PcOf(st, c).Idle?
    requires LockOf(Create) !in st.locks && !RegistryBroken(w.codec, st.files)
    requires IsUuidV4(session) && session !in st.used && !Registered(w.codec, st.files, session)
    requires IsUuidV4(uuid) && uuid !in st.used && TempName("gitignore", pid, uuid) !in st.files
    requires IsUuidV4(uuid') && uuid' !in st.used && TempName("mcp-sessions", pid, uuid') !in st.files
    requires session != uuid && session != uuid' && uuid != uuid'
    ensures By(actions, c)
    ensures var st' := Run(w, st, actions);
            && PcOf(st', c).Idle? && st'.locks == st.locks && st'.log == st.log + Served(c, Create, Issued(session))
            && Sessions(w.codec, st.files).Some?
            && Sessions(w.codec, st'.files) == Some(Sessions(w.codec, st.files).value + { session })
  {
    RegistryIsRead(w.codec, st.files);
    var lock := Locks(w, st, c, Create);
    var ignore := Ignores(w, Run(w, st, lock), c, pid, uuid);
    Then(w, st, lock, ignore, c);
    var ready := Run(w, st, lock + ignore);
    OthersOutliveIgnore(w.codec, st.files, ready.files, Temp("mcp-sessions", pid, uuid'));
    var rest := SoloRegisters(w, ready, c, session, pid, uuid');
    Then(w, st, lock + ignore, rest, c);
    actions := lock + ignore + rest;
    Unlocked(st.locks, LockOf(Create), c);
    LogOfCall(st.log, c, Create, Issued(session));
  }

  lemma OthersOutliveIgnore(codec: Codec, before: map<string, string>, after: map<string, string>, temp: Temp)
    requires forall name | name != IGNORE :: Get(after, name) == Get(before, name)
    ensures temp.Name() in after <==> temp.Name() in before
    ensures Sessions(codec, after) == Sessions(codec, before)
  {
    TempIsNotRead(temp);
    assert Get(after, temp.Name()) == Get(before, temp.Name());
    assert Get(after, REGISTRY) == Get(before, REGISTRY);
  }

  lemma SoloRegisters(w: World, st: State, c: nat, session: string, pid: string, uuid: string)
    returns (actions: seq<Action>)
    requires w.codec.RoundTrips() && PcOf(st, c) == Prepared(Create) && Sessions(w.codec, st.files).Some?
    requires IsUuidV4(session) && session !in st.used && session !in Sessions(w.codec, st.files).value
    requires IsUuidV4(uuid) && uuid !in st.used && session != uuid && TempName("mcp-sessions", pid, uuid) !in st.files
    ensures By(actions, c)
    ensures var st' := Run(w, st, actions);
            && PcOf(st', c).Idle? && st'.locks == st.locks - { LockOf(Create) }
            && st'.log == st.log + [Effect(c, Create, Issued(session)), Replied(c, Create, Issued(session))]
            && Sessions(w.codec, st'.files) == Some(Sessions(w.codec, st.files).value + { session })
  {
    var stage := StagesSession(w, st, c, session);
    var ids := Ids(w.codec, Get(st.files, REGISTRY)).value;
    var plan := Plan(REGISTRY, Get(st.files, REGISTRY), RegistryText(w.codec, ids + [session]),
                     Return(Issued(session)));
    var publish := Publishes(w, Run(w, st, stage), c, Create, plan, pid, uuid);
    Then(w, st, stage, publish, c);
    var leave := Leaves(w, Run(w, st, stage + publish), c, Create, Issued(session));
    Then(w, st, stage + publish, leave, c);
    RegistryAfter(w, st.files, ids, session);
    actions := stage + publish + leave;
    assert st.log + [Effect(c, Create, Issued(session))] + [Replied(c, Create, Issued(session))]
           == st.log + [Effect(c, Create, Issued(session)), Replied(c, Create, Issued(session))];
  }
}
