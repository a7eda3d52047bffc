/**
 Which reply answers which call, in terms of the files and the arguments alone: when a session
 counts, which writes conflict, what is unreadable. Nothing here goes by the atomic object's own
 case analysis; the lemmas tie the two together.
 */
module StoreReplies {
  import opened Text
  import opened JsonValues
  import opened Layout
  import opened StoreSpec
  import opened StoreProtocol
  import opened StoreRefinement
  import opened StoreHistory
  import opened StoreRuns

  // ---- the registry ----

  /** A JSON array of version-4 uuids. */
  predicate IsUuidList(v: Option<Json>) {
    v.Some? && v.value.Arr? && forall item <- v.value.items :: item.Str? && IsUuidV4(item.s)
  }

  /** The registry file is there and cannot be used. */
  predicate RegistryBroken(codec: Codec, files: map<string, string>) {
    REGISTRY in files && !IsUuidList(codec.parse(files[REGISTRY]))
  }

  /** The session is listed in a registry file that can be used. */
  predicate Registered(codec: Codec, files: map<string, string>, session: string) {
    && REGISTRY in files && IsUuidList(codec.parse(files[REGISTRY]))
    && Str(session) in codec.parse(files[REGISTRY]).value.items
  }

  /** An absent registry is an empty one; a present one is read exactly when it is a list of uuids, as that set. */
  lemma RegistryIsRead(codec: Codec, files: map<string, string>)
    ensures REGISTRY !in files ==> Sessions(codec, files) == Some({})
    ensures Sessions(codec, files).None? <==> RegistryBroken(codec, files)
    ensures Sessions(codec, files).Some? ==>
      forall session :: session in Sessions(codec, files).value <==> Registered(codec, files, session)
  {
    if REGISTRY !in files {
      assert Sessions(codec, files).value == {};
    } else if IsUuidList(codec.parse(files[REGISTRY])) {
      var items := codec.parse(files[REGISTRY]).value.items;
      forall session ensures session in Strings(items) <==> Str(session) in items {
        StringsHold(items, session);
      }
    }
  }

  lemma StringsHold(items: seq<Json>, s: string)
    requires forall item <- items :: item.Str?
    ensures s in Strings(items) <==> Str(s) in items
  {
    if s in Strings(items) {
      var i :| 0 <= i < |items| && Strings(items)[i] == s;
      assert items[i] == Str(s);
    }
    if Str(s) in items {
      var i :| 0 <= i < |items| && items[i] == Str(s);
      assert Strings(items)[i] == s;
    }
  }

  // ---- the guard of a write ----

  /** expectedRevision is left out, null, or a text that is not blank. */
  predicate SoundGuard(expected: Option<Json>) {
    expected.Some? ==> expected.value.Null? || (expected.value.Str? && !Blank(expected.value.s))
  }

  /** Create-only onto a record, or a revision that is not that of the record. */
  predicate Stale(codec: Codec, current: Option<string>, expected: Option<Json>) {
    || (expected == Some(Null) && current.Some?)
    || (&& expected.Some? && expected.value.Str? && !Blank(expected.value.s)
        && (current.None? || codec.hash(current.value) != expected.value.s))
  }

  predicate Unparsed(codec: Codec, current: Option<string>) {
    current.Some? && codec.parse(current.value).None?
  }

  // ---- the replies ----

  /** A call's session counts: it is a uuid of a readable registry. */
  predicate Counts(registry: Option<set<string>>, session: string) {
    IsUuidV4(session) && registry.Some? && session in registry.value
  }

  /** The answer to a session that does not count. */
  predicate TurnedAway(registry: Option<set<string>>, session: string, r: Reply) {
    && (!IsUuidV4(session) ==> r == Denied)
    && (IsUuidV4(session) && registry.None? ==> r == Corrupt)
    && (IsUuidV4(session) && registry.Some? && session !in registry.value ==> r == Denied)
  }

  predicate WriteAnswer(codec: Codec, registry: Option<set<string>>, current: Option<string>, op: Op, r: Reply)
    requires op.Write?
  {
    var sound := IsSkillId(op.skill) && SoundGuard(op.expected);
    && (!Counts(registry, op.session) ==> TurnedAway(registry, op.session, r))
    && (Counts(registry, op.session) && !sound ==> r == Refused)
    && (Counts(registry, op.session) && sound ==>
          && (Unparsed(codec, current) ==> r == Corrupt)
          && (!Unparsed(codec, current) && Stale(codec, current, op.expected) ==> r == Conflict)
          && (!Unparsed(codec, current) && !Stale(codec, current, op.expected) ==>
                r == Stored(codec.hash(codec.Stored(op.value)))))
  }

  predicate ReadAnswer(codec: Codec, registry: Option<set<string>>, current: Option<string>, op: Op, r: Reply)
    requires op.Read?
  {
    && (!Counts(registry, op.session) ==> TurnedAway(registry, op.session, r))
    && (Counts(registry, op.session) && !IsSkillId(op.skill) ==> r == Refused)
    && (Counts(registry, op.session) && IsSkillId(op.skill) ==>
          && (current.None? ==> r == Absent)
          && (current.Some? && codec.parse(current.value).None? ==> r == Corrupt)
          && (current.Some? && codec.parse(current.value).Some? ==>
                r == Found(codec.parse(current.value).value, codec.hash(current.value))))
  }

  /** The atomic object gives a write exactly these answers, a failure apart, and stores the value only with Stored. */
  lemma WritesAreAnswered(codec: Codec, s: Store, op: Op, r: Reply)
    requires op.Write? && r != Failed && Atomic(codec, s, op, r).Some?
    ensures WriteAnswer(codec, s.registry, Get(s.records, RecordName(op.skill)), op, r)
    ensures Atomic(codec, s, op, r).value ==
            if r.Stored? then s.(records := s.records[RecordName(op.skill) := codec.Stored(op.value)]) else s
  {
  }

  /** The write is one the store carries out: its session counts, its arguments are sound, its guard holds. */
  predicate Due(codec: Codec, registry: Option<set<string>>, current: Option<string>, op: Op)
    requires op.Write?
  {
    && Counts(registry, op.session) && IsSkillId(op.skill) && SoundGuard(op.expected)
    && !Unparsed(codec, current) && !Stale(codec, current, op.expected)
  }

  lemma MetWritesAreDue(codec: Codec, files: map<string, string>, op: Op)
    requires op.Write? && Verdict(Sessions(codec, files), op).None?
    requires !Unreadable(codec, Get(files, RecordName(op.skill)))
    requires Meets(codec, DemandOf(op.expected), Get(files, RecordName(op.skill)))
    ensures Due(codec, Sessions(codec, files), Get(files, RecordName(op.skill)), op)
  {
  }

  lemma ReadsAreAnswered(codec: Codec, s: Store, op: Op, r: Reply)
    requires op.Read? && r != Failed && Atomic(codec, s, op, r).Some?
    ensures ReadAnswer(codec, s.registry, Get(s.records, RecordName(op.skill)), op, r)
    ensures Atomic(codec, s, op, r) == Some(s)
  {
  }

  /** And a new session is refused exactly by an unreadable registry. */
  lemma SessionsAreAnswered(codec: Codec, s: Store, r: Reply)
    requires r != Failed && Atomic(codec, s, Create, r).Some?
    ensures r == Corrupt <==> s.registry.None?
    ensures s.registry.Some? ==>
      && r.Issued? && r.id !in s.registry.value
      && Atomic(codec, s, Create, r) == Some(s.(registry := Some(s.registry.value + { r.id })))
  {
  }

  // ---- over whole runs ----

  /** The ids that count when event i of a run's log comes. */
  function RegistryBefore(codec: Codec, files: map<string, string>, log: seq<Event>, i: nat): Option<set<string>>
    requires i <= |log|
  {
    var begun := Sessions(codec, files);
    if begun.None? then None else Some(begun.value + IssuedIds(log[..i]))
  }

  lemma StateBefore(w: World, files: map<string, string>, actions: seq<Action>, i: nat, skill: string)
    requires w.codec.RoundTrips() && i < |Run(w, Start(files), actions).log|
    ensures var log := Run(w, Start(files), actions).log;
            && At(w.codec, Abstract(w.codec, files), log, i).Some?
            && At(w.codec, Abstract(w.codec, files), log, i).value.registry == RegistryBefore(w.codec, files, log, i)
            && (IsSkillId(skill) ==>
                  Get(At(w.codec, Abstract(w.codec, files), log, i).value.records, RecordName(skill))
                  == TextBefore(w.codec, files, log, i, skill))
  {
    var log, s := Run(w, Start(files), actions).log, Abstract(w.codec, files);
    EveryRunIsLinearizable(w, files, actions);
    PrefixIsLegal(w.codec, s, log, i);
    RegistryIsExact(w.codec, s, log[..i]);
    RecordIsLastCommit(w.codec, s, log[..i], skill);
    if IsSkillId(skill) { AbstractLookup(w.codec, files, skill); }
  }

  lemma EffectIsAtomic(w: World, files: map<string, string>, actions: seq<Action>, i: nat)
    requires w.codec.RoundTrips() && i < |Run(w, Start(files), actions).log|
    requires Run(w, Start(files), actions).log[i].Effect?
    ensures var log := Run(w, Start(files), actions).log;
            var before := At(w.codec, Abstract(w.codec, files), log, i);
            before.Some? && Atomic(w.codec, before.value, log[i].op, log[i].reply).Some?
  {
    EveryRunIsLinearizable(w, files, actions);
    PrefixIsLegal(w.codec, Abstract(w.codec, files), Run(w, Start(files), actions).log, i);
  }

  /** Only a sound call looks at the record. */
  lemma OnlySoundWritesLook(codec: Codec, registry: Option<set<string>>, a: Option<string>, b: Option<string>,
                            op: Op, r: Reply)
    requires op.Write? && WriteAnswer(codec, registry, a, op, r) && (IsSkillId(op.skill) ==> a == b)
    ensures WriteAnswer(codec, registry, b, op, r)
  {
  }

  lemma OnlySoundReadsLook(codec: Codec, registry: Option<set<string>>, a: Option<string>, b: Option<string>,
                           op: Op, r: Reply)
    requires op.Read? && ReadAnswer(codec, registry, a, op, r) && (IsSkillId(op.skill) ==> a == b)
    ensures ReadAnswer(codec, registry, b, op, r)
  {
  }

  /**
   In every run a write that does not fail is answered as the sessions issued before it and the text
   its skill's file holds at that moment demand: a stale guard, and nothing else, is a conflict.
   */
  lemma RunsAnswerWrites(w: World, files: map<string, string>, actions: seq<Action>, i: nat)
    requires w.codec.RoundTrips()
    requires var log := Run(w, Start(files), actions).log;
             i < |log| && log[i].Effect? && log[i].op.Write? && log[i].reply != Failed
    ensures var log := Run(w, Start(files), actions).log;
            WriteAnswer(w.codec, RegistryBefore(w.codec, files, log, i),
                        TextBefore(w.codec, files, log, i, log[i].op.skill), log[i].op, log[i].reply)
  {
    var log := Run(w, Start(files), actions).log;
    var before := At(w.codec, Abstract(w.codec, files), log, i);
    var op := log[i].op;
    EffectIsAtomic(w, files, actions, i);
    StateBefore(w, files, actions, i, op.skill);
    WritesAreAnswered(w.codec, before.value, op, log[i].reply);
    OnlySoundWritesLook(w.codec, before.value.registry, Get(before.value.records, RecordName(op.skill)),
                        TextBefore(w.codec, files, log, i, op.skill), op, log[i].reply);
  }

  /** And so is a read. */
  lemma RunsAnswerReads(w: World, files: map<string, string>, actions: seq<Action>, i: nat)
    requires w.codec.RoundTrips()
    requires var log := Run(w, Start(files), actions).log;
             i < |log| && log[i].Effect? && log[i].op.Read? && log[i].reply != Failed
    ensures var log := Run(w, Start(files), actions).log;
            ReadAnswer(w.codec, RegistryBefore(w.codec, files, log, i),
                       TextBefore(w.codec, files, log, i, log[i].op.skill), log[i].op, log[i].reply)
  {
    var log := Run(w, Start(files), actions).log;
    var before := At(w.codec, Abstract(w.codec, files), log, i);
    var op := log[i].op;
    EffectIsAtomic(w, files, actions, i);
    StateBefore(w, files, actions, i, op.skill);
    ReadsAreAnswered(w.codec, before.value, op, log[i].reply);
    OnlySoundReadsLook(w.codec, before.value.registry, Get(before.value.records, RecordName(op.skill)),
                       TextBefore(w.codec, files, log, i, op.skill), op, log[i].reply);
  }

  /** A stale write of a session that counts conflicts, in every run, unless it fails. */
  lemma RunsRefuseStaleWrites(w: World, files: map<string, string>, actions: seq<Action>, i: nat)
    requires w.codec.RoundTrips()
    requires var log := Run(w, Start(files), actions).log;
             && i < |log| && log[i].Effect? && log[i].op.Write? && IsSkillId(log[i].op.skill)
             && Counts(RegistryBefore(w.codec, files, log, i), log[i].op.session)
             && var current := TextBefore(w.codec, files, log, i, log[i].op.skill);
                !Unparsed(w.codec, current) && Stale(w.codec, current, log[i].op.expected)
    ensures Run(w, Start(files), actions).log[i].reply in { Conflict, Failed }
  {
    if Run(w, Start(files), actions).log[i].reply != Failed { RunsAnswerWrites(w, files, actions, i); }
  }

  /** A project that begins without a registry has, at every moment, exactly the sessions issued in it. */
  lemma FreshProjectsRegisterWhatTheyIssue(w: World, files: map<string, string>, actions: seq<Action>)
    requires w.codec.RoundTrips() && REGISTRY !in files
    ensures var st := Run(w, Start(files), actions); Sessions(w.codec, st.files) == Some(IssuedIds(st.log))
    ensures forall e <- Run(w, Start(files), actions).log | e.Effect? && e.op.Create? ::
      e.reply.Issued? || e.reply == Failed
  {
    var st := Run(w, Start(files), actions);
    RegistryIsRead(w.codec, files);
    EveryRunIsLinearizable(w, files, actions);
    RegistryIsExact(w.codec, Abstract(w.codec, files), st.log);
    assert {} + IssuedIds(st.log) == IssuedIds(st.log);
    forall e <- st.log | e.Effect? && e.op.Create? ensures e.reply.Issued? || e.reply == Failed {
      var i :| 0 <= i < |st.log| && st.log[i] == e;
      EffectIsAtomic(w, files, actions, i);
      StateBefore(w, files, actions, i, "");
      if e.reply != Failed {
        SessionsAreAnswered(w.codec, At(w.codec, Abstract(w.codec, files), st.log, i).value, e.reply);
      }
    }
  }

  // ---- on the files, as one process sees them ----

  lemma LocalWriteAnswer(codec: Codec, files: map<string, string>, op: Op, r: Reply)
    requires op.Write? && r != Failed && Atomic(codec, Abstract(codec, files), op, r).Some?
    ensures WriteAnswer(codec, Sessions(codec, files), Get(files, RecordName(op.skill)), op, r)
  {
    var s := Abstract(codec, files);
    WritesAreAnswered(codec, s, op, r);
    if IsSkillId(op.skill) { AbstractLookup(codec, files, op.skill); }
    var name := RecordName(op.skill);
    OnlySoundWritesLook(codec, s.registry, Get(s.records, name), Get(files, name), op, r);
  }

  lemma LocalReadAnswer(codec: Codec, files: map<string, string>, op: Op, r: Reply)
    requires op.Read? && r != Failed && Atomic(codec, Abstract(codec, files), op, r).Some?
    ensures ReadAnswer(codec, Sessions(codec, files), Get(files, RecordName(op.skill)), op, r)
  {
    var s := Abstract(codec, files);
    ReadsAreAnswered(codec, s, op, r);
    if IsSkillId(op.skill) { AbstractLookup(codec, files, op.skill); }
    var name := RecordName(op.skill);
    OnlySoundReadsLook(codec, s.registry, Get(s.records, name), Get(files, name), op, r);
  }

  lemma LocalSessionAnswer(codec: Codec, files: map<string, string>, after: map<string, string>, r: Reply)
    requires r != Failed && Atomic(codec, Abstract(codec, files), Create, r) == Some(Abstract(codec, after))
    ensures r == Corrupt <==> RegistryBroken(codec, files)
    ensures !RegistryBroken(codec, files) ==>
      r.Issued? && Sessions(codec, files).Some?
      && Sessions(codec, after) == Some(Sessions(codec, files).value + { r.id })
    ensures REGISTRY !in files ==> r.Issued? && Sessions(codec, after) == Some({ r.id })
  {
    SessionsAreAnswered(codec, Abstract(codec, files), r);
    RegistryIsRead(codec, files);
    if REGISTRY !in files { assert {} + { r.id } == { r.id }; }
  }
}
