/**
 What clients of the local store may rely on over whole runs, derived from linearizability: a
 legal history of the atomic object is all that is used below, until the last section.
 */
module StoreHistory {
  import opened Text
  import opened JsonValues
  import opened Layout
  import opened StoreSpec

  /** A committed write of `skill`. */
  predicate Commits(e: Event, skill: string) {
    e.Effect? && e.op.Write? && e.op.skill == skill && e.reply.Stored?
  }

  predicate Issues(e: Event) { e.Effect? && e.op.Create? && e.reply.Issued? }

  function LastCommit(log: seq<Event>, skill: string): Option<Json> {
    if log == [] then None
    else if Commits(log[|log| - 1], skill) then Some(log[|log| - 1].op.value)
    else LastCommit(log[..|log| - 1], skill)
  }

  function IssuedIds(log: seq<Event>): set<string> {
    set e | e in log && Issues(e) :: e.reply.id
  }

  /** The atomic object's state before position i. */
  function At(codec: Codec, s: Store, log: seq<Event>, i: nat): Option<Store>
    requires i <= |log|
  {
    Replay(codec, s, log[..i])
  }

  function Stepped(codec: Codec, s: Store, e: Event): Option<Store> {
    if e.Effect? then Atomic(codec, s, e.op, e.reply) else Some(s)
  }

  lemma {:induction false} PrefixIsLegal(codec: Codec, s: Store, log: seq<Event>, i: nat)
    requires Replay(codec, s, log).Some? && i <= |log|
    ensures At(codec, s, log, i).Some?
    ensures i < |log| ==>
      && At(codec, s, log, i + 1).Some?
      && At(codec, s, log, i + 1) == Stepped(codec, At(codec, s, log, i).value, log[i])
  {
    if i == |log| {
      assert log[..i] == log;
    } else {
      var shorter := log[..|log| - 1];
      if i + 1 == |log| {
        assert log[..i + 1] == log;
      } else {
        PrefixIsLegal(codec, s, shorter, i);
        assert shorter[..i] == log[..i] && shorter[..i + 1] == log[..i + 1];
      }
    }
  }

  /** One legal effect, seen from one skill's record. */
  lemma EffectOnRecord(codec: Codec, s: Store, e: Event, skill: string)
    requires e.Effect? && Atomic(codec, s, e.op, e.reply).Some?
    ensures var s' := Atomic(codec, s, e.op, e.reply).value;
            Get(s'.records, RecordName(skill)) ==
            if Commits(e, skill) then Some(codec.Stored(e.op.value)) else Get(s.records, RecordName(skill))
  {
    if e.op.Write? && e.op.skill != skill && RecordName(e.op.skill) == RecordName(skill) {
      RecordNamesAreInjective(e.op.skill, skill);
    }
  }

  /** The record of a skill is its last committed value, or what the folder began with. */
  lemma {:induction false} RecordIsLastCommit(codec: Codec, s: Store, log: seq<Event>, skill: string)
    requires Replay(codec, s, log).Some?
    ensures Get(Replay(codec, s, log).value.records, RecordName(skill)) ==
      if LastCommit(log, skill).Some? then Some(codec.Stored(LastCommit(log, skill).value))
      else Get(s.records, RecordName(skill))
  {
    if log != [] {
      var shorter, e := log[..|log| - 1], log[|log| - 1];
      RecordIsLastCommit(codec, s, shorter, skill);
      if e.Effect? { EffectOnRecord(codec, Replay(codec, s, shorter).value, e, skill); }
    }
  }

  lemma {:induction false} LastCommitIsInLog(log: seq<Event>, skill: string)
    ensures LastCommit(log, skill).Some? <==> exists i :: 0 <= i < |log| && Commits(log[i], skill)
    ensures LastCommit(log, skill).Some? ==>
      exists i :: 0 <= i < |log| && Commits(log[i], skill) && log[i].op.value == LastCommit(log, skill).value
  {
    if log != [] && !Commits(log[|log| - 1], skill) {
      var shorter := log[..|log| - 1];
      LastCommitIsInLog(shorter, skill);
      if i :| 0 <= i < |shorter| && Commits(shorter[i], skill)
              && shorter[i].op.value == LastCommit(shorter, skill).value {
        assert Commits(log[i], skill);
      }
      if i :| 0 <= i < |log| && Commits(log[i], skill) {
        assert Commits(shorter[i], skill);
      }
    }
  }

  /** A create-only write that commits is the first commit of its skill, onto an absent record. */
  lemma CreateOnlyCommitsFirst(codec: Codec, s: Store, log: seq<Event>, skill: string, i: nat)
    requires Replay(codec, s, log).Some? && i < |log|
    requires Commits(log[i], skill) && DemandOf(log[i].op.expected) == Nothing
    ensures Get(s.records, RecordName(skill)).None?
    ensures forall k | 0 <= k < i :: !Commits(log[k], skill)
  {
    PrefixIsLegal(codec, s, log, i);
    RecordIsLastCommit(codec, s, log[..i], skill);
    LastCommitIsInLog(log[..i], skill);
    forall k | 0 <= k < i ensures !Commits(log[k], skill) {
      assert log[k] == log[..i][k];
    }
  }

  /** Hence at most one create-only write of a skill ever commits. */
  lemma CreateOnlyCommitsOnce(codec: Codec, s: Store, log: seq<Event>, skill: string, i: nat, j: nat)
    requires Replay(codec, s, log).Some? && i < |log| && j < |log|
    requires Commits(log[i], skill) && DemandOf(log[i].op.expected) == Nothing
    requires Commits(log[j], skill) && DemandOf(log[j].op.expected) == Nothing
    ensures i == j
  {
    CreateOnlyCommitsFirst(codec, s, log, skill, i);
    CreateOnlyCommitsFirst(codec, s, log, skill, j);
  }

  /** A revision-guarded commit replaces exactly a text with that revision. */
  lemma GuardedCommitReplacesItsRevision(codec: Codec, s: Store, log: seq<Event>, skill: string, i: nat)
    requires Replay(codec, s, log).Some? && i < |log|
    requires Commits(log[i], skill) && DemandOf(log[i].op.expected).Exactly?
    ensures At(codec, s, log, i).Some?
    ensures var current := Get(At(codec, s, log, i).value.records, RecordName(skill));
            current.Some? && codec.hash(current.value) == DemandOf(log[i].op.expected).revision
  {
    PrefixIsLegal(codec, s, log, i);
  }

  lemma {:induction false} LastCommitAcross(log: seq<Event>, skill: string, i: nat, j: nat)
    requires i < j <= |log| && Commits(log[i], skill)
    requires forall k | i < k < j :: !Commits(log[k], skill)
    ensures LastCommit(log[..j], skill) == Some(log[i].op.value)
  {
    assert log[..j][j - 1] == log[j - 1] && log[..j][..j - 1] == log[..j - 1];
    if j > i + 1 { LastCommitAcross(log, skill, i, j - 1); }
  }

  /** Issued sessions stay issued. */
  lemma RegistryGrows(codec: Codec, s: Store, log: seq<Event>, i: nat, j: nat)
    requires Replay(codec, s, log).Some? && i <= j <= |log|
    ensures At(codec, s, log, i).Some? && At(codec, s, log, j).Some?
    ensures var r, r' := At(codec, s, log, i).value.registry, At(codec, s, log, j).value.registry;
            (r.Some? <==> r'.Some?) && (r.Some? ==> r.value <= r'.value)
    decreases j
  {
    PrefixIsLegal(codec, s, log, i);
    PrefixIsLegal(codec, s, log, j);
    if i < j {
      RegistryGrows(codec, s, log, i, j - 1);
      PrefixIsLegal(codec, s, log, j - 1);
    }
  }

  /**
   After a write answers with a revision, a read by any issued session sees that very value and
   revision until the next commit; the only other answer is a failure without effect.
   */
  lemma WrittenRevisionIsRead(codec: Codec, s: Store, log: seq<Event>, skill: string, i: nat, j: nat)
    requires codec.RoundTrips() && Replay(codec, s, log).Some? && i < j < |log|
    requires Commits(log[i], skill) && forall k | i < k < j :: !Commits(log[k], skill)
    requires log[j].Effect? && log[j].op.Read? && log[j].op.skill == skill
    ensures log[i].reply == Stored(codec.hash(codec.Stored(log[i].op.value)))
    ensures log[j].reply in { Found(log[i].op.value, log[i].reply.revision), Denied, Failed }
    ensures log[j].reply == Denied ==>
      !IsUuidV4(log[j].op.session)
      || (At(codec, s, log, j).Some? && At(codec, s, log, j).value.registry.Some?
          && log[j].op.session !in At(codec, s, log, j).value.registry.value)
  {
    PrefixIsLegal(codec, s, log, i);
    PrefixIsLegal(codec, s, log, j);
    RegistryGrows(codec, s, log, i, j);
    LastCommitAcross(log, skill, i, j);
    RecordIsLastCommit(codec, s, log[..j], skill);
  }

  /** A read returns a committed value of its own skill, or the record the folder began with. */
  lemma ReadsReturnCommits(codec: Codec, s: Store, log: seq<Event>, j: nat)
    requires codec.RoundTrips() && Replay(codec, s, log).Some? && j < |log|
    requires log[j].Effect? && log[j].op.Read? && log[j].reply.Found?
    ensures var skill, v, rev := log[j].op.skill, log[j].reply.value, log[j].reply.revision;
            || (exists i :: 0 <= i < j && Commits(log[i], skill)
                            && log[i].op.value == v && log[i].reply.revision == rev)
            || var begun := Get(s.records, RecordName(skill));
               begun.Some? && codec.parse(begun.value) == Some(v) && codec.hash(begun.value) == rev
  {
    var skill := log[j].op.skill;
    PrefixIsLegal(codec, s, log, j);
    RecordIsLastCommit(codec, s, log[..j], skill);
    LastCommitIsInLog(log[..j], skill);
    if LastCommit(log[..j], skill).Some? {
      var i :| 0 <= i < j && Commits(log[..j][i], skill) && log[..j][i].op.value == LastCommit(log[..j], skill).value;
      PrefixIsLegal(codec, s, log, i);
      assert Commits(log[i], skill) && log[i].op.value == log[j].reply.value;
    }
  }

  // ---- every effect was asked for ----

  lemma {:induction false} PendingWasInvoked(log: seq<Event>, c: nat)
    requires PhaseOf(log, c).Pending?
    ensures exists j :: 0 <= j < |log| && log[j] == Invoked(c, PhaseOf(log, c).op)
  {
    var n := |log| - 1;
    if log[n] != Invoked(c, PhaseOf(log, c).op) {
      PendingWasInvoked(log[..n], c);
      var j :| 0 <= j < n && log[..n][j] == Invoked(c, PhaseOf(log[..n], c).op);
      assert log[j] == Invoked(c, PhaseOf(log, c).op);
    }
  }

  /** A history that never breaks a client's order has each effect after the call it answers. */
  lemma {:induction false} EffectsWereInvoked(log: seq<Event>, i: nat)
    requires i < |log| && log[i].Effect? && PhaseOf(log, log[i].client) != Broken
    ensures exists j :: 0 <= j < i && log[j] == Invoked(log[i].client, log[i].op)
  {
    var n, c := |log| - 1, log[i].client;
    if i < n {
      EffectsWereInvoked(log[..n], i);
      var j :| 0 <= j < i && log[..n][j] == Invoked(c, log[i].op);
      assert log[j] == Invoked(c, log[i].op);
    } else {
      PendingWasInvoked(log[..n], c);
      var j :| 0 <= j < n && log[..n][j] == Invoked(c, PhaseOf(log[..n], c).op);
      assert log[j] == Invoked(c, log[i].op);
    }
  }

  // ---- no lost update ----

  /** A client's update of what it read; None stands for no checkpoint. */
  type Update = Option<Json> -> Json

  /** Every commit of the skill writes upd(i)(what its client knew), guarded by the revision known with it. */
  ghost predicate ReadModifyWrites(log: seq<Event>, skill: string, upd: nat -> Update) {
    forall i | 0 <= i < |log| && Commits(log[i], skill) ::
      exists k :: 0 <= k < i && Follows(log[k], log[i], skill, upd(i))
  }

  /**
   The write is guarded by the revision its client learned, from a read or from its own last write:
   null where it read that there is no checkpoint.
   */
  predicate Follows(known: Event, write: Event, skill: string, f: Update)
    requires Commits(write, skill)
  {
    && known.Effect? && !known.op.Create? && known.op.skill == skill
    && match known.reply
       case Found(v, revision) =>
         known.op.Read? && write.op.expected == Some(Str(revision)) && write.op.value == f(Some(v))
       case Stored(revision) =>
         known.op.Write? && write.op.expected == Some(Str(revision)) && write.op.value == f(Some(known.op.value))
       case Absent => known.op.Read? && write.op.expected == Some(Null) && write.op.value == f(None)
       case _ => false
  }

  /** The committed updates, applied in commit order. */
  function Composed(log: seq<Event>, skill: string, upd: nat -> Update, v: Option<Json>): Option<Json> {
    if log == [] then v
    else
      var before := Composed(log[..|log| - 1], skill, upd, v);
      if Commits(log[|log| - 1], skill) then Some(upd(|log| - 1)(before)) else before
  }

  /** The checkpoint a record holds; None where there is no record, or none that parses. */
  function Value(codec: Codec, record: Option<string>): Option<Json> {
    if record.None? then None else codec.parse(record.value)
  }

  function RecordOf(s: Store, skill: string): Option<string> { Get(s.records, RecordName(skill)) }

  /** A value some effect showed, with the revision it was shown under. */
  predicate Shows(e: Event, skill: string, v: Json, revision: string) {
    && e.Effect? && !e.op.Create? && e.op.skill == skill
    && if e.op.Read? then e.reply == Found(v, revision) else e.op.value == v && e.reply == Stored(revision)
  }

  /** Whatever text has a revision that was shown holds the value shown with it. */
  lemma RevisionNamesOneValue(codec: Codec, s: Store, log: seq<Event>, k: nat, skill: string, v: Json, revision: string,
                              text: string)
    requires codec.RoundTrips() && codec.CollisionFree() && Replay(codec, s, log).Some? && k < |log|
    requires Shows(log[k], skill, v, revision) && codec.hash(text) == revision
    ensures codec.parse(text) == Some(v)
  {
    PrefixIsLegal(codec, s, log, k);
    if log[k].op.Write? {
      assert codec.hash(codec.Stored(v)) == revision;
    } else {
      assert codec.hash(RecordOf(At(codec, s, log, k).value, skill).value) == revision;
    }
  }

  lemma EarlierReadModifyWrites(log: seq<Event>, skill: string, upd: nat -> Update)
    requires log != [] && ReadModifyWrites(log, skill, upd)
    ensures ReadModifyWrites(log[..|log| - 1], skill, upd)
  {
    var shorter := log[..|log| - 1];
    forall i | 0 <= i < |shorter| && Commits(shorter[i], skill)
      ensures exists k :: 0 <= k < i && Follows(shorter[k], shorter[i], skill, upd(i))
    {
      var k :| 0 <= k < i && Follows(log[k], log[i], skill, upd(i));
      assert Follows(shorter[k], shorter[i], skill, upd(i));
    }
  }

  /** What a commit needed of the record it replaced. */
  lemma CommitMeetsItsDemand(codec: Codec, s: Store, log: seq<Event>, n: nat, skill: string)
    requires Replay(codec, s, log).Some? && n < |log| && Commits(log[n], skill)
    ensures At(codec, s, log, n).Some?
    ensures Meets(codec, DemandOf(log[n].op.expected), RecordOf(At(codec, s, log, n).value, skill))
  {
    PrefixIsLegal(codec, s, log, n);
  }

  /** A commit of such a client puts the update of the very value it replaces, or of none. */
  lemma CommitUpdatesTheRecord(codec: Codec, s: Store, log: seq<Event>, skill: string, upd: nat -> Update)
    requires codec.RoundTrips() && codec.CollisionFree()
    requires Replay(codec, s, log).Some? && ReadModifyWrites(log, skill, upd)
    requires log != [] && Commits(log[|log| - 1], skill)
    ensures var n := |log| - 1;
            && At(codec, s, log, n).Some?
            && log[n].op.value == upd(n)(Value(codec, RecordOf(At(codec, s, log, n).value, skill)))
  {
    var n := |log| - 1;
    var k :| 0 <= k < n && Follows(log[k], log[n], skill, upd(n));
    CommitMeetsItsDemand(codec, s, log, n, skill);
    if log[k].reply != Absent {
      var v := if log[k].op.Read? then log[k].reply.value else log[k].op.value;
      assert Shows(log[k], skill, v, log[k].reply.revision);
      var text := RecordOf(At(codec, s, log, n).value, skill).value;
      RevisionNamesOneValue(codec, s, log, k, skill, v, log[k].reply.revision, text);
    }
  }

  /**
   If every committed write is a read-modify-write, the stored value is the composition, in commit
   order, of exactly the committed updates, from the first checkpoint on - also when contents repeat
   along the way.
   */
  lemma {:induction false} NoLostUpdate(codec: Codec, s: Store, log: seq<Event>, skill: string, upd: nat -> Update)
    requires codec.RoundTrips() && codec.CollisionFree()
    requires Replay(codec, s, log).Some? && ReadModifyWrites(log, skill, upd)
    ensures Value(codec, RecordOf(Replay(codec, s, log).value, skill))
            == Composed(log, skill, upd, Value(codec, RecordOf(s, skill)))
  {
    if log != [] {
      var n := |log| - 1;
      var shorter, e := log[..n], log[n];
      EarlierReadModifyWrites(log, skill, upd);
      NoLostUpdate(codec, s, shorter, skill, upd);
      if e.Effect? { EffectOnRecord(codec, Replay(codec, s, shorter).value, e, skill); }
      if Commits(e, skill) { CommitUpdatesTheRecord(codec, s, log, skill, upd); }
    }
  }

  // ---- sessions ----

  /** The registry is what it began as plus exactly the ids issued, each new when issued. */
  lemma {:induction false} RegistryIsExact(codec: Codec, s: Store, log: seq<Event>)
    requires Replay(codec, s, log).Some?
    ensures var r := Replay(codec, s, log).value.registry;
            if s.registry.Some? then r == Some(s.registry.value + IssuedIds(log))
            else r.None? && IssuedIds(log) == {}
    ensures s.registry.Some? ==> s.registry.value !! IssuedIds(log)
    ensures forall i, j | 0 <= i < j < |log| && Issues(log[i]) && Issues(log[j]) :: log[i].reply.id != log[j].reply.id
  {
    if log != [] {
      var shorter, e := log[..|log| - 1], log[|log| - 1];
      assert log == shorter + [e];
      RegistryIsExact(codec, s, shorter);
      assert Stepped(codec, Replay(codec, s, shorter).value, e) == Replay(codec, s, log);
      assert IssuedIds(log) == IssuedIds(shorter) + if Issues(e) then { e.reply.id } else {};
      assert s.registry.Some? ==> Replay(codec, s, log).value.registry.value == s.registry.value + IssuedIds(log);
      forall i, j | 0 <= i < j < |log| && Issues(log[i]) && Issues(log[j]) ensures log[i].reply.id != log[j].reply.id {
        assert log[i] == shorter[i] && shorter[i] in shorter;
        if j == |log| - 1 { assert shorter[i].reply.id in IssuedIds(shorter); }
      }
    } else {
      assert s.registry.Some? ==> s.registry.value + IssuedIds(log) == s.registry.value;
    }
  }
}
