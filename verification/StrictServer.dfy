/**
 The checkpoint tools of the local server: session check, size limit, strict validation and the
 record wrapper, in front of the durable store. A write succeeds exactly when everything asked of it
 holds, and only well-formed checkpoints get in or out.
 */
module StrictServer {
  import opened Text
  import opened JsonValues
  import opened Layout
  import opened Contract
  import opened StoreSpec
  import opened StoreProtocol
  import opened StoreRefinement
  import opened StoreHistory
  import Provider = CheckpointProvider
  import opened SessionToken
  import opened LocalStore
  import opened StoreRuns
  import opened StoreReplies
  import Validator
  import Guards

  const MAX_CHECKPOINT_BYTES := 64 * 1024

  /** The server's catalog, the byte length of a checkpoint's compact JSON, and its dates. */
  datatype Settings = Settings(skills: set<string>, bytes: Json -> nat, date: DateParse)

  datatype ToolReply =
    | UnknownSkill
    | NoCheckpoint
    | NoSession
    | UnknownSession
    | TooLarge
    | Invalid
    | Conflicted
    | Thrown                                    // an internal error to the client
    | NewSession(id: string)
    | Wrote(revision: Json)
    | Served(checkpoint: Json, revision: Json)

  /** A checkpoint this server lets in for a skill. */
  predicate Admissible(settings: Settings, skill: string, checkpoint: Json) {
    && skill in settings.skills
    && settings.bytes(checkpoint) <= MAX_CHECKPOINT_BYTES
    && WellFormed(settings.date, checkpoint, Some(skill))
  }

  /** The guards let in a checkpoint of no version and no skill, for any skill of the catalog. */
  lemma AnonymousIsAdmissible(settings: Settings, skill: string, at: string)
    requires skill in settings.skills && at != "" && settings.date(at).Some?
    requires settings.bytes(Guards.Anonymous(at)) <= MAX_CHECKPOINT_BYTES
    ensures Admissible(settings, skill, Guards.Anonymous(at))
  {
    Guards.AnonymousPasses(settings.date, at, skill);
  }

  function Current(files: map<string, string>, skill: string): Option<string> { Get(files, RecordName(skill)) }

  /** The session is one this project issued, by its registry file. */
  predicate IsSession(codec: Codec, files: map<string, string>, session: string) {
    Counts(Sessions(codec, files), session)
  }

  /** The store carries out this write: the arguments are sound and its guard holds. */
  predicate Takes(codec: Codec, files: map<string, string>, skill: string, session: string, expected: Option<Json>) {
    Due(codec, Sessions(codec, files), Current(files, skill), Write(skill, session, Null, expected))
  }

  /** The store answers this write with a conflict: create-only onto a record, or another revision. */
  predicate Conflicts(codec: Codec, files: map<string, string>, skill: string, session: string,
                      expected: Option<Json>) {
    && IsSession(codec, files, session) && IsSkillId(skill)
    && !Unparsed(codec, Current(files, skill)) && Stale(codec, Current(files, skill), expected)
  }

  /** Everything write_checkpoint asks of its arguments and of the store. */
  predicate Acceptable(settings: Settings, codec: Codec, files: map<string, string>, skill: string,
                       session: Option<Json>, checkpoint: Option<Json>, expected: Option<Json>) {
    && checkpoint.Some? && Admissible(settings, skill, checkpoint.value)
    && SanitizeSession(session).Some? && Takes(codec, files, skill, SanitizeSession(session).value, expected)
  }

  /** The store after this checkpoint is put in, and nothing else. */
  function With(codec: Codec, files: map<string, string>, skill: string, checkpoint: Json): Store {
    var s := Abstract(codec, files);
    s.(records := s.records[RecordName(skill) := codec.Stored(checkpoint)])
  }

  lemma TakenWritesCommit(codec: Codec, files: map<string, string>, skill: string, session: string, checkpoint: Json,
                          expected: Option<Json>, r: Reply)
    requires r != Failed
    requires Atomic(codec, Abstract(codec, files), Write(skill, session, checkpoint, expected), r).Some?
    ensures r.Stored? <==> Takes(codec, files, skill, session, expected)
    ensures r == Conflict <==> Conflicts(codec, files, skill, session, expected)
    ensures r.Stored? ==>
      Atomic(codec, Abstract(codec, files), Write(skill, session, checkpoint, expected), r)
      == Some(With(codec, files, skill, checkpoint))
  {
    LocalWriteAnswer(codec, files, Write(skill, session, checkpoint, expected), r);
    WritesAreAnswered(codec, Abstract(codec, files), Write(skill, session, checkpoint, expected), r);
  }

  /** A guard the wrapper lets through is one the store may meet; others it refuses itself. */
  lemma OnlySoundGuardsAreAdmitted(expected: Option<Json>)
    ensures var guard := if expected.None? then Provider.Omitted else Provider.Given(expected.value);
            Provider.Admitted(Some(Provider.LocalProvider()), guard) <==> SoundGuard(expected)
  {
    Provider.LocalProviderConforms();
  }

  /** A uuid passes the server's sanitizer as it stands. */
  lemma UuidsAreSane(id: string)
    requires IsUuidV4(id)
    ensures SanitizeSession(Some(Str(id))) == Some(id)
  {
    UuidChars(id);
    TrimsNothing(id);
  }

  /**
   The create_checkpoint_session tool: the id it returns is at once a session that the other two
   tools accept, next to every earlier one; it fails only on an unreadable registry or a taken name.
   */
  method CreateSession(dir: CheckpointDir, session: string, temp1: Temp, temp2: Temp) returns (r: ToolReply)
    requires dir.w.codec.RoundTrips() && PlainPatterns(dir.w) && IsUuidV4(session)
    requires Sessions(dir.w.codec, dir.files).Some? ==> session !in Sessions(dir.w.codec, dir.files).value
    requires temp1.Name() != temp2.Name()
    modifies dir
    ensures r == NewSession(session) || r == Thrown
    ensures r.NewSession? ==>
      && Sessions(dir.w.codec, old(dir.files)).Some?
      && Sessions(dir.w.codec, dir.files) == Some(Sessions(dir.w.codec, old(dir.files)).value + { session })
      && IsSession(dir.w.codec, dir.files, session) && SanitizeSession(Some(Str(session))) == Some(session)
    ensures r == Thrown ==> Abstract(dir.w.codec, dir.files) == Abstract(dir.w.codec, old(dir.files))
    ensures temp1.Name() !in old(dir.files) && temp2.Name() !in old(dir.files) ==>
      (r == Thrown <==> RegistryBroken(dir.w.codec, old(dir.files)))
    ensures r.NewSession? && REGISTRY !in old(dir.files) ==> Sessions(dir.w.codec, dir.files) == Some({ session })
  {
    var reply := dir.CreateSession(session, temp1, temp2);
    UuidsAreSane(session);
    if !reply.Issued? { return Thrown; }
    var id := SanitizeSession(Some(Str(reply.id)));
    r := if id.None? then Thrown else NewSession(id.value);
  }

  /** hasSession: None where the registry cannot be read. */
  method HasSession(dir: CheckpointDir, session: string) returns (r: Option<bool>)
    ensures r == Some(true) <==> IsSession(dir.w.codec, dir.files, session)
    ensures r == None <==> IsUuidV4(session) && RegistryBroken(dir.w.codec, dir.files)
  {
    RegistryIsRead(dir.w.codec, dir.files);
    if !IsUuidV4(session) { return Some(false); }
    var sessions := Sessions(dir.w.codec, dir.files);
    if sessions.None? { return None; }
    r := Some(session in sessions.value);
  }

  /** The wrapper's admission check, then the store's write, then the wrapper's reading of its answer. */
  method WriteThrough(dir: CheckpointDir, skill: string, session: string, checkpoint: Json, expected: Option<Json>,
                      pid: string, uuid: string)
    returns (out: Provider.Outcome)
    requires dir.w.codec.RoundTrips() && dir.w.codec.hash(dir.w.codec.Stored(checkpoint)) != ""
    modifies dir
    ensures out.Recorded? ==>
      && Takes(dir.w.codec, old(dir.files), skill, session, expected)
      && out.revision == Str(dir.w.codec.hash(dir.w.codec.Stored(checkpoint)))
    ensures Abstract(dir.w.codec, dir.files)
            == if out.Recorded? then With(dir.w.codec, old(dir.files), skill, checkpoint)
               else Abstract(dir.w.codec, old(dir.files))
    ensures Takes(dir.w.codec, old(dir.files), skill, session, expected) ==>
      TempName(skill, pid, uuid) !in old(dir.files) ==> out.Recorded?
    ensures out == Provider.ProviderError(true) <==> Conflicts(dir.w.codec, old(dir.files), skill, session, expected)
    ensures !out.Record?
  {
    OnlySoundGuardsAreAdmitted(expected);
    var guard := if expected.None? then Provider.Omitted else Provider.Given(expected.value);
    if !Provider.Admitted(Some(Provider.LocalProvider()), guard) { return Provider.ContractError; }
    var reply := dir.Write(skill, session, checkpoint, expected, pid, uuid);
    var op := Write(skill, session, checkpoint, expected);
    Provider.LocalWritesAreReportedExactly(dir.w.codec, Abstract(dir.w.codec, old(dir.files)), op, reply);
    if reply != Failed {
      TakenWritesCommit(dir.w.codec, old(dir.files), skill, session, checkpoint, expected, reply);
    }
    out := Provider.WriteOutcome(Provider.LocalProvider(), Provider.AnswerOf(reply));
  }

  /** The checks before the store: catalog, argument, session, size and contract. */
  predicate Passes(settings: Settings, codec: Codec, files: map<string, string>, skill: string,
                   session: Option<Json>, checkpoint: Option<Json>) {
    && checkpoint.Some? && Admissible(settings, skill, checkpoint.value)
    && SanitizeSession(session).Some? && IsSession(codec, files, SanitizeSession(session).value)
  }

  /** The session text is not one the project issued, or cannot be told to be. */
  predicate SessionRefused(codec: Codec, files: map<string, string>, session: Option<Json>, r: ToolReply) {
    var s := SanitizeSession(session);
    && (s.None? ==> r == NoSession)
    && (s.Some? && IsUuidV4(s.value) && RegistryBroken(codec, files) ==> r == Thrown)
    && (s.Some? && !(IsUuidV4(s.value) && RegistryBroken(codec, files)) && !IsSession(codec, files, s.value) ==>
          r == UnknownSession)
  }

  /** Which check turns a call away: the first that fails. */
  predicate Refuses(settings: Settings, codec: Codec, files: map<string, string>, skill: string,
                    session: Option<Json>, checkpoint: Option<Json>, r: ToolReply) {
    var known := SanitizeSession(session).Some? && IsSession(codec, files, SanitizeSession(session).value);
    var given := checkpoint.Some? && checkpoint.value.Obj?;
    && (skill !in settings.skills ==> r == UnknownSkill)
    && (skill in settings.skills && !given ==> r == NoCheckpoint)
    && (skill in settings.skills && given && !known ==> SessionRefused(codec, files, session, r))
    && (skill in settings.skills && given && known ==>
          r == if settings.bytes(checkpoint.value) > 64 * 1024 then TooLarge else Invalid)
  }

  method Screen(settings: Settings, dir: CheckpointDir, skill: string, session: Option<Json>, checkpoint: Option<Json>)
    returns (refusal: Option<ToolReply>)
    ensures refusal.None? <==> Passes(settings, dir.w.codec, dir.files, skill, session, checkpoint)
    ensures refusal.Some? ==> Refuses(settings, dir.w.codec, dir.files, skill, session, checkpoint, refusal.value)
  {
    if skill !in settings.skills { return Some(UnknownSkill); }
    if checkpoint.None? || !checkpoint.value.Obj? { return Some(NoCheckpoint); }
    var s := SanitizeSession(session);
    if s.None? { return Some(NoSession); }
    var known := HasSession(dir, s.value);
    RegistryIsRead(dir.w.codec, dir.files);
    if known.None? { return Some(Thrown); }
    if !known.value { return Some(UnknownSession); }
    if settings.bytes(checkpoint.value) > MAX_CHECKPOINT_BYTES { return Some(TooLarge); }
    var errors := Validator.ValidateEnvelope(settings.date, checkpoint.value, Some(skill));
    refusal := if errors != [] then Some(Invalid) else None;
  }

  /** The write_checkpoint tool under strict validation. */
  method WriteCheckpoint(settings: Settings, dir: CheckpointDir, skill: string, session: Option<Json>,
                         checkpoint: Option<Json>, expected: Option<Json>, pid: string, uuid: string)
    returns (r: ToolReply)
    requires dir.w.codec.RoundTrips() && forall v :: dir.w.codec.hash(dir.w.codec.Stored(v)) != ""
    modifies dir
    ensures r.Wrote? ==> Acceptable(settings, dir.w.codec, old(dir.files), skill, session, checkpoint, expected)
    ensures r.Wrote? ==> r.revision == Str(dir.w.codec.hash(dir.w.codec.Stored(checkpoint.value)))
    ensures Abstract(dir.w.codec, dir.files)
            == if r.Wrote? then With(dir.w.codec, old(dir.files), skill, checkpoint.value)
               else Abstract(dir.w.codec, old(dir.files))
    ensures Acceptable(settings, dir.w.codec, old(dir.files), skill, session, checkpoint, expected) ==>
      TempName(skill, pid, uuid) !in old(dir.files) ==> r.Wrote?
    ensures !Passes(settings, dir.w.codec, old(dir.files), skill, session, checkpoint) ==>
      Refuses(settings, dir.w.codec, old(dir.files), skill, session, checkpoint, r)
    ensures Passes(settings, dir.w.codec, old(dir.files), skill, session, checkpoint) ==>
      && (r.Wrote? || r == Conflicted || r == Thrown)
      && (r == Conflicted <==>
            Conflicts(dir.w.codec, old(dir.files), skill, SanitizeSession(session).value, expected))
  {
    var refusal := Screen(settings, dir, skill, session, checkpoint);
    if refusal.Some? { return refusal.value; }
    var s := SanitizeSession(session).value;
    var out := WriteThrough(dir, skill, s, checkpoint.value, expected, pid, uuid);
    r := match out
      case Recorded(revision) => Wrote(revision)
      case ProviderError(conflict) => if conflict then Conflicted else Thrown
      case _ => Thrown;
  }

  /** The store's read through the record wrapper. */
  method ReadThrough(dir: CheckpointDir, skill: string, session: string) returns (out: Provider.Outcome)
    ensures out.Record? <==>
      && IsSession(dir.w.codec, dir.files, session) && IsSkillId(skill)
      && !Unparsed(dir.w.codec, Current(dir.files, skill))
    ensures out.Record? ==> Shows(dir.w.codec, Current(dir.files, skill), out.checkpoint, out.revision)
  {
    if IsSkillId(skill) { AbstractLookup(dir.w.codec, dir.files, skill); }
    var reply := dir.Read(skill, session);
    Provider.LocalReadsAreReportedExactly(dir.w.codec, Abstract(dir.w.codec, dir.files), Read(skill, session), reply);
    out := Provider.ReadOutcome(Provider.AnswerOf(reply));
  }

  /** The value and revision a read shows of a record: nulls where there is none. */
  predicate Shows(codec: Codec, current: Option<string>, checkpoint: Json, revision: Json) {
    match current
    case None => checkpoint == revision == Null
    case Some(text) => codec.parse(text) == Some(checkpoint) && revision == Str(codec.hash(text))
  }

  /** Absent, null, or a well-formed checkpoint of the skill. */
  predicate Servable(settings: Settings, codec: Codec, current: Option<string>, skill: string) {
    current.Some? ==>
      && codec.parse(current.value).Some?
      && var v := codec.parse(current.value).value; v.Null? || WellFormed(settings.date, v, Some(skill))
  }

  /** The read_checkpoint tool under strict validation. */
  method ReadCheckpoint(settings: Settings, dir: CheckpointDir, skill: string, session: Option<Json>)
    returns (r: ToolReply)
    ensures r.Served? <==>
      && skill in settings.skills && IsSkillId(skill)
      && SanitizeSession(session).Some? && IsSession(dir.w.codec, dir.files, SanitizeSession(session).value)
      && Servable(settings, dir.w.codec, Current(dir.files, skill), skill)
    ensures r.Served? ==> Shows(dir.w.codec, Current(dir.files, skill), r.checkpoint, r.revision)
    ensures skill !in settings.skills ==> r == UnknownSkill
    ensures skill in settings.skills ==>
      var s := SanitizeSession(session);
      && (!(s.Some? && IsSession(dir.w.codec, dir.files, s.value)) ==>
            SessionRefused(dir.w.codec, dir.files, session, r))
      && (s.Some? && IsSession(dir.w.codec, dir.files, s.value) ==>
            && (!IsSkillId(skill) || Unparsed(dir.w.codec, Current(dir.files, skill)) ==> r == Thrown)
            && (IsSkillId(skill) && !Unparsed(dir.w.codec, Current(dir.files, skill)) ==>
                  r.Served? || r == Invalid))
  {
    RegistryIsRead(dir.w.codec, dir.files);
    if skill !in settings.skills { return UnknownSkill; }
    var s := SanitizeSession(session);
    if s.None? { return NoSession; }
    var known := HasSession(dir, s.value);
    if known.None? { return Thrown; }
    if !known.value { return UnknownSession; }
    var out := ReadThrough(dir, skill, s.value);
    if !out.Record? { return Thrown; }
    if !out.checkpoint.Null? {
      var errors := Validator.ValidateEnvelope(settings.date, out.checkpoint, Some(skill));
      if errors != [] { return Invalid; }
    }
    r := Served(out.checkpoint, out.revision);
  }

  // ---- whole runs ----

  predicate Holds(settings: Settings, codec: Codec, text: string, skill: string) {
    codec.parse(text).Some? && Admissible(settings, skill, codec.parse(text).value)
  }

  /** Every record holds a checkpoint the server would let in for its skill. */
  ghost predicate AllAdmissible(settings: Settings, codec: Codec, files: map<string, string>) {
    forall skill | IsSkillId(skill) && Current(files, skill).Some? ::
      Holds(settings, codec, Current(files, skill).value, skill)
  }

  /** The calls strict servers make: WriteCheckpoint passes a checkpoint on only if it is admissible. */
  ghost predicate StrictCalls(settings: Settings, actions: seq<Action>) {
    forall a <- actions :: a.Invoke? && a.op.Write? ==> Admissible(settings, a.op.skill, a.op.value)
  }

  lemma CommitsAreAdmissible(settings: Settings, w: World, files: map<string, string>, actions: seq<Action>,
                             e: Event, skill: string)
    requires w.codec.RoundTrips() && StrictCalls(settings, actions)
    requires e in Run(w, Start(files), actions).log && Commits(e, skill)
    ensures Admissible(settings, skill, e.op.value)
  {
    EffectsWereScheduled(w, files, actions, e);
  }

  /** However strict servers interleave and crash, the records they leave are all admissible. */
  lemma RunsKeepRecordsAdmissible(settings: Settings, w: World, files: map<string, string>, actions: seq<Action>)
    requires w.codec.RoundTrips() && AllAdmissible(settings, w.codec, files) && StrictCalls(settings, actions)
    ensures AllAdmissible(settings, w.codec, Run(w, Start(files), actions).files)
  {
    var st := Run(w, Start(files), actions);
    forall skill | IsSkillId(skill) && Current(st.files, skill).Some?
      ensures Holds(settings, w.codec, Current(st.files, skill).value, skill)
    {
      RunsStoreTheLastCommit(w, files, actions, skill);
      LastCommitIsInLog(st.log, skill);
      if LastCommit(st.log, skill).Some? {
        var i :| 0 <= i < |st.log| && Commits(st.log[i], skill)
                 && st.log[i].op.value == LastCommit(st.log, skill).value;
        CommitsAreAdmissible(settings, w, files, actions, st.log[i], skill);
        assert w.codec.parse(w.codec.Stored(st.log[i].op.value)) == Some(st.log[i].op.value);
      }
    }
  }

  /** And every checkpoint read in such a run is admissible, so no strict server refuses to serve it. */
  lemma RunsReadAdmissible(settings: Settings, w: World, files: map<string, string>, actions: seq<Action>, j: nat)
    requires w.codec.RoundTrips() && AllAdmissible(settings, w.codec, files) && StrictCalls(settings, actions)
    requires var log := Run(w, Start(files), actions).log;
             j < |log| && log[j].Effect? && log[j].op.Read? && log[j].reply.Found?
    ensures var e := Run(w, Start(files), actions).log[j]; Admissible(settings, e.op.skill, e.reply.value)
  {
    var log := Run(w, Start(files), actions).log;
    var skill, v, revision := log[j].op.skill, log[j].reply.value, log[j].reply.revision;
    EveryRunIsLinearizable(w, files, actions);
    ReadsReturnCommits(w.codec, Abstract(w.codec, files), log, j);
    PrefixIsLegal(w.codec, Abstract(w.codec, files), log, j);
    AbstractLookup(w.codec, files, skill);
    if i :| 0 <= i < j && Commits(log[i], skill) && log[i].op.value == v && log[i].reply.revision == revision {
      CommitsAreAdmissible(settings, w, files, actions, log[i], skill);
    } else {
      assert Holds(settings, w.codec, Current(files, skill).value, skill);
    }
  }
}
