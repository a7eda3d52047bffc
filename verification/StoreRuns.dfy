/** Guarantees of whole runs of the local store: its files, its registry and its ignore file. */
module StoreRuns {
  import opened Text
  import opened JsonValues
  import opened Layout
  import opened StoreSpec
  import opened StoreProtocol
  import opened StoreRefinement
  import opened StoreHistory
  import PrivateIgnore

  // ---- which steps change a file that is read ----

  /** The commit of c's replacement. */
  predicate IsCommit(st: State, a: Action) {
    a.Rename? && PcOf(st, a.c).Filled? && PcOf(st, a.c).temp.Name() in st.files
  }

  lemma OnlyCommitsChangeReads(w: World, origin: map<string, string>, st: State, a: Action)
    requires Inv(w, origin, st)
    ensures var st' := Apply(w, st, a);
            if IsCommit(st, a) then
              var pc := PcOf(st, a.c);
              Knows(w, st.files, Staged(pc.op, pc.plan))
              && Replaces(st.files, st'.files, pc.plan.target, pc.plan.text, pc.temp)
            else SameReads(st.files, st'.files)
  {
    if a.Rename? && PcOf(st, a.c).Filled? {
      assert Knows(w, st.files, PcOf(st, a.c));
      CommitReplaces(w, st, a.c);
    } else {
      OthersChangeNoRead(w, st, a);
    }
  }

  lemma OthersChangeNoRead(w: World, st: State, a: Action)
    requires !(a.Rename? && PcOf(st, a.c).Filled?)
    ensures SameReads(st.files, Apply(w, st, a).files)
  {
    if (a.Scribble? || a.Fill? || a.Sweep?) && HasTemp(PcOf(st, a.c)) {
      TempIsNotRead(PcOf(st, a.c).temp);
    } else if a.Open? && PcOf(st, a.c).Staged? {
      TempIsNotRead(Temp(Stem(PcOf(st, a.c).op, PcOf(st, a.c).plan), a.pid, a.uuid));
    } else {
      FilesStay(w, st, a);
    }
  }

  lemma FilesStay(w: World, st: State, a: Action)
    requires !(a.Rename? && PcOf(st, a.c).Filled?)
    requires !((a.Scribble? || a.Fill? || a.Sweep?) && HasTemp(PcOf(st, a.c)))
    requires !(a.Open? && PcOf(st, a.c).Staged?)
    ensures Apply(w, st, a).files == st.files
  {
  }

  lemma CommitReplaces(w: World, st: State, c: nat)
    requires AllKnow(w, st) && PcOf(st, c).Filled? && PcOf(st, c).temp.Name() in st.files
    ensures var st', pc := Apply(w, st, Rename(c)), PcOf(st, c);
            Knows(w, st.files, Staged(pc.op, pc.plan))
            && Replaces(st.files, st'.files, pc.plan.target, pc.plan.text, pc.temp)
  {
    var pc := PcOf(st, c);
    assert Knows(w, st.files, pc);
    RenameShape(w, st, c, pc.op, pc.plan, pc.temp);
  }

  // ---- the registry file stays sorted and readable, the ignore file only grows ----

  /** The registry is untouched, or parses back to a strictly sorted list of session ids. */
  predicate RegistryTidy(w: World, origin: map<string, string>, files: map<string, string>) {
    || Get(files, REGISTRY) == Get(origin, REGISTRY)
    || var ids := Ids(w.codec, Get(files, REGISTRY)); ids.Some? && StrictlySorted(ids.value)
  }

  function IgnoreText(files: map<string, string>): string {
    if IGNORE in files then files[IGNORE] else ""
  }

  predicate Private(w: World, files: map<string, string>) {
    forall p <- w.patterns :: p in PrivateIgnore.Lines(IgnoreText(files))
  }

  /** createSession past its ignore-file check. */
  predicate PastIgnore(pc: Pc) {
    || (pc.Prepared? && pc.op.Create?)
    || ((pc.Staged? || pc.Opened? || pc.Filled?) && pc.op.Create? && pc.plan.target == REGISTRY)
    || (pc.Sweeping? && pc.next.Proceed?)
  }

  ghost predicate Tidy(w: World, origin: map<string, string>, st: State) {
    && RegistryTidy(w, origin, st.files)
    && IgnoreText(origin) <= IgnoreText(st.files)
    && (forall p | PrivateIgnore.Plain(p) ::
          p in PrivateIgnore.Lines(IgnoreText(origin)) ==> p in PrivateIgnore.Lines(IgnoreText(st.files)))
    && (forall c: nat | PastIgnore(PcOf(st, c)) :: Private(w, st.files))
    && (forall e <- st.log :: Issues(e) ==> Private(w, st.files))
  }

  ghost predicate PlainPatterns(w: World) { forall p <- w.patterns :: PrivateIgnore.Plain(p) }

  /** A registry about to be written is sorted and readable. */
  lemma RegistryPlanIsTidy(w: World, files: map<string, string>, pc: Pc)
    requires w.codec.RoundTrips() && pc.Staged? && Knows(w, files, pc) && pc.plan.target == REGISTRY
    ensures var ids := Ids(w.codec, Some(pc.plan.text)); ids.Some? && StrictlySorted(ids.value)
  {
    assert pc.op.Create? by { if pc.op.Write? { RecordNamesAreExact(pc.op.skill); } }
    IdsAreUuids(w.codec, pc.plan.basis);
    RegistryReadsBack(w.codec, Ids(w.codec, pc.plan.basis).value + [pc.plan.next.reply.id]);
  }

  /** What a commit does to the registry and the ignore file. */
  lemma CommitIsTidy(w: World, origin: map<string, string>, st: State, a: Action)
    requires w.codec.RoundTrips() && PlainPatterns(w)
    requires Inv(w, origin, st) && Tidy(w, origin, st) && IsCommit(st, a)
    ensures var files := Apply(w, st, a).files;
            && RegistryTidy(w, origin, files)
            && IgnoreText(st.files) <= IgnoreText(files)
            && (forall p | PrivateIgnore.Plain(p) ::
                  p in PrivateIgnore.Lines(IgnoreText(st.files)) ==> p in PrivateIgnore.Lines(IgnoreText(files)))
            && (PcOf(st, a.c).plan.target == IGNORE ==> Private(w, files))
  {
    OnlyCommitsChangeReads(w, origin, st, a);
    var pc, files := PcOf(st, a.c), Apply(w, st, a).files;
    TempIsNotRead(pc.temp);
    assert Get(st.files, IGNORE) == if IGNORE in st.files then Some(IgnoreText(st.files)) else None;
    if pc.plan.target == IGNORE {
      PlanTargetIsRead(w, st.files, pc);
      PrivateIgnore.ExtendedIsSafe(w.patterns, IgnoreText(st.files));
      assert Get(files, REGISTRY) == Get(st.files, REGISTRY);
    } else {
      assert Get(files, IGNORE) == Get(st.files, IGNORE);
      if pc.plan.target == REGISTRY {
        RegistryPlanIsTidy(w, st.files, Staged(pc.op, pc.plan));
      } else {
        assert Get(files, REGISTRY) == Get(st.files, REGISTRY);
      }
    }
  }

  /** A step enters the part past the ignore check only with the patterns in place. */
  lemma EnteringPastIgnore(w: World, origin: map<string, string>, st: State, a: Action, c: nat)
    requires AllKnow(w, st)
    requires PastIgnore(PcOf(Apply(w, st, a), c)) && !PastIgnore(PcOf(st, c))
    ensures Private(w, st.files) || (IsCommit(st, a) && PcOf(st, a.c).plan.target == IGNORE)
  {
    match a
    case Prepare(_) => PrepareChecks(w, st, a.c, c);
    case Rename(_) =>
      if PcOf(st, a.c).Filled? { assert Knows(w, st.files, PcOf(st, a.c)); }
    case Load(_, _) => ReplacingStaysInside(w, st, a, c);
    case Open(_, _, _) => ReplacingStaysInside(w, st, a, c);
    case Fill(_) => ReplacingStaysInside(w, st, a, c);
    case Sweep(_, _) => ReplacingStaysInside(w, st, a, c);
    case _ => OthersStayOutside(w, st, a, c);
  }

  lemma PrepareChecks(w: World, st: State, actor: nat, c: nat)
    ensures PastIgnore(PcOf(Apply(w, st, Prepare(actor)), c)) ==> PastIgnore(PcOf(st, c)) || Private(w, st.files)
  {
    assert PrivateIgnore.Missing(w.patterns, IgnoreText(st.files)) == [] ==> Private(w, st.files);
  }

  lemma ReplacingStaysInside(w: World, st: State, a: Action, c: nat)
    requires a.Load? || a.Open? || a.Fill? || a.Sweep?
    ensures PastIgnore(PcOf(Apply(w, st, a), c)) ==> PastIgnore(PcOf(st, c))
  {
  }

  lemma OthersStayOutside(w: World, st: State, a: Action, c: nat)
    requires !(a.Load? || a.Open? || a.Fill? || a.Sweep? || a.Prepare? || a.Rename?)
    ensures PastIgnore(PcOf(Apply(w, st, a), c)) ==> PastIgnore(PcOf(st, c))
  {
  }

  lemma IssuingNeedsPrivacy(w: World, origin: map<string, string>, st: State, a: Action)
    requires Inv(w, origin, st)
    ensures var log := Apply(w, st, a).log;
            || log == st.log
            || (|log| == |st.log| + 1 && log[..|st.log|] == st.log
                && (Issues(log[|st.log|]) ==> IsCommit(st, a) && PcOf(st, a.c).plan.target == REGISTRY
                                              && PastIgnore(PcOf(st, a.c))))
  {
    if a.Rename? {
      if PcOf(st, a.c).Filled? { assert Knows(w, st.files, PcOf(st, a.c)); }
    } else {
      OnlyRenamesIssue(w, st, a);
    }
  }

  lemma OnlyRenamesIssue(w: World, st: State, a: Action)
    requires !a.Rename?
    ensures var log := Apply(w, st, a).log;
            log == st.log || exists e :: log == st.log + [e] && !Issues(e)
  {
    var log := Apply(w, st, a).log;
    assert log == st.log || log == st.log + [log[|st.log|]];
  }

  /** No step loses anything of the ignore file, or leaves the registry untidy. */
  lemma FilesStayTidy(w: World, origin: map<string, string>, st: State, a: Action)
    requires w.codec.RoundTrips() && PlainPatterns(w)
    requires Inv(w, origin, st) && Tidy(w, origin, st)
    ensures var files := Apply(w, st, a).files;
            && RegistryTidy(w, origin, files)
            && IgnoreText(st.files) <= IgnoreText(files)
            && (forall p | PrivateIgnore.Plain(p) ::
                  p in PrivateIgnore.Lines(IgnoreText(st.files)) ==> p in PrivateIgnore.Lines(IgnoreText(files)))
            && (IsCommit(st, a) && PcOf(st, a.c).plan.target == IGNORE ==> Private(w, files))
  {
    if IsCommit(st, a) {
      CommitIsTidy(w, origin, st, a);
    } else {
      OnlyCommitsChangeReads(w, origin, st, a);
      var files := Apply(w, st, a).files;
      assert Get(st.files, REGISTRY) == Get(files, REGISTRY) && Get(st.files, IGNORE) == Get(files, IGNORE);
      assert IgnoreText(files) == IgnoreText(st.files);
    }
  }

  lemma PrivacyStays(w: World, origin: map<string, string>, st: State, a: Action)
    requires w.codec.RoundTrips() && PlainPatterns(w)
    requires Inv(w, origin, st) && Tidy(w, origin, st)
    ensures Private(w, st.files) || (IsCommit(st, a) && PcOf(st, a.c).plan.target == IGNORE) ==>
      Private(w, Apply(w, st, a).files)
  {
    FilesStayTidy(w, origin, st, a);
  }

  /** A log that grew by at most one event: an id in it is of a private folder. */
  lemma IssuedWasPrivate(w: World, origin: map<string, string>, st: State, log: seq<Event>, e: Event, c: nat)
    requires Tidy(w, origin, st) && e in log && Issues(e)
    requires log == st.log || (|log| == |st.log| + 1 && log[..|st.log|] == st.log
                               && (Issues(log[|st.log|]) ==> PastIgnore(PcOf(st, c))))
    ensures Private(w, st.files)
  {
    if e !in st.log { assert log == st.log + [log[|st.log|]]; }
  }

  lemma StepIsTidy(w: World, origin: map<string, string>, st: State, a: Action)
    requires w.codec.RoundTrips() && PlainPatterns(w)
    requires Inv(w, origin, st) && Tidy(w, origin, st)
    ensures Tidy(w, origin, Apply(w, st, a))
  {
    var st' := Apply(w, st, a);
    FilesStayTidy(w, origin, st, a);
    PrivacyStays(w, origin, st, a);
    forall c: nat | PastIgnore(PcOf(st', c)) ensures Private(w, st'.files) {
      if !PastIgnore(PcOf(st, c)) { EnteringPastIgnore(w, origin, st, a, c); }
    }
    IssuingNeedsPrivacy(w, origin, st, a);
    forall e <- st'.log | Issues(e) ensures Private(w, st'.files) {
      IssuedWasPrivate(w, origin, st, st'.log, e, if a.Reap? then 0 else a.c);
    }
  }

  lemma {:induction false} RunIsTidy(w: World, files: map<string, string>, actions: seq<Action>)
    requires w.codec.RoundTrips() && PlainPatterns(w)
    ensures Tidy(w, files, Run(w, Start(files), actions))
  {
    if actions != [] {
      var shorter := actions[..|actions| - 1];
      RunIsTidy(w, files, shorter);
      RunKeepsInv(w, files, shorter);
      StepIsTidy(w, files, Run(w, Start(files), shorter), actions[|actions| - 1]);
    }
  }

  // ---- calls come from the scheduler's invocations ----

  lemma OnlyInvokesLogCalls(w: World, st: State, a: Action)
    ensures var log := Apply(w, st, a).log;
            || log == st.log
            || (|log| == |st.log| + 1 && log[..|st.log|] == st.log
                && (log[|st.log|].Invoked? ==> a == Invoke(log[|st.log|].client, log[|st.log|].op)))
  {
  }

  lemma {:induction false} CallsWereInvoked(w: World, files: map<string, string>, actions: seq<Action>, e: Event)
    requires e in Run(w, Start(files), actions).log && e.Invoked?
    ensures Invoke(e.client, e.op) in actions
  {
    if actions != [] {
      var n := |actions| - 1;
      var before := Run(w, Start(files), actions[..n]);
      OnlyInvokesLogCalls(w, before, actions[n]);
      if e in before.log {
        CallsWereInvoked(w, files, actions[..n], e);
      } else {
        var log := Apply(w, before, actions[n]).log;
        assert log == before.log + [log[|before.log|]];
      }
    }
  }

  /** Whatever takes effect in a run, the run's schedule had a client call. */
  lemma EffectsWereScheduled(w: World, files: map<string, string>, actions: seq<Action>, e: Event)
    requires w.codec.RoundTrips() && e in Run(w, Start(files), actions).log && e.Effect?
    ensures Invoke(e.client, e.op) in actions
  {
    var log := Run(w, Start(files), actions).log;
    EveryRunIsLinearizable(w, files, actions);
    var i :| 0 <= i < |log| && log[i] == e;
    EffectsWereInvoked(log, i);
    var j :| 0 <= j < i && log[j] == Invoked(e.client, e.op);
    CallsWereInvoked(w, files, actions, log[j]);
  }

  // ---- the theorems, stated on runs ----

  /**
   Concurrent createSession calls lose no session: at every moment of every run the registry reads
   back as exactly the ids it began with and the ids issued, all of them distinct, in strict order
   once it has been written; and the ignore file has grown only, covering the private files before
   any session is issued.
   */
  lemma RunsKeepEverySession(w: World, files: map<string, string>, actions: seq<Action>)
    requires w.codec.RoundTrips() && PlainPatterns(w)
    ensures var st := Run(w, Start(files), actions);
            && (Sessions(w.codec, files).Some? ==>
                  Sessions(w.codec, st.files) == Some(Sessions(w.codec, files).value + IssuedIds(st.log)))
            && (Sessions(w.codec, files).None? ==> Get(st.files, REGISTRY) == Get(files, REGISTRY))
            && RegistryTidy(w, files, st.files)
            && (forall i, j | 0 <= i < j < |st.log| && Issues(st.log[i]) && Issues(st.log[j]) ::
                  st.log[i].reply.id != st.log[j].reply.id)
            && IgnoreText(files) <= IgnoreText(st.files)
            && (IssuedIds(st.log) != {} ==> Private(w, st.files))
  {
    var st := Run(w, Start(files), actions);
    EveryRunIsLinearizable(w, files, actions);
    RegistryIsExact(w.codec, Abstract(w.codec, files), st.log);
    RunIsTidy(w, files, actions);
    if Sessions(w.codec, files).None? {
      assert Sessions(w.codec, st.files).None?;
    }
    assert IssuedIds(st.log) != {} ==> exists e <- st.log :: Issues(e);
  }

  /** The same under the patterns the store writes. */
  lemma RunsHideTheRuntimeFiles(codec: Codec, files: map<string, string>, actions: seq<Action>, pattern: string)
    requires codec.RoundTrips() && pattern in PrivateIgnore.PATTERNS
    requires IssuedIds(Run(World(codec, PrivateIgnore.PATTERNS), Start(files), actions).log) != {}
    ensures var st := Run(World(codec, PrivateIgnore.PATTERNS), Start(files), actions);
            pattern in PrivateIgnore.Lines(IgnoreText(st.files)) && IgnoreText(files) <= IgnoreText(st.files)
  {
    PrivateIgnore.PatternsArePlain();
    RunsKeepEverySession(World(codec, PrivateIgnore.PATTERNS), files, actions);
  }

  /** The text a skill's file holds when event i of the log comes. */
  function TextBefore(codec: Codec, files: map<string, string>, log: seq<Event>, i: nat, skill: string): Option<string>
    requires i <= |log|
  {
    var last := LastCommit(log[..i], skill);
    if last.Some? then Some(codec.Stored(last.value)) else Get(files, RecordName(skill))
  }

  /** In every run a revision-guarded commit replaces a text of exactly that revision. */
  lemma RunsReplaceTheirRevision(w: World, files: map<string, string>, actions: seq<Action>, skill: string, i: nat)
    requires w.codec.RoundTrips() && IsSkillId(skill)
    requires var log := Run(w, Start(files), actions).log;
             i < |log| && Commits(log[i], skill) && DemandOf(log[i].op.expected).Exactly?
    ensures var log := Run(w, Start(files), actions).log;
            var current := TextBefore(w.codec, files, log, i, skill);
            current.Some? && w.codec.hash(current.value) == DemandOf(log[i].op.expected).revision
  {
    var log, s := Run(w, Start(files), actions).log, Abstract(w.codec, files);
    EveryRunIsLinearizable(w, files, actions);
    GuardedCommitReplacesItsRevision(w.codec, s, log, skill, i);
    RecordIsLastCommit(w.codec, s, log[..i], skill);
    AbstractLookup(w.codec, files, skill);
  }

  /**
   In every run, from a commit to the next one of its skill, a read shows the value committed under
   the revision the write returned, unless it fails or its session was not issued by then.
   */
  lemma RunsReadWhatWasWritten(w: World, files: map<string, string>, actions: seq<Action>, skill: string,
                               i: nat, j: nat)
    requires w.codec.RoundTrips()
    requires var log := Run(w, Start(files), actions).log;
             && i < j < |log| && Commits(log[i], skill) && (forall k | i < k < j :: !Commits(log[k], skill))
             && log[j].Effect? && log[j].op.Read? && log[j].op.skill == skill
    ensures var log := Run(w, Start(files), actions).log;
            && log[i].reply == Stored(w.codec.hash(w.codec.Stored(log[i].op.value)))
            && log[j].reply in { Found(log[i].op.value, log[i].reply.revision), Denied, Failed }
            && (log[j].reply == Denied ==>
                  !IsUuidV4(log[j].op.session)
                  || (Sessions(w.codec, files).Some?
                      && log[j].op.session !in Sessions(w.codec, files).value + IssuedIds(log[..j])))
  {
    var log, s := Run(w, Start(files), actions).log, Abstract(w.codec, files);
    EveryRunIsLinearizable(w, files, actions);
    WrittenRevisionIsRead(w.codec, s, log, skill, i, j);
    PrefixIsLegal(w.codec, s, log, j);
    RegistryIsExact(w.codec, s, log[..j]);
  }

  /** The file of a skill is its last committed value, byte for byte, or its original text. */
  lemma RunsStoreTheLastCommit(w: World, files: map<string, string>, actions: seq<Action>, skill: string)
    requires w.codec.RoundTrips() && IsSkillId(skill)
    ensures var st := Run(w, Start(files), actions);
            Get(st.files, RecordName(skill)) ==
            if LastCommit(st.log, skill).Some? then Some(w.codec.Stored(LastCommit(st.log, skill).value))
            else Get(files, RecordName(skill))
  {
    var st := Run(w, Start(files), actions);
    EveryRunIsLinearizable(w, files, actions);
    RecordIsLastCommit(w.codec, Abstract(w.codec, files), st.log, skill);
    AbstractLookup(w.codec, files, skill);
    AbstractLookup(w.codec, st.files, skill);
  }

  /** No lost update, on the file itself and from a project without one on. */
  lemma RunsLoseNoUpdate(w: World, files: map<string, string>, actions: seq<Action>, skill: string, upd: nat -> Update)
    requires w.codec.RoundTrips() && w.codec.CollisionFree() && IsSkillId(skill)
    requires ReadModifyWrites(Run(w, Start(files), actions).log, skill, upd)
    ensures var st := Run(w, Start(files), actions);
            Value(w.codec, Get(st.files, RecordName(skill)))
            == Composed(st.log, skill, upd, Value(w.codec, Get(files, RecordName(skill))))
  {
    var st := Run(w, Start(files), actions);
    EveryRunIsLinearizable(w, files, actions);
    AbstractLookup(w.codec, files, skill);
    AbstractLookup(w.codec, st.files, skill);
    NoLostUpdate(w.codec, Abstract(w.codec, files), st.log, skill, upd);
  }

  /** Among any number of racing create-only writes at most one wins, and only onto an absent file. */
  lemma RunsHaveOneCreator(w: World, files: map<string, string>, actions: seq<Action>, skill: string, i: nat, j: nat)
    requires w.codec.RoundTrips() && IsSkillId(skill)
    requires var log := Run(w, Start(files), actions).log;
             && i < |log| && j < |log| && Commits(log[i], skill) && Commits(log[j], skill)
             && DemandOf(log[i].op.expected) == Nothing
    ensures RecordName(skill) !in files && i <= j
    ensures DemandOf(Run(w, Start(files), actions).log[j].op.expected) == Nothing ==> i == j
  {
    var log := Run(w, Start(files), actions).log;
    var s := Abstract(w.codec, files);
    EveryRunIsLinearizable(w, files, actions);
    CreateOnlyCommitsFirst(w.codec, s, log, skill, i);
    AbstractLookup(w.codec, files, skill);
    if DemandOf(log[j].op.expected) == Nothing { CreateOnlyCommitsOnce(w.codec, s, log, skill, i, j); }
  }
}
