/** What holds of the hosted worker over every sequential run of mixed requests. */
module HostedRuns {
  import opened Text
  import opened JsonValues
  import opened Namespace
  import opened SessionToken
  import opened Hosted

  /** The keys a request writes. */
  function Touched(h: Host, at: int, req: Request): set<Key> {
    match req
    case Vote(issue, ip) =>
      if IsIssue(issue) then { VoteLock(issue, h.date(at / DAY), ip), VoteCount(issue) } else {}
    case Notify(ip, email, _) => { NotifyLimit(ip), Lead(email) }
    case Roadmap(ip) => { RoadmapLimit(ip) }
    case WriteCheckpoint(skill, session, _) =>
      var (refusal, s) := Admit(h, skill, session);
      if refusal.None? then { Checkpoint(s, skill) } else {}
    case _ => {}
  }

  lemma TouchedSplits(h: Host, at: int, req: Request, k: Key)
    requires h.Lawful() && k in Touched(h, at, req)
    ensures Splittable(k)
  {
  }

  /** A request leaves every other key alone: the families share nothing. */
  lemma StepFrame(h: Host, kv: Kv, at: int, req: Request, k: Key)
    requires h.Lawful() && Splittable(k) && k !in Touched(h, at, req)
    ensures Find(Step(h, kv, at, req).0, k) == Find(kv, k)
  {
    match req
    case Vote(issue, ip) =>
      if IsIssue(issue) {
        var lock, count := VoteLock(issue, h.date(at / DAY), ip), VoteCount(issue);
        TouchedSplits(h, at, req, lock);
        var current := CurrentCount(h, Get(kv, count, at));
        PutElsewhere(kv, lock, "1", Some(at + VOTE_TTL), k);
        PutElsewhere(Put(kv, lock, "1", Some(at + VOTE_TTL)), count, h.show(current + 1), None, k);
      }
    case Notify(ip, email, record) =>
      LimitFrame(h, kv, at, NotifyLimiter, ip, k);
      PutElsewhere(LimitStep(h, kv, at, NotifyLimiter, ip).0, Lead(email), record, Some(at + LEAD_TTL), k);
    case Roadmap(ip) => LimitFrame(h, kv, at, RoadmapLimiter, ip, k);
    case WriteCheckpoint(skill, session, checkpoint) =>
      if Admit(h, skill, session).0.None? { WriteFrame(h, kv, at, skill, session, checkpoint, k); }
    case _ =>
  }

  lemma WriteFrame(h: Host, kv: Kv, at: int, skill: string, session: Option<Json>, checkpoint: Json, k: Key)
    requires h.Lawful() && Admit(h, skill, session).0.None?
    requires Splittable(k) && k != Checkpoint(Admit(h, skill, session).1, skill)
    ensures Find(WriteStep(h, kv, at, skill, session, checkpoint).0, k) == Find(kv, k)
  {
    var s := Admit(h, skill, session).1;
    PutElsewhere(kv, Checkpoint(s, skill), h.codec.stringify(checkpoint), Some(at + CHECKPOINT_TTL), k);
  }

  lemma LimitFrame(h: Host, kv: Kv, at: int, limiter: Limiter, ip: string, k: Key)
    requires Splittable(k) && k != limiter.KeyFor(ip)
    ensures Find(LimitStep(h, kv, at, limiter, ip).0, k) == Find(kv, k)
  {
    var raw := Get(kv, limiter.KeyFor(ip), at);
    var current := if raw.None? then 0 else h.parseNumber(raw.value);
    PutElsewhere(kv, limiter.KeyFor(ip), h.show(current + 1), Some(at + limiter.Ttl()), k);
  }

  // ---- votes ----

  predicate Accepts(e: Served, issue: string) {
    e.req.Vote? && e.req.issue == issue && e.reply.Voted? && !e.reply.already
  }

  /** The (UTC day, IP hash) pairs whose vote on the issue was accepted. */
  function Voters(trace: seq<Served>, issue: string): set<(int, string)> {
    set e | e in trace && Accepts(e, issue) :: (e.at / DAY, e.req.ip)
  }

  function Count(h: Host, kv: Kv, issue: string): nat {
    var e := Find(kv, VoteCount(issue));
    CurrentCount(h, if e.None? then None else Some(e.value.value))
  }

  /** Counts are stored without expiry; that is how they are always put. */
  predicate Lasting(kv: Kv, issue: string) {
    var e := Find(kv, VoteCount(issue)); e.Some? ==> e.value.expires.None?
  }

  /** The pair's lock is there and lapses only after its day. */
  predicate Locked(h: Host, kv: Kv, issue: string, v: (int, string)) {
    var lock := Find(kv, VoteLock(issue, h.date(v.0), v.1));
    lock.Some? && lock.value.value == "1" && lock.value.expires.Some? && lock.value.expires.value > (v.0 + 1) * DAY
  }

  ghost predicate LocksOutliveTheirDay(h: Host, w: World, issue: string) {
    forall v <- Voters(w.trace, issue) :: Locked(h, w.kv, issue, v)
  }

  lemma VotersAfter(trace: seq<Served>, e: Served, issue: string)
    ensures Voters(trace + [e], issue) ==
            Voters(trace, issue) + if Accepts(e, issue) then { (e.at / DAY, e.req.ip) } else {}
  {
    var more := if Accepts(e, issue) then { (e.at / DAY, e.req.ip) } else {};
    forall v ensures v in Voters(trace + [e], issue) <==> v in Voters(trace, issue) + more {
      if v in Voters(trace, issue) {
        var x :| x in trace && Accepts(x, issue) && (x.at / DAY, x.req.ip) == v;
        assert x in trace + [e];
      }
      if v in more { assert e in trace + [e]; }
    }
  }

  /** One vote: it is accepted only for a new pair, and then counts one. */
  lemma VoteKeepsCount(h: Host, w: World, at: int, req: Request, issue: string)
    requires h.Lawful() && IsIssue(issue) && Lasting(w.kv, issue) && LocksOutliveTheirDay(h, w, issue)
    ensures var (kv', reply) := Step(h, w.kv, at, req);
            var e := Served(at, req, reply);
            && Lasting(kv', issue)
            && Count(h, kv', issue) == Count(h, w.kv, issue) + (if Accepts(e, issue) then 1 else 0)
            && (Accepts(e, issue) ==>
                  (at / DAY, req.ip) !in Voters(w.trace, issue) && reply.count == Count(h, kv', issue))
  {
    if req.Vote? && req.issue == issue {
      var pair := (at / DAY, req.ip);
      var lock := VoteLock(issue, h.date(at / DAY), req.ip);
      if pair in Voters(w.trace, issue) {
        assert at < (at / DAY + 1) * DAY;
        assert Get(w.kv, lock, at) == Some("1");
      }
    } else {
      StepFrame(h, w.kv, at, req, VoteCount(issue));
    }
  }

  /** A vote of the pair itself finds the lock live; nothing else touches it. */
  lemma LockSurvives(h: Host, kv: Kv, at: int, req: Request, issue: string, v: (int, string))
    requires h.Lawful() && IsIssue(issue) && Locked(h, kv, issue, v)
    ensures Locked(h, Step(h, kv, at, req).0, issue, v)
  {
    var key := VoteLock(issue, h.date(v.0), v.1);
    if key in Touched(h, at, req) {
      assert at < (at / DAY + 1) * DAY;
      assert Get(kv, key, at) == Some("1");
    } else {
      StepFrame(h, kv, at, req, key);
    }
  }

  lemma LockIsTaken(h: Host, kv: Kv, at: int, issue: string, ip: string)
    requires h.Lawful() && IsIssue(issue)
    requires VoteStep(h, kv, at, issue, ip).1.Voted? && !VoteStep(h, kv, at, issue, ip).1.already
    ensures Locked(h, VoteStep(h, kv, at, issue, ip).0, issue, (at / DAY, ip))
  {
    var key := VoteLock(issue, h.date(at / DAY), ip);
    var current := CurrentCount(h, Get(kv, VoteCount(issue), at));
    assert at + VOTE_TTL > (at / DAY + 1) * DAY;
    PutElsewhere(Put(kv, key, "1", Some(at + VOTE_TTL)), VoteCount(issue), h.show(current + 1), None, key);
  }

  lemma VoteKeepsLocks(h: Host, w: World, at: int, req: Request, issue: string)
    requires h.Lawful() && IsIssue(issue) && LocksOutliveTheirDay(h, w, issue)
    ensures var (kv', reply) := Step(h, w.kv, at, req);
            LocksOutliveTheirDay(h, World(kv', w.trace + [Served(at, req, reply)]), issue)
  {
    var (kv', reply) := Step(h, w.kv, at, req);
    var e := Served(at, req, reply);
    VotersAfter(w.trace, e, issue);
    if Accepts(e, issue) { LockIsTaken(h, w.kv, at, issue, req.ip); }
    forall v | v in Voters(w.trace, issue) ensures Locked(h, kv', issue, v) {
      LockSurvives(h, w.kv, at, req, issue, v);
    }
  }

  lemma {:induction false} VotesInvariant(h: Host, kv: Kv, arrivals: seq<Arrival>, issue: string)
    requires h.Lawful() && IsIssue(issue) && Lasting(kv, issue)
    ensures var w := Run(h, kv, arrivals);
            && Lasting(w.kv, issue) && LocksOutliveTheirDay(h, w, issue)
            && Count(h, w.kv, issue) == Count(h, kv, issue) + |Voters(w.trace, issue)|
  {
    if arrivals != [] {
      var n := |arrivals| - 1;
      var before, a := Run(h, kv, arrivals[..n]), arrivals[n];
      VotesInvariant(h, kv, arrivals[..n], issue);
      VoteKeepsCount(h, before, a.at, a.req, issue);
      VoteKeepsLocks(h, before, a.at, a.req, issue);
      VotersAfter(before.trace, Served(a.at, a.req, Step(h, before.kv, a.at, a.req).1), issue);
    }
  }

  /**
   In every run the count of an issue is its initial count plus the number of distinct (day, IP
   hash) pairs accepted, and no pair is accepted twice: the 25-hour lock outlives its day.
   */
  lemma VotesAreCountedOnce(h: Host, kv: Kv, arrivals: seq<Arrival>, issue: string, i: nat, j: nat)
    requires h.Lawful() && IsIssue(issue) && Lasting(kv, issue)
    requires i < j < |arrivals|
    ensures var w := Run(h, kv, arrivals);
            && Count(h, w.kv, issue) == Count(h, kv, issue) + |Voters(w.trace, issue)|
            && (Accepts(w.trace[i], issue) && Accepts(w.trace[j], issue) ==>
                  (w.trace[i].at / DAY, w.trace[i].req.ip) != (w.trace[j].at / DAY, w.trace[j].req.ip))
  {
    var w, before := Run(h, kv, arrivals), Run(h, kv, arrivals[..j]);
    VotesInvariant(h, kv, arrivals, issue);
    VotesInvariant(h, kv, arrivals[..j], issue);
    TraceOfPrefix(h, kv, arrivals, j);
    VoteKeepsCount(h, before, arrivals[j].at, arrivals[j].req, issue);
    assert w.trace[i] == before.trace[i] && before.trace[i] in before.trace;
  }

  // ---- rate limits ----

  predicate Passes(e: Served, limiter: Limiter, ip: string) {
    e.reply == Passed && match limiter
                         case NotifyLimiter => e.req.Notify? && e.req.ip == ip
                         case RoadmapLimiter => e.req.Roadmap? && e.req.ip == ip
  }

  /** Requests of this IP that passed at or after `from`, and before `until` where one is given. */
  function PassCount(trace: seq<Served>, limiter: Limiter, ip: string, from: int, until: Option<int>): nat {
    if trace == [] then 0
    else
      var e := trace[|trace| - 1];
      PassCount(trace[..|trace| - 1], limiter, ip, from, until)
      + if Passes(e, limiter, ip) && from <= e.at && (until.None? || e.at < until.value) then 1 else 0
  }

  function LastPass(trace: seq<Served>, limiter: Limiter, ip: string): Option<int> {
    if trace == [] then None
    else if Passes(trace[|trace| - 1], limiter, ip) then Some(trace[|trace| - 1].at)
    else LastPass(trace[..|trace| - 1], limiter, ip)
  }

  predicate Ordered(arrivals: seq<Arrival>) {
    forall i, j | 0 <= i < j < |arrivals| :: arrivals[i].at <= arrivals[j].at
  }

  predicate InOrder(trace: seq<Served>) {
    forall i, j | 0 <= i < j < |trace| :: trace[i].at <= trace[j].at
  }

  /** The counter found at the start, if any, is no negative number. */
  predicate Counting(h: Host, kv: Kv, limiter: Limiter, ip: string) {
    var e := Find(kv, limiter.KeyFor(ip)); e.Some? ==> h.parseNumber(e.value.value) >= 0
  }

  /**
   The counter covers every window still open: it lapses one TTL after the last pass, and counts
   all passes of any window that the last pass lies in.
   */
  ghost predicate Covers(h: Host, w: World, limiter: Limiter, ip: string) {
    var last, e := LastPass(w.trace, limiter, ip), Find(w.kv, limiter.KeyFor(ip));
    if last.None? then Counting(h, w.kv, limiter, ip)
    else
      && e.Some? && e.value.expires == Some(last.value + limiter.Ttl())
      && 0 <= h.parseNumber(e.value.value) <= limiter.Max()
      && forall from: int | from + limiter.Ttl() > last.value ::
           PassCount(w.trace, limiter, ip, from, None) <= h.parseNumber(e.value.value)
  }

  lemma {:induction false} NoPassSoFar(trace: seq<Served>, limiter: Limiter, ip: string, from: int)
    requires LastPass(trace, limiter, ip).None?
    ensures PassCount(trace, limiter, ip, from, None) == 0
  {
    if trace != [] { NoPassSoFar(trace[..|trace| - 1], limiter, ip, from); }
  }

  lemma {:induction false} NoneAfterLast(trace: seq<Served>, limiter: Limiter, ip: string, from: int, clock: int)
    requires forall e <- trace :: e.at <= clock
    requires LastPass(trace, limiter, ip).Some? && from > LastPass(trace, limiter, ip).value
    requires InOrder(trace)
    ensures PassCount(trace, limiter, ip, from, None) == 0
  {
    var n := |trace| - 1;
    var shorter, e := trace[..n], trace[n];
    if Passes(e, limiter, ip) {
      if LastPass(shorter, limiter, ip).None? {
        NoPassSoFar(shorter, limiter, ip, from);
      } else {
        LastPassIsInTrace(shorter, limiter, ip);
        NoneAfterLast(shorter, limiter, ip, from, clock);
      }
    } else {
      NoneAfterLast(shorter, limiter, ip, from, clock);
    }
  }

  lemma {:induction false} LastPassIsInTrace(trace: seq<Served>, limiter: Limiter, ip: string)
    requires LastPass(trace, limiter, ip).Some?
    ensures exists i :: 0 <= i < |trace| && trace[i].at == LastPass(trace, limiter, ip).value
  {
    var n := |trace| - 1;
    if !Passes(trace[n], limiter, ip) {
      LastPassIsInTrace(trace[..n], limiter, ip);
      var i :| 0 <= i < n && trace[..n][i].at == LastPass(trace[..n], limiter, ip).value;
      assert trace[i].at == LastPass(trace, limiter, ip).value;
    }
  }

  function Counter(h: Host, kv: Kv, at: int, limiter: Limiter, ip: string): int {
    var raw := Get(kv, limiter.KeyFor(ip), at);
    if raw.None? then 0 else h.parseNumber(raw.value)
  }

  /** What a pass does to the counter, and a refusal does not. */
  predicate Counted(h: Host, kv: Kv, kv': Kv, pass: bool, at: int, limiter: Limiter, ip: string) {
    var current, after := Counter(h, kv, at, limiter, ip), Find(kv', limiter.KeyFor(ip));
    if pass then current < limiter.Max() && after == Some(Entry(h.show(current + 1), Some(at + limiter.Ttl())))
    else after == Find(kv, limiter.KeyFor(ip))
  }

  lemma LimitStepCounts(h: Host, kv: Kv, at: int, limiter: Limiter, ip: string)
    ensures var (kv', pass) := LimitStep(h, kv, at, limiter, ip); Counted(h, kv, kv', pass, at, limiter, ip)
  {
  }

  lemma NotifyCounts(h: Host, kv: Kv, at: int, ip: string, email: string, record: string)
    ensures var (kv', reply) := NotifyStep(h, kv, at, ip, email, record);
            Counted(h, kv, kv', reply == Passed, at, NotifyLimiter, ip)
  {
    LimitStepCounts(h, kv, at, NotifyLimiter, ip);
    PutElsewhere(LimitStep(h, kv, at, NotifyLimiter, ip).0, Lead(email), record, Some(at + LEAD_TTL), NotifyLimit(ip));
  }

  lemma LimitTouches(h: Host, kv: Kv, at: int, req: Request, limiter: Limiter, ip: string)
    requires h.Lawful()
    ensures var (kv', reply) := Step(h, kv, at, req);
            Counted(h, kv, kv', Passes(Served(at, req, reply), limiter, ip), at, limiter, ip)
  {
    if req.Notify? && limiter.NotifyLimiter? && req.ip == ip {
      NotifyCounts(h, kv, at, ip, req.email, req.record);
    } else if req.Roadmap? && limiter.RoadmapLimiter? && req.ip == ip {
      LimitStepCounts(h, kv, at, RoadmapLimiter, ip);
    } else {
      StepFrame(h, kv, at, req, limiter.KeyFor(ip));
    }
  }

  /** The counter, as read now, counts the passes of every window that is open now. */
  lemma CounterCovers(h: Host, w: World, at: int, limiter: Limiter, ip: string, from: int)
    requires Covers(h, w, limiter, ip) && InOrder(w.trace) && from + limiter.Ttl() > at
    requires forall e <- w.trace :: e.at <= at
    ensures PassCount(w.trace, limiter, ip, from, None) <= Counter(h, w.kv, at, limiter, ip)
  {
    var last := LastPass(w.trace, limiter, ip);
    if last.None? {
      NoPassSoFar(w.trace, limiter, ip, from);
    } else if from > last.value {
      NoneAfterLast(w.trace, limiter, ip, from, at);
    } else {
      LastPassIsInTrace(w.trace, limiter, ip);
      assert last.value <= at < last.value + limiter.Ttl();
    }
  }

  lemma CoverageStays(h: Host, w: World, kv: Kv, e: Served, limiter: Limiter, ip: string)
    requires Covers(h, w, limiter, ip) && !Passes(e, limiter, ip)
    requires Find(kv, limiter.KeyFor(ip)) == Find(w.kv, limiter.KeyFor(ip))
    ensures Covers(h, World(kv, w.trace + [e]), limiter, ip)
  {
    assert (w.trace + [e])[..|w.trace|] == w.trace;
  }

  lemma CoverageRenews(h: Host, w: World, kv: Kv, e: Served, limiter: Limiter, ip: string)
    requires h.Lawful() && Covers(h, w, limiter, ip) && InOrder(w.trace) && forall x <- w.trace :: x.at <= e.at
    requires Passes(e, limiter, ip) && Counter(h, w.kv, e.at, limiter, ip) < limiter.Max()
    requires Find(kv, limiter.KeyFor(ip)) ==
      Some(Entry(h.show(Counter(h, w.kv, e.at, limiter, ip) + 1), Some(e.at + limiter.Ttl())))
    ensures Covers(h, World(kv, w.trace + [e]), limiter, ip)
  {
    assert (w.trace + [e])[..|w.trace|] == w.trace;
    forall from: int | from + limiter.Ttl() > e.at
      ensures PassCount(w.trace + [e], limiter, ip, from, None) <= Counter(h, w.kv, e.at, limiter, ip) + 1
    {
      CounterCovers(h, w, e.at, limiter, ip, from);
    }
    CounterIsSmall(h, w, e.at, limiter, ip);
  }

  lemma CoverageStep(h: Host, w: World, at: int, req: Request, limiter: Limiter, ip: string)
    requires h.Lawful() && Covers(h, w, limiter, ip)
    requires forall e <- w.trace :: e.at <= at
    requires InOrder(w.trace)
    ensures var (kv', reply) := Step(h, w.kv, at, req);
            Covers(h, World(kv', w.trace + [Served(at, req, reply)]), limiter, ip)
  {
    var (kv', reply) := Step(h, w.kv, at, req);
    var e := Served(at, req, reply);
    LimitTouches(h, w.kv, at, req, limiter, ip);
    if Passes(e, limiter, ip) {
      CoverageRenews(h, w, kv', e, limiter, ip);
    } else {
      CoverageStays(h, w, kv', e, limiter, ip);
    }
  }

  lemma CounterIsSmall(h: Host, w: World, at: int, limiter: Limiter, ip: string)
    requires Covers(h, w, limiter, ip)
    ensures 0 <= Counter(h, w.kv, at, limiter, ip)
  {
  }

  lemma TimesOfRun(h: Host, kv: Kv, arrivals: seq<Arrival>, at: int)
    requires Ordered(arrivals) && forall a <- arrivals :: a.at <= at
    ensures forall e <- Run(h, kv, arrivals).trace :: e.at <= at
    ensures InOrder(Run(h, kv, arrivals).trace)
  {
    var trace := Run(h, kv, arrivals).trace;
    forall i | 0 <= i < |trace| ensures trace[i].at == arrivals[i].at && arrivals[i] in arrivals {
      TraceOfPrefix(h, kv, arrivals, i);
    }
  }

  lemma {:induction false} CoverageInvariant(h: Host, kv: Kv, arrivals: seq<Arrival>, limiter: Limiter, ip: string)
    requires h.Lawful() && Ordered(arrivals) && Counting(h, kv, limiter, ip)
    ensures Covers(h, Run(h, kv, arrivals), limiter, ip)
  {
    if arrivals != [] {
      var n := |arrivals| - 1;
      CoverageInvariant(h, kv, arrivals[..n], limiter, ip);
      TimesOfRun(h, kv, arrivals[..n], arrivals[n].at);
      CoverageStep(h, Run(h, kv, arrivals[..n]), arrivals[n].at, arrivals[n].req, limiter, ip);
    }
  }

  lemma {:induction false} WindowIsPart(trace: seq<Served>, limiter: Limiter, ip: string, from: int, until: int)
    ensures PassCount(trace, limiter, ip, from, Some(until)) <= PassCount(trace, limiter, ip, from, None)
  {
    if trace != [] { WindowIsPart(trace[..|trace| - 1], limiter, ip, from, until); }
  }

  lemma WindowStep(h: Host, w: World, limiter: Limiter, ip: string, from: int)
    requires Covers(h, w, limiter, ip) && w.trace != []
    requires PassCount(w.trace[..|w.trace| - 1], limiter, ip, from, Some(from + limiter.Ttl())) <= limiter.Max()
    ensures PassCount(w.trace, limiter, ip, from, Some(from + limiter.Ttl())) <= limiter.Max()
  {
    var e := w.trace[|w.trace| - 1];
    if Passes(e, limiter, ip) && from <= e.at < from + limiter.Ttl() {
      WindowIsPart(w.trace, limiter, ip, from, from + limiter.Ttl());
    }
  }

  /**
   In any half-open window of the limiter's TTL at most Max requests of one IP hash pass, over
   every run of mixed requests, although each pass renews the expiry of the counter.
   */
  lemma {:induction false} AtMostMaxPerWindow(h: Host, kv: Kv, arrivals: seq<Arrival>, limiter: Limiter, ip: string,
                                              from: int)
    requires h.Lawful() && Ordered(arrivals) && Counting(h, kv, limiter, ip)
    ensures PassCount(Run(h, kv, arrivals).trace, limiter, ip, from, Some(from + limiter.Ttl())) <= limiter.Max()
  {
    if arrivals != [] {
      var n := |arrivals| - 1;
      AtMostMaxPerWindow(h, kv, arrivals[..n], limiter, ip, from);
      CoverageInvariant(h, kv, arrivals, limiter, ip);
      TraceOfPrefix(h, kv, arrivals, n);
      WindowStep(h, Run(h, kv, arrivals), limiter, ip, from);
    }
  }

  // ---- checkpoints ----

  /** A stored checkpoint under exactly this session and skill. */
  predicate Writes(h: Host, e: Served, session: string, skill: string) {
    && e.req.WriteCheckpoint? && e.reply == Written
    && e.req.skill == skill && h.gate.sanitize(e.req.session) == Some(session)
  }

  function LastWrite(h: Host, trace: seq<Served>, session: string, skill: string): Option<(int, Json)> {
    if trace == [] then None
    else
      var e := trace[|trace| - 1];
      if Writes(h, e, session, skill) then Some((e.at, e.req.checkpoint))
      else LastWrite(h, trace[..|trace| - 1], session, skill)
  }

  /** The entry a last write leaves behind. */
  function Kept(h: Host, last: (int, Json)): Entry {
    Entry(h.codec.stringify(last.1), Some(last.0 + CHECKPOINT_TTL))
  }

  lemma WriteStepIsSeen(h: Host, kv: Kv, at: int, req: Request, session: string, skill: string)
    requires h.Lawful() && ':' !in session && req.WriteCheckpoint?
    ensures var (kv', reply) := WriteStep(h, kv, at, req.skill, req.session, req.checkpoint);
            Find(kv', Checkpoint(session, skill)) ==
            if reply == Written && req.skill == skill && h.gate.sanitize(req.session) == Some(session)
            then Some(Kept(h, (at, req.checkpoint)))
            else Find(kv, Checkpoint(session, skill))
  {
    var (refusal, s) := Admit(h, req.skill, req.session);
    if refusal.None? && (s != session || req.skill != skill) {
      WriteFrame(h, kv, at, req.skill, req.session, req.checkpoint, Checkpoint(session, skill));
    }
  }

  lemma WriteIsSeen(h: Host, kv: Kv, at: int, req: Request, session: string, skill: string)
    requires h.Lawful() && ':' !in session
    ensures var (kv', reply) := Step(h, kv, at, req);
            Find(kv', Checkpoint(session, skill)) ==
            if Writes(h, Served(at, req, reply), session, skill) then Some(Kept(h, (at, req.checkpoint)))
            else Find(kv, Checkpoint(session, skill))
  {
    if req.WriteCheckpoint? {
      WriteStepIsSeen(h, kv, at, req, session, skill);
    } else {
      StepFrame(h, kv, at, req, Checkpoint(session, skill));
    }
  }

  lemma {:induction false} CheckpointEntry(h: Host, kv: Kv, arrivals: seq<Arrival>, session: string, skill: string)
    requires h.Lawful() && ':' !in session
    ensures var w := Run(h, kv, arrivals);
            var last := LastWrite(h, w.trace, session, skill);
            Find(w.kv, Checkpoint(session, skill)) ==
            if last.None? then Find(kv, Checkpoint(session, skill)) else Some(Kept(h, last.value))
  {
    if arrivals != [] {
      var n := |arrivals| - 1;
      var before, a := Run(h, kv, arrivals[..n]), arrivals[n];
      CheckpointEntry(h, kv, arrivals[..n], session, skill);
      WriteIsSeen(h, before.kv, a.at, a.req, session, skill);
      TraceOfPrefix(h, kv, arrivals, n);
    }
  }

  /** Only a session of issued form is admitted. */
  lemma AdmittedIsIssuedForm(h: Host, skill: string, session: Option<Json>)
    requires h.Lawful() && Admit(h, skill, session).0.None?
    ensures h.gate.sanitize(session) == Some(Admit(h, skill, session).1)
    ensures var s := Admit(h, skill, session).1; h.gate.accepts(s) && ':' !in s && h.gate.IssuedForm(s)
  {
  }

  /** What an admitted read returns, from the last write of its own session and skill. */
  function Visible(h: Host, kv: Kv, last: Option<(int, Json)>, key: Key, at: int): Option<Json> {
    if last.None? then Parsed(h, Get(kv, key, at))
    else if at < last.value.0 + CHECKPOINT_TTL then Some(last.value.1)
    else None
  }

  /**
   Isolation: an admitted read yields the last value written under the same session and skill, if
   that has not lapsed, and otherwise null - whatever other sessions, votes, leads and limits did
   in between. Only sessions of issued form are admitted at all.
   */
  lemma ReadsSeeTheirOwnWrites(h: Host, kv: Kv, arrivals: seq<Arrival>, j: nat)
    requires h.Lawful() && j < |arrivals|
    requires arrivals[j].req.ReadCheckpoint? && Run(h, kv, arrivals).trace[j].reply.Value?
    ensures var skill, session := arrivals[j].req.skill, h.gate.sanitize(arrivals[j].req.session);
            && session.Some? && h.gate.accepts(session.value) && h.gate.IssuedForm(session.value)
            && var trace := Run(h, kv, arrivals).trace;
               trace[j].reply.checkpoint ==
               Visible(h, kv, LastWrite(h, trace[..j], session.value, skill), Checkpoint(session.value, skill),
                       arrivals[j].at)
  {
    var at, skill, text := arrivals[j].at, arrivals[j].req.skill, arrivals[j].req.session;
    var before := Run(h, kv, arrivals[..j]);
    TraceOfPrefix(h, kv, arrivals, j);
    assert ReadStep(h, before.kv, at, skill, text).Value?;
    AdmittedIsIssuedForm(h, skill, text);
    CheckpointEntry(h, kv, arrivals[..j], Admit(h, skill, text).1, skill);
  }

  function Presented(h: Host, req: Request): Option<string> {
    if req.ReadCheckpoint? || req.WriteCheckpoint? then h.gate.sanitize(req.session) else None
  }

  /** The request presents an id with these MAC bytes, in whatever spelling they decode from. */
  predicate PresentsMac(h: Host, req: Request, id: string, signature: string, mac: seq<Byte>) {
    IsUuidV4(id) && Presented(h, req) == Some(id + ['.'] + signature) && Decode(signature) == Some(mac)
  }

  /** The MAC is not forged: nobody has the MAC of an id that was not signed for a session before. */
  ghost predicate Unforged(h: Host, signer: Signer, trace: seq<Served>) {
    forall j, id, signature | 0 <= j < |trace| && PresentsMac(h, trace[j].req, id, signature, signer.mac(id)) ::
      exists i :: 0 <= i < j && trace[i].req == CreateSession(id)
  }

  /** A request that reaches the store presents the token of some id, with the MAC of that id. */
  lemma StoreRepliesNeedAMac(h: Host, signer: Signer, kv: Kv, at: int, req: Request) returns (id: string)
    requires h.gate == GateOf(Some(signer)) && signer.Sized()
    requires var reply := Step(h, kv, at, req).1; reply.Value? || reply.Written?
    ensures Presented(h, req) == Some(Token(signer, id))
    ensures PresentsMac(h, req, id, Encode(signer.mac(id)), signer.mac(id))
  {
    var s := Presented(h, req).value;
    assert HasSession(Some(signer), s);
    id := s[..LastIndexOf(s, '.')];
    AcceptedIsToken(signer, s);
    DecodeInvertsEncode(signer.mac(id));
  }

  /**
   If no MAC is forged, a read or a write reaches the store only under the very text createSession
   returned before: the canonical check leaves no second spelling of its MAC.
   */
  lemma OnlyIssuedSessionsReachTheStore(h: Host, signer: Signer, kv: Kv, arrivals: seq<Arrival>, j: nat)
    requires h.gate == GateOf(Some(signer)) && signer.Sized()
    requires j < |arrivals| && Unforged(h, signer, Run(h, kv, arrivals).trace)
    requires var e := Run(h, kv, arrivals).trace[j]; e.reply.Value? || e.reply.Written?
    ensures var trace := Run(h, kv, arrivals).trace;
            exists i :: 0 <= i < j && trace[i].req.CreateSession? && trace[i].reply.Issued?
                        && Presented(h, trace[j].req) == Some(trace[i].reply.token)
  {
    var trace := Run(h, kv, arrivals).trace;
    TraceOfPrefix(h, kv, arrivals, j);
    var id := StoreRepliesNeedAMac(h, signer, Run(h, kv, arrivals[..j]).kv, arrivals[j].at, arrivals[j].req);
    assert PresentsMac(h, trace[j].req, id, Encode(signer.mac(id)), signer.mac(id));
    var i :| 0 <= i < j && trace[i].req == CreateSession(id);
    SignedSessionsAreIssued(h, signer, kv, arrivals, i, id);
  }

  lemma SignedSessionsAreIssued(h: Host, signer: Signer, kv: Kv, arrivals: seq<Arrival>, i: nat, id: string)
    requires h.gate == GateOf(Some(signer)) && i < |arrivals|
    requires Run(h, kv, arrivals).trace[i].req == CreateSession(id)
    ensures Run(h, kv, arrivals).trace[i].reply == Issued(Token(signer, id))
  {
    TraceOfPrefix(h, kv, arrivals, i);
  }

  lemma KeylessStep(h: Host, kv: Kv, at: int, req: Request)
    requires h.gate == GateOf(None)
    ensures var reply := Step(h, kv, at, req).1; !reply.Value? && !reply.Written? && !reply.Issued?
  {
    assert forall s: string :: !h.gate.accepts(s);
  }

  /** Without a signing key nothing reaches the store at all. */
  lemma NothingIsReachedWithoutAKey(h: Host, kv: Kv, arrivals: seq<Arrival>, j: nat)
    requires h.gate == GateOf(None) && j < |arrivals|
    ensures var reply := Run(h, kv, arrivals).trace[j].reply; !reply.Value? && !reply.Written? && !reply.Issued?
  {
    TraceOfPrefix(h, kv, arrivals, j);
    KeylessStep(h, Run(h, kv, arrivals[..j]).kv, arrivals[j].at, arrivals[j].req);
  }
}
