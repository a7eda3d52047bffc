/**
 What the hosted handlers grant, over whole runs: a new voter's vote is accepted and everyone else's
 is not; a limiter refuses exactly when its limit is used up.
 */
module HostedReplies {
  import opened Text
  import opened JsonValues
  import opened Namespace
  import opened Hosted
  import opened HostedRuns

  // ---- votes ----

  /** No lock of the pair lives on its day in the namespace a run starts from. */
  predicate Unlocked(h: Host, kv: Kv, issue: string, v: (int, string)) {
    var lock := Find(kv, VoteLock(issue, h.date(v.0), v.1));
    lock.Some? && lock.value.value != "" ==> lock.value.expires.Some? && lock.value.expires.value <= v.0 * DAY
  }

  /** The lock of a pair is touched by nothing but an accepted vote of the pair. */
  lemma LockIsTouchedByItsVote(h: Host, kv: Kv, at: int, req: Request, issue: string, day: int, ip: string)
    requires h.Lawful() && IsIssue(issue)
    requires !(Accepts(Served(at, req, Step(h, kv, at, req).1), issue) && at / DAY == day && req.ip == ip)
    ensures var key := VoteLock(issue, h.date(day), ip); Find(Step(h, kv, at, req).0, key) == Find(kv, key)
  {
    var key := VoteLock(issue, h.date(day), ip);
    if key in Touched(h, at, req) {
      assert req == Vote(issue, ip) && h.date(at / DAY) == h.date(day);
      assert at / DAY == day;
    } else {
      StepFrame(h, kv, at, req, key);
    }
  }

  lemma {:induction false} LockBeforeVote(h: Host, kv: Kv, arrivals: seq<Arrival>, issue: string, v: (int, string))
    requires h.Lawful() && IsIssue(issue)
    requires v !in Voters(Run(h, kv, arrivals).trace, issue)
    ensures var key := VoteLock(issue, h.date(v.0), v.1); Find(Run(h, kv, arrivals).kv, key) == Find(kv, key)
  {
    if arrivals != [] {
      var n := |arrivals| - 1;
      var before, a := Run(h, kv, arrivals[..n]), arrivals[n];
      VotersAfter(before.trace, Served(a.at, a.req, Step(h, before.kv, a.at, a.req).1), issue);
      LockBeforeVote(h, kv, arrivals[..n], issue, v);
      LockIsTouchedByItsVote(h, before.kv, a.at, a.req, issue, v.0, v.1);
    }
  }

  /** What a vote is answered, by whether its pair has a live lock. */
  lemma VoteAnswer(h: Host, kv: Kv, at: int, issue: string, ip: string)
    requires IsIssue(issue) && Lasting(kv, issue)
    ensures var lock := Find(kv, VoteLock(issue, h.date(at / DAY), ip));
            var live := lock.Some? && lock.value.value != ""
                        && (lock.value.expires.Some? ==> at < lock.value.expires.value);
            VoteStep(h, kv, at, issue, ip).1 ==
            if live then Voted(Count(h, kv, issue), true) else Voted(Count(h, kv, issue) + 1, false)
  {
  }

  /** In a world where exactly the accepted pairs have a lock that outlives their day. */
  lemma PairAnswer(h: Host, kv: Kv, w: World, at: int, issue: string, ip: string)
    requires IsIssue(issue) && Lasting(w.kv, issue) && LocksOutliveTheirDay(h, w, issue)
    requires Unlocked(h, kv, issue, (at / DAY, ip))
    requires (at / DAY, ip) !in Voters(w.trace, issue) ==>
      var key := VoteLock(issue, h.date(at / DAY), ip); Find(w.kv, key) == Find(kv, key)
    ensures var known := (at / DAY, ip) in Voters(w.trace, issue);
            VoteStep(h, w.kv, at, issue, ip).1 == Voted(Count(h, w.kv, issue) + (if known then 0 else 1), known)
  {
    var pair := (at / DAY, ip);
    VoteAnswer(h, w.kv, at, issue, ip);
    DayHolds(at);
    if pair in Voters(w.trace, issue) {
      assert Locked(h, w.kv, issue, pair);
    }
  }

  /**
   Votes are answered exactly: in every run a vote of a pair without a lock at the start is accepted
   if and only if its (day, IP hash) pair was not accepted before, and the answer carries the initial
   count, one for each pair accepted before, and one for itself if it is.
   */
  lemma VotesAreAnswered(h: Host, kv: Kv, arrivals: seq<Arrival>, j: nat)
    requires h.Lawful() && j < |arrivals| && arrivals[j].req.Vote? && IsIssue(arrivals[j].req.issue)
    requires Lasting(kv, arrivals[j].req.issue)
    requires Unlocked(h, kv, arrivals[j].req.issue, (arrivals[j].at / DAY, arrivals[j].req.ip))
    ensures var trace, issue := Run(h, kv, arrivals).trace, arrivals[j].req.issue;
            var before := Voters(trace[..j], issue);
            var known := (arrivals[j].at / DAY, arrivals[j].req.ip) in before;
            trace[j].reply == Voted(Count(h, kv, issue) + |before| + (if known then 0 else 1), known)
  {
    var at, issue, ip := arrivals[j].at, arrivals[j].req.issue, arrivals[j].req.ip;
    var before := Run(h, kv, arrivals[..j]);
    TraceOfPrefix(h, kv, arrivals, j);
    VotesInvariant(h, kv, arrivals[..j], issue);
    if (at / DAY, ip) !in Voters(before.trace, issue) {
      LockBeforeVote(h, kv, arrivals[..j], issue, (at / DAY, ip));
    }
    PairAnswer(h, kv, before, at, issue, ip);
  }

  lemma DayHolds(at: int)
    ensures at / DAY * DAY <= at < (at / DAY + 1) * DAY
  {
  }

  /** An issue nobody has voted on counts nothing, and one of a stored count counts that. */
  lemma InitialCounts(h: Host, kv: Kv, issue: string, n: nat)
    requires h.Lawful()
    ensures Find(kv, VoteCount(issue)).None? ==> Count(h, kv, issue) == 0
    ensures Find(kv, VoteCount(issue)) == Some(Entry(h.show(n), None)) ==> Count(h, kv, issue) == n
  {
  }

  // ---- limiters ----

  /** The passes since the limiter last lapsed: each within one TTL of the one before. */
  function Streak(trace: seq<Served>, limiter: Limiter, ip: string): nat {
    if trace == [] then 0
    else
      var shorter, e := trace[..|trace| - 1], trace[|trace| - 1];
      if !Passes(e, limiter, ip) then Streak(shorter, limiter, ip)
      else if Open(shorter, limiter, ip, e.at) then Streak(shorter, limiter, ip) + 1
      else 1
  }

  /** The last pass is less than a minute ago, or less than an hour. */
  predicate Open(trace: seq<Served>, limiter: Limiter, ip: string, at: int) {
    var last := LastPass(trace, limiter, ip);
    last.Some? && at < last.value + if limiter.NotifyLimiter? then 60 * 1000 else 3600 * 1000
  }

  /** The counter holds the streak until it lapses. */
  predicate HoldsStreak(h: Host, kv: Kv, trace: seq<Served>, limiter: Limiter, ip: string) {
    var e, last := Find(kv, limiter.KeyFor(ip)), LastPass(trace, limiter, ip);
    if last.None? then e.None?
    else e == Some(Entry(h.show(Streak(trace, limiter, ip)), Some(last.value + limiter.Ttl())))
  }

  lemma StreakStep(h: Host, w: World, kv: Kv, e: Served, limiter: Limiter, ip: string)
    requires h.Lawful() && HoldsStreak(h, w.kv, w.trace, limiter, ip)
    requires Counted(h, w.kv, kv, Passes(e, limiter, ip), e.at, limiter, ip)
    ensures HoldsStreak(h, kv, w.trace + [e], limiter, ip)
  {
    assert (w.trace + [e])[..|w.trace|] == w.trace;
  }

  lemma {:induction false} CounterIsStreak(h: Host, kv: Kv, arrivals: seq<Arrival>, limiter: Limiter, ip: string)
    requires h.Lawful() && Find(kv, limiter.KeyFor(ip)).None?
    ensures var w := Run(h, kv, arrivals); HoldsStreak(h, w.kv, w.trace, limiter, ip)
  {
    if arrivals != [] {
      var n := |arrivals| - 1;
      var before, a := Run(h, kv, arrivals[..n]), arrivals[n];
      CounterIsStreak(h, kv, arrivals[..n], limiter, ip);
      LimitTouches(h, before.kv, a.at, a.req, limiter, ip);
      var (kv', reply) := Step(h, before.kv, a.at, a.req);
      StreakStep(h, before, kv', Served(a.at, a.req, reply), limiter, ip);
    }
  }

  predicate Limits(req: Request, limiter: Limiter, ip: string) {
    match limiter
    case NotifyLimiter => req.Notify? && req.ip == ip
    case RoadmapLimiter => req.Roadmap? && req.ip == ip
  }

  lemma LimitAnswer(h: Host, kv: Kv, at: int, req: Request, limiter: Limiter, ip: string)
    requires Limits(req, limiter, ip)
    ensures Step(h, kv, at, req).1 == if Counter(h, kv, at, limiter, ip) < limiter.Max() then Passed else Limited
  {
  }

  /**
   Limits are exact: in every run from an unused limiter a request is refused if and only if its
   limiter is open and already has its three (or five) passes in the current streak.
   */
  lemma LimitsAreAnswered(h: Host, kv: Kv, arrivals: seq<Arrival>, j: nat, limiter: Limiter, ip: string)
    requires h.Lawful() && j < |arrivals| && Limits(arrivals[j].req, limiter, ip)
    requires Find(kv, limiter.KeyFor(ip)).None?
    ensures var trace := Run(h, kv, arrivals).trace;
            var full := Open(trace[..j], limiter, ip, arrivals[j].at)
                        && Streak(trace[..j], limiter, ip) >= if limiter.NotifyLimiter? then 3 else 5;
            trace[j].reply == if full then Limited else Passed
  {
    var before := Run(h, kv, arrivals[..j]);
    TraceOfPrefix(h, kv, arrivals, j);
    CounterIsStreak(h, kv, arrivals[..j], limiter, ip);
    LimitAnswer(h, before.kv, arrivals[j].at, arrivals[j].req, limiter, ip);
  }
}
