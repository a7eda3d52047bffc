/**
 The hosted worker's handlers over its key-value namespace, one request at a time: votes, the two
 rate limiters, leads, and session-scoped checkpoints. Times are milliseconds since the epoch.
 */
module Hosted {
  import opened Text
  import opened JsonValues
  import opened Namespace
  import opened SessionToken

  const SECOND := 1000
  const HOUR := 3600 * SECOND
  const DAY := 24 * HOUR
  const VOTE_TTL := 25 * HOUR
  const LEAD_TTL := 365 * DAY
  const CHECKPOINT_TTL := 30 * DAY
  const MAX_CHECKPOINT_BYTES := 64 * 1024

  /** What the platform supplies: dates and decimal numbers as text, JSON, UTF-8 length, the MAC. */
  datatype Host = Host(
    date: int -> string,             // ISO date of a UTC day
    show: int -> string,             // String(n)
    parseCount: string -> int,       // parseInt(s, 10) || 0
    parseNumber: string -> int,      // Number(s) || 0
    codec: Codec,
    bytes: string -> nat,
    gate: Gate,                      // session tokens; see SessionToken.GateOf
    skills: set<string>)
  {
    ghost predicate Lawful() {
      && (forall d: int, e: int :: date(d) == date(e) ==> d == e)
      && (forall d: int :: ':' !in date(d))
      && (forall n: int :: parseCount(show(n)) == n && parseNumber(show(n)) == n)
      && (forall n: int :: show(n) != "") && parseCount("0") == 0
      && (forall v: Json :: codec.stringify(v) != "" && codec.parse(codec.stringify(v)) == Some(v))
      && gate.Lawful()
    }
  }

  datatype Limiter = NotifyLimiter | RoadmapLimiter {
    function Max(): nat { if NotifyLimiter? then 3 else 5 }
    function Ttl(): nat { if NotifyLimiter? then 60 * SECOND else HOUR }
    function KeyFor(ip: string): Key { if NotifyLimiter? then NotifyLimit(ip) else RoadmapLimit(ip) }
  }

  datatype Request =
    | Vote(issue: string, ip: string)
    | Notify(ip: string, email: string, record: string)
    | Roadmap(ip: string)
    | CreateSession(uuid: string)
    | ReadCheckpoint(skill: string, session: Option<Json>)
    | WriteCheckpoint(skill: string, session: Option<Json>, checkpoint: Json)

  datatype Reply =
    | BadIssue
    | Voted(count: nat, already: bool)
    | Passed
    | Limited
    | Issued(token: string)
    | Unavailable              // no signing key
    | UnknownSkill
    | BadCheckpoint
    | BadSession               // not of token shape
    | UnknownSession           // not accepted by the signer
    | TooLarge
    | Value(checkpoint: Option<Json>)
    | Written

  /** `/^\d{1,6}$/` */
  predicate IsIssue(s: string) { 1 <= |s| <= 6 && forall c <- s :: IsDigit(c) }

  function Max(a: int, b: int): int { if a < b then b else a }

  function CurrentCount(h: Host, raw: Option<string>): nat {
    if raw.None? || raw.value == "" then Max(0, h.parseCount("0")) else Max(0, h.parseCount(raw.value))
  }

  // ---- specification of each handler: the namespace after it, and its reply ----

  function VoteStep(h: Host, kv: Kv, now: int, issue: string, ip: string): (Kv, Reply) {
    if !IsIssue(issue) then (kv, BadIssue)
    else
      var lock := VoteLock(issue, h.date(now / DAY), ip);
      var existing := Get(kv, lock, now);
      var current := CurrentCount(h, Get(kv, VoteCount(issue), now));
      if existing.Some? && existing.value != "" then (kv, Voted(current, true))
      else
        (Put(Put(kv, lock, "1", Some(now + VOTE_TTL)), VoteCount(issue), h.show(current + 1), None),
         Voted(current + 1, false))
  }

  function LimitStep(h: Host, kv: Kv, now: int, limiter: Limiter, ip: string): (Kv, bool) {
    var key := limiter.KeyFor(ip);
    var raw := Get(kv, key, now);
    var current := if raw.None? then 0 else h.parseNumber(raw.value);
    if current >= limiter.Max() then (kv, false)
    else (Put(kv, key, h.show(current + 1), Some(now + limiter.Ttl())), true)
  }

  function NotifyStep(h: Host, kv: Kv, now: int, ip: string, email: string, record: string): (Kv, Reply) {
    var (kv', pass) := LimitStep(h, kv, now, NotifyLimiter, ip);
    if pass then (Put(kv', Lead(email), record, Some(now + LEAD_TTL)), Passed) else (kv', Limited)
  }

  function RoadmapStep(h: Host, kv: Kv, now: int, ip: string): (Kv, Reply) {
    var (kv', pass) := LimitStep(h, kv, now, RoadmapLimiter, ip);
    (kv', if pass then Passed else Limited)
  }

  /** The refusal a checkpoint call meets before the store, or the admitted session. */
  function Admit(h: Host, skill: string, session: Option<Json>): (Option<Reply>, string) {
    var s := h.gate.sanitize(session);
    if skill !in h.skills then (Some(UnknownSkill), "")
    else if s.None? then (Some(BadSession), "")
    else if !h.gate.accepts(s.value) then (Some(UnknownSession), "")
    else (None, s.value)
  }

  function Parsed(h: Host, raw: Option<string>): Option<Json> {
    if raw.None? || raw.value == "" then None else h.codec.parse(raw.value)
  }

  function ReadStep(h: Host, kv: Kv, now: int, skill: string, session: Option<Json>): Reply {
    var (refusal, s) := Admit(h, skill, session);
    if refusal.Some? then refusal.value else Value(Parsed(h, Get(kv, Checkpoint(s, skill), now)))
  }

  function WriteStep(h: Host, kv: Kv, now: int, skill: string, session: Option<Json>, checkpoint: Json): (Kv, Reply) {
    var (refusal, s) := Admit(h, skill, session);
    var text := h.codec.stringify(checkpoint);
    if refusal == Some(UnknownSkill) then (kv, UnknownSkill)
    else if !checkpoint.Obj? then (kv, BadCheckpoint)
    else if refusal.Some? then (kv, refusal.value)
    else if h.bytes(text) > MAX_CHECKPOINT_BYTES then (kv, TooLarge)
    else (Put(kv, Checkpoint(s, skill), text, Some(now + CHECKPOINT_TTL)), Written)
  }

  function Step(h: Host, kv: Kv, now: int, req: Request): (Kv, Reply) {
    match req
    case Vote(issue, ip) => VoteStep(h, kv, now, issue, ip)
    case Notify(ip, email, record) => NotifyStep(h, kv, now, ip, email, record)
    case Roadmap(ip) => RoadmapStep(h, kv, now, ip)
    case CreateSession(uuid) =>
      (kv, if h.gate.issue(uuid).None? then Unavailable else Issued(h.gate.issue(uuid).value))
    case ReadCheckpoint(skill, session) => (kv, ReadStep(h, kv, now, skill, session))
    case WriteCheckpoint(skill, session, checkpoint) => WriteStep(h, kv, now, skill, session, checkpoint)
  }

  // ---- which reply answers which request, by its arguments ----

  /** The session text is of token shape and accepted by the signer. */
  predicate Accepted(h: Host, session: Option<Json>) {
    h.gate.sanitize(session).Some? && h.gate.accepts(h.gate.sanitize(session).value)
  }

  predicate SessionRefused(h: Host, session: Option<Json>, r: Reply) {
    if h.gate.sanitize(session).None? then r == BadSession else r == UnknownSession
  }

  /** Stored exactly within the catalog, for an object, under an accepted session, and up to 64 KiB. */
  predicate WriteAnswer(h: Host, skill: string, session: Option<Json>, checkpoint: Json, r: Reply) {
    && (r == Written <==>
          && skill in h.skills && checkpoint.Obj? && Accepted(h, session)
          && h.bytes(h.codec.stringify(checkpoint)) <= 65536)
    && (skill !in h.skills ==> r == UnknownSkill)
    && (skill in h.skills && !checkpoint.Obj? ==> r == BadCheckpoint)
    && (skill in h.skills && checkpoint.Obj? && !Accepted(h, session) ==> SessionRefused(h, session, r))
    && (skill in h.skills && checkpoint.Obj? && Accepted(h, session) ==> r == Written || r == TooLarge)
  }

  predicate ReadAnswer(h: Host, skill: string, session: Option<Json>, r: Reply) {
    && (r.Value? <==> skill in h.skills && Accepted(h, session))
    && (skill !in h.skills ==> r == UnknownSkill)
    && (skill in h.skills && !Accepted(h, session) ==> SessionRefused(h, session, r))
  }

  lemma WritesAreAnswered(h: Host, kv: Kv, now: int, skill: string, session: Option<Json>, checkpoint: Json)
    ensures var (kv', r) := WriteStep(h, kv, now, skill, session, checkpoint);
            && WriteAnswer(h, skill, session, checkpoint, r)
            && (r == Written ==>
                  kv' == kv[Name(Checkpoint(h.gate.sanitize(session).value, skill)) :=
                            Entry(h.codec.stringify(checkpoint), Some(now + 30 * 24 * 3600 * 1000))])
            && (r != Written ==> kv' == kv)
  {
  }

  lemma ReadsAreAnswered(h: Host, kv: Kv, now: int, skill: string, session: Option<Json>)
    ensures var r := ReadStep(h, kv, now, skill, session);
            && ReadAnswer(h, skill, session, r)
            && (r.Value? ==>
                  var key := Name(Checkpoint(h.gate.sanitize(session).value, skill));
                  var live := key in kv && (kv[key].expires.Some? ==> now < kv[key].expires.value);
                  r.checkpoint == if live && kv[key].value != "" then h.codec.parse(kv[key].value) else None)
  {
  }

  /** A submission that passes leaves its lead for a year; a limited one leaves nothing. */
  lemma LeadsAreKept(h: Host, kv: Kv, now: int, ip: string, email: string, record: string)
    ensures var (kv', r) := NotifyStep(h, kv, now, ip, email, record);
            && (r == Passed || r == Limited)
            && (r == Passed ==> Find(kv', Lead(email)) == Some(Entry(record, Some(now + 365 * 24 * 3600 * 1000))))
            && (r == Limited ==> kv' == kv)
  {
  }

  // ---- the handlers as the worker runs them: get, then put ----

  class Worker {
    const h: Host
    var kv: Kv

    constructor (h: Host, kv: Kv)
      ensures this.h == h && this.kv == kv
    {
      this.h := h;
      this.kv := kv;
    }

    method HandleVotePost(now: int, issue: string, ip: string) returns (r: Reply)
      modifies this
      ensures (kv, r) == VoteStep(h, old(kv), now, issue, ip)
      ensures r == BadIssue <==> !IsIssue(issue)
    {
      if !IsIssue(issue) { return BadIssue; }
      var lockKey := VoteLock(issue, h.date(now / DAY), ip);
      var existingLock := Get(kv, lockKey, now);
      var currentRaw := Get(kv, VoteCount(issue), now);
      var current := CurrentCount(h, currentRaw);
      if existingLock.Some? && existingLock.value != "" { return Voted(current, true); }
      var next := current + 1;
      kv := Put(kv, lockKey, "1", Some(now + VOTE_TTL));
      kv := Put(kv, VoteCount(issue), h.show(next), None);
      r := Voted(next, false);
    }

    method RateLimit(now: int, limiter: Limiter, ip: string) returns (pass: bool)
      modifies this
      ensures (kv, pass) == LimitStep(h, old(kv), now, limiter, ip)
    {
      var raw := Get(kv, limiter.KeyFor(ip), now);
      var current := if raw.None? then 0 else h.parseNumber(raw.value);
      if current >= limiter.Max() { return false; }
      kv := Put(kv, limiter.KeyFor(ip), h.show(current + 1), Some(now + limiter.Ttl()));
      pass := true;
    }

    method HandleNotify(now: int, ip: string, email: string, record: string) returns (r: Reply)
      modifies this
      ensures (kv, r) == NotifyStep(h, old(kv), now, ip, email, record)
    {
      var pass := RateLimit(now, NotifyLimiter, ip);
      if !pass { return Limited; }
      kv := Put(kv, Lead(email), record, Some(now + LEAD_TTL));
      r := Passed;
    }

    method ReadCheckpointFor(now: int, skill: string, session: Option<Json>) returns (r: Reply)
      ensures r == ReadStep(h, kv, now, skill, session)
      ensures ReadAnswer(h, skill, session, r)
    {
      if skill !in h.skills { return UnknownSkill; }
      var s := h.gate.sanitize(session);
      if s.None? { return BadSession; }
      if !h.gate.accepts(s.value) { return UnknownSession; }
      var raw := Get(kv, Checkpoint(s.value, skill), now);
      if raw.None? || raw.value == "" { return Value(None); }
      r := Value(h.codec.parse(raw.value));
    }

    method WriteCheckpointFor(now: int, skill: string, session: Option<Json>, checkpoint: Json) returns (r: Reply)
      modifies this
      ensures (kv, r) == WriteStep(h, old(kv), now, skill, session, checkpoint)
      ensures WriteAnswer(h, skill, session, checkpoint, r)
    {
      if skill !in h.skills { return UnknownSkill; }
      if !checkpoint.Obj? { return BadCheckpoint; }
      var s := h.gate.sanitize(session);
      if s.None? { return BadSession; }
      if !h.gate.accepts(s.value) { return UnknownSession; }
      var text := h.codec.stringify(checkpoint);
      if h.bytes(text) > MAX_CHECKPOINT_BYTES { return TooLarge; }
      kv := Put(kv, Checkpoint(s.value, skill), text, Some(now + CHECKPOINT_TTL));
      r := Written;
    }
  }

  // ---- runs ----

  datatype Arrival = Arrival(at: int, req: Request)
  datatype Served = Served(at: int, req: Request, reply: Reply)
  datatype World = World(kv: Kv, trace: seq<Served>)

  function Run(h: Host, kv: Kv, arrivals: seq<Arrival>): (w: World)
    ensures |w.trace| == |arrivals|
  {
    if arrivals == [] then World(kv, [])
    else
      var n := |arrivals| - 1;
      var before, a := Run(h, kv, arrivals[..n]), arrivals[n];
      var (kv', reply) := Step(h, before.kv, a.at, a.req);
      World(kv', before.trace + [Served(a.at, a.req, reply)])
  }

  /** Every step of a run, from any world it reaches. */
  lemma {:induction false} TraceOfPrefix(h: Host, kv: Kv, arrivals: seq<Arrival>, j: nat)
    requires j < |arrivals|
    ensures Run(h, kv, arrivals).trace[..j] == Run(h, kv, arrivals[..j]).trace
    ensures Run(h, kv, arrivals).trace[j] ==
      Served(arrivals[j].at, arrivals[j].req, Step(h, Run(h, kv, arrivals[..j]).kv, arrivals[j].at, arrivals[j].req).1)
  {
    var n := |arrivals| - 1;
    if j < n {
      TraceOfPrefix(h, kv, arrivals[..n], j);
      assert arrivals[..n][..j] == arrivals[..j];
    }
  }
}
