/** The one key-value namespace of the hosted worker: its key families, its entries, its clock. */
module Namespace {
  import opened Text

  datatype Key =
    | VoteCount(issue: string)
    | VoteLock(issue: string, day: string, ip: string)
    | Lead(email: string)
    | NotifyLimit(ip: string)
    | RoadmapLimit(ip: string)
    | Checkpoint(session: string, skill: string)

  function Name(k: Key): string {
    match k
    case VoteCount(issue) => "vote-count:" + issue
    case VoteLock(issue, day, ip) => "vote-lock:" + (issue + [':'] + (day + [':'] + ip))
    case Lead(email) => "lead:" + email
    case NotifyLimit(ip) => "ratelimit:notify:" + ip
    case RoadmapLimit(ip) => "ratelimit:roadmap-request:" + ip
    case Checkpoint(session, skill) => "mcp-checkpoint:" + (session + [':'] + skill)
  }

  /** The parts a colon follows hold no colon: issue numbers, dates and accepted sessions. */
  predicate Splittable(k: Key) {
    match k
    case VoteLock(issue, day, _) => ':' !in issue && ':' !in day
    case Checkpoint(session, _) => ':' !in session
    case _ => true
  }

  function Prefix(k: Key): string {
    match k
    case VoteCount(_) => "vote-count:"
    case VoteLock(_, _, _) => "vote-lock:"
    case Lead(_) => "lead:"
    case NotifyLimit(_) => "ratelimit:notify:"
    case RoadmapLimit(_) => "ratelimit:roadmap-request:"
    case Checkpoint(_, _) => "mcp-checkpoint:"
  }

  function Rest(k: Key): string {
    match k
    case VoteCount(issue) => issue
    case VoteLock(issue, day, ip) => issue + [':'] + (day + [':'] + ip)
    case Lead(email) => email
    case NotifyLimit(ip) => ip
    case RoadmapLimit(ip) => ip
    case Checkpoint(session, skill) => session + [':'] + skill
  }

  /** No family prefix starts another one's keys. */
  lemma PrefixesDiverge(a: Key, b: Key)
    ensures Prefix(a) != Prefix(b) ==>
      exists i :: 0 <= i < |Prefix(a)| && i < |Prefix(b)| && Prefix(a)[i] != Prefix(b)[i]
  {
    if Prefix(a) != Prefix(b) {
      var p, q := Prefix(a), Prefix(b);
      var i := if p[0] != q[0] then 0 else if p[5] != q[5] then 5 else 10;
      assert p[i] != q[i];
    }
  }

  /** The families are pairwise disjoint, and each is injective in its parts. */
  lemma NamesAreInjective(a: Key, b: Key)
    requires Splittable(a) && Splittable(b) && Name(a) == Name(b)
    ensures a == b
  {
    var p, q := Prefix(a), Prefix(b);
    assert Name(a) == p + Rest(a) && Name(b) == q + Rest(b);
    PrefixesDiverge(a, b);
    assert forall i | 0 <= i < |p| :: p[i] == Name(a)[i];
    assert forall i | 0 <= i < |q| :: q[i] == Name(b)[i];
    assert p == q && Rest(a) == Rest(b) by {
      assert Name(a)[|p|..] == Rest(a) && Name(b)[|q|..] == Rest(b);
    }
    SamePrefixSameFamily(a, b);
    match a
    case VoteLock(issue, day, ip) =>
      SplitIsUnique(issue, day + [':'] + ip, b.issue, b.day + [':'] + b.ip, ':');
      SplitIsUnique(day, ip, b.day, b.ip, ':');
    case Checkpoint(session, skill) =>
      SplitIsUnique(session, skill, b.session, b.skill, ':');
    case _ =>
  }

  lemma SamePrefixSameFamily(a: Key, b: Key)
    requires Prefix(a) == Prefix(b)
    ensures a.VoteCount? == b.VoteCount? && a.VoteLock? == b.VoteLock? && a.Lead? == b.Lead?
    ensures a.NotifyLimit? == b.NotifyLimit? && a.RoadmapLimit? == b.RoadmapLimit? && a.Checkpoint? == b.Checkpoint?
  {
    assert |"vote-count:"| == 11 && |"vote-lock:"| == 10 && |"lead:"| == 5 && |"ratelimit:notify:"| == 17
        && |"ratelimit:roadmap-request:"| == 26 && |"mcp-checkpoint:"| == 15;
  }

  // ---- entries ----

  /** A stored value and the moment it lapses, if it does. */
  datatype Entry = Entry(value: string, expires: Option<int>)

  type Kv = map<string, Entry>

  function Find(kv: Kv, k: Key): Option<Entry> {
    if Name(k) in kv then Some(kv[Name(k)]) else None
  }

  /** `get` at a moment: a lapsed entry reads as absent. */
  function Get(kv: Kv, k: Key, now: int): Option<string> {
    match Find(kv, k)
    case None => None
    case Some(e) => if e.expires.Some? && e.expires.value <= now then None else Some(e.value)
  }

  function Put(kv: Kv, k: Key, value: string, expires: Option<int>): Kv {
    kv[Name(k) := Entry(value, expires)]
  }

  lemma PutElsewhere(kv: Kv, k: Key, value: string, expires: Option<int>, other: Key)
    requires Splittable(k) && Splittable(other) && k != other
    ensures Find(Put(kv, k, value, expires), other) == Find(kv, other)
  {
    if Name(k) == Name(other) { NamesAreInjective(k, other); }
  }
}
