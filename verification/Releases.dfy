/** Which release a moment belongs to: three window schemes over sorted release times, and PR inference. */
module Releases {
  import opened Text

  /** A tag or release commit; times are seconds in UTC. */
  datatype Release = Release(name: string, at: int)

  predicate Sorted(rs: seq<Release>) { forall i, j | 0 <= i < j < |rs| :: rs[i].at <= rs[j].at }

  /** Window `i` is half-open: from its release up to the next, the last without end. */
  predicate Within(rs: seq<Release>, i: nat, ts: int) {
    && i < |rs|
    && rs[i].at <= ts
    && (i + 1 < |rs| ==> ts < rs[i + 1].at)
  }

  /** Every moment from the first release on lies in exactly one window, and a later one in no earlier window. */
  lemma {:induction false} WindowsPartitionTime(rs: seq<Release>, ts: int)
    requires Sorted(rs)
    ensures (exists i: nat :: Within(rs, i, ts)) <==> rs != [] && rs[0].at <= ts
    ensures forall i: nat, j: nat :: Within(rs, i, ts) && Within(rs, j, ts) ==> i == j
    ensures forall i: nat, j: nat, later: int :: Within(rs, i, ts) && Within(rs, j, later) && ts <= later ==> i <= j
  {
    if rs != [] && rs[0].at <= ts {
      var last := |rs| - 1;
      if rs[last].at <= ts {
        assert Within(rs, last, ts);
      } else {
        WindowsPartitionTime(rs[..last], ts);
        var i: nat :| Within(rs[..last], i, ts);
        assert Within(rs, i, ts);
      }
    }
  }

  datatype Window = Before | In(i: nat) | FellThrough

  /** changelog_release_for, with its last line as FellThrough: sorted windows never reach it. */
  method ChangelogReleaseFor(rs: seq<Release>, ts: Option<int>) returns (w: Window)
    requires Sorted(rs)
    ensures w != FellThrough
    ensures w == Before <==> rs == [] || ts.None? || ts.value < rs[0].at
    ensures w.In? ==> ts.Some? && Within(rs, w.i, ts.value)
  {
    if rs == [] || ts.None? || ts.value < rs[0].at { return Before; }
    for i := 0 to |rs|
      invariant rs[0].at <= ts.value
      invariant forall j: nat | j < i :: !Within(rs, j, ts.value)
    {
      var hi := if i + 1 < |rs| then Some(rs[i + 1].at) else None;
      if ts.value >= rs[i].at && (hi.None? || ts.value < hi.value) { return In(i); }
    }
    WindowsPartitionTime(rs, ts.value);
    w := FellThrough;
  }

  /** release_for: the same windows, found by walking the tags until one is later. */
  method ReleaseFor(tags: seq<Release>, ts: Option<int>) returns (w: Window)
    requires Sorted(tags)
    ensures w == Before <==> tags == [] || ts.None? || ts.value < tags[0].at
    ensures w == Before || (w.In? && ts.Some? && Within(tags, w.i, ts.value))
  {
    if tags == [] || ts.None? || ts.value < tags[0].at { return Before; }
    var rel := 0;
    for i := 0 to |tags|
      invariant rel < |tags| && tags[rel].at <= ts.value
      invariant rel == if i == 0 then 0 else i - 1
    {
      if ts.value >= tags[i].at { rel := i; } else { break; }
    }
    w := In(rel);
  }

  /** The upward windows of the ledger: `i` is the first release at or after the moment. */
  predicate Toward(rs: seq<Release>, i: nat, ts: int) {
    && i < |rs|
    && ts <= rs[i].at
    && (i > 0 ==> rs[i - 1].at < ts)
  }

  /** release_of: the release worked toward, or None after the last. */
  method ReleaseOf(rs: seq<Release>, ts: int) returns (i: Option<nat>)
    requires Sorted(rs)
    ensures i.Some? ==> Toward(rs, i.value, ts)
    ensures i.None? <==> forall j | 0 <= j < |rs| :: rs[j].at < ts
  {
    for j := 0 to |rs|
      invariant forall k | 0 <= k < j :: rs[k].at < ts
    {
      if ts <= rs[j].at { return Some(j); }
    }
    i := None;
  }

  /**
   The two schemes set side by side: between releases, the work toward a release is done while the
   one before it is live; at the very moment of a release they name the same one.
   */
  lemma TowardFollowsLive(rs: seq<Release>, i: nat, j: nat, ts: int)
    requires Sorted(rs) && (forall a, b | 0 <= a < b < |rs| :: rs[a].at < rs[b].at)
    requires Within(rs, i, ts) && Toward(rs, j, ts)
    ensures j == if rs[i].at == ts then i else i + 1
  {
    if j > i { assert ts < rs[i + 1].at; }
  }

  // ---- inferring a PR by time ----

  datatype Pr = Pr(number: int, merged: int)

  function Distance(p: Pr, ts: int): int { if p.merged >= ts then p.merged - ts else ts - p.merged }

  /** infer_pr: the first of the nearest merged PRs, if within the limit. */
  method InferPr(prs: seq<Pr>, ts: Option<int>, limit: int) returns (r: Option<Pr>)
    ensures r.Some? <==> ts.Some? && exists p <- prs :: Distance(p, ts.value) <= limit
    ensures r.Some? ==>
      exists i :: 0 <= i < |prs| && prs[i] == r.value
        && (forall j | 0 <= j < |prs| :: Distance(prs[i], ts.value) <= Distance(prs[j], ts.value))
        && (forall j | 0 <= j < i :: Distance(prs[i], ts.value) < Distance(prs[j], ts.value))
  {
    if ts.None? || prs == [] { return None; }
    var best := 0;
    for i := 0 to |prs|
      invariant best < |prs| && (best == 0 || best < i)
      invariant forall j | 0 <= j < i :: Distance(prs[best], ts.value) <= Distance(prs[j], ts.value)
      invariant forall j | 0 <= j < best :: Distance(prs[best], ts.value) < Distance(prs[j], ts.value)
    {
      if Distance(prs[i], ts.value) < Distance(prs[best], ts.value) { best := i; }
    }
    if Distance(prs[best], ts.value) <= limit { return Some(prs[best]); }
    forall p <- prs ensures Distance(p, ts.value) > limit {
      var j :| 0 <= j < |prs| && prs[j] == p;
    }
    r := None;
  }

  /** A merged PR's window of work. */
  datatype Merged = Merged(number: int, created: int, merged: int)
  {
    predicate Covers(ts: int) { created <= ts <= merged }
    predicate NoLater(q: Merged) { merged < q.merged || (merged == q.merged && number <= q.number) }
  }

  /** aggregate.py's infer_pr: of the windows that cover the moment, the first to merge, then the lowest number. */
  function InferWithin(prs: seq<Merged>, ts: int): Option<Merged> {
    if prs == [] then None
    else
      var before, p := InferWithin(prs[..|prs| - 1], ts), prs[|prs| - 1];
      if p.Covers(ts) && (before.None? || !before.value.NoLater(p)) then Some(p) else before
  }

  lemma {:induction false} InferWithinIsEarliest(prs: seq<Merged>, ts: int)
    ensures InferWithin(prs, ts).Some? <==> exists p <- prs :: p.Covers(ts)
    ensures InferWithin(prs, ts).Some? ==>
      var r := InferWithin(prs, ts).value;
      r in prs && r.Covers(ts) && forall p <- prs :: p.Covers(ts) ==> r.NoLater(p)
  {
    if prs != [] {
      var shorter, p := prs[..|prs| - 1], prs[|prs| - 1];
      InferWithinIsEarliest(shorter, ts);
      assert prs == shorter + [p] && p in prs;
      if q :| q in shorter && q.Covers(ts) { assert q in prs; }
    }
  }

  /** So the order in which the PRs were fetched does not matter, up to PRs that agree on both. */
  lemma InferenceIgnoresOrder(prs: seq<Merged>, other: seq<Merged>, ts: int)
    requires forall p :: p in prs <==> p in other
    requires forall p <- prs, q <- prs :: p.number == q.number ==> p == q
    ensures InferWithin(prs, ts) == InferWithin(other, ts)
  {
    InferWithinIsEarliest(prs, ts);
    InferWithinIsEarliest(other, ts);
    if p :| p in prs && p.Covers(ts) { assert p in other; }
    if p :| p in other && p.Covers(ts) { assert p in prs; }
  }
}
