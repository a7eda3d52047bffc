/** The fail-closed reader for published handoffs. */
module HandoffReader {
  import opened Text
  import opened JsonValues
  import opened Contract
  import opened Guards
  import opened Validator

  /** What a consumer selects by; None is JavaScript's undefined. */
  datatype Query = Query(kind: string, id: Option<Json>, artifact: Option<Json>)

  predicate Matches(q: Query, h: Json) {
    && IsText(Of(h, "type"), q.kind)
    && (q.id.None? || Identical(Of(h, "id"), q.id))
    && (q.artifact.None?
        || Identical(Prop(Of(h, "artifact"), "id"), q.artifact)
        || Identical(Prop(Of(h, "candidate"), "id"), q.artifact))
  }

  function Filtered(q: Query, handoffs: seq<Json>): (r: seq<Json>)
    ensures forall h <- r :: h in handoffs && Matches(q, h)
  {
    if handoffs == [] then []
    else (if Matches(q, handoffs[0]) then [handoffs[0]] else []) + Filtered(q, handoffs[1..])
  }

  function Handoffs(c: Json): (r: seq<Json>)
    ensures r == [] || Of(c, "handoffs") == Some(Arr(r))
    ensures forall items :: Of(c, "handoffs") == Some(Arr(items)) ==> r == items
  {
    var v := Of(c, "handoffs"); if v.Some? && v.value.Arr? then v.value.items else []
  }

  /** getCheckpointHandoff: the one matching handoff of a valid checkpoint; None where it throws. */
  function Selected(date: DateParse, c: Json, q: Query): Option<Json> {
    if !WellFormed(date, c, None) || q.kind !in HANDOFF_TYPES then None
    else
      var matches := Filtered(q, Handoffs(c));
      if |matches| == 1 then Some(matches[0]) else None
  }

  method FilterHandoffs(q: Query, handoffs: seq<Json>) returns (matches: seq<Json>)
    ensures matches == Filtered(q, handoffs)
  {
    matches := [];
    for i := 0 to |handoffs|
      invariant matches == Filtered(q, handoffs[..i])
    {
      FilteredAppend(q, handoffs[..i], handoffs[i]);
      assert handoffs[..i + 1] == handoffs[..i] + [handoffs[i]];
      if Matches(q, handoffs[i]) { matches := matches + [handoffs[i]]; }
    }
    assert handoffs[..|handoffs|] == handoffs;
  }

  // ---- what a consumer asked for, handoff by handoff ----

  /** The member `name` of the part is this value, which is no array or object. */
  predicate Holds(h: Json, part: string, v: Json) {
    Prop(Of(h, part), "id") == Some(v) && !v.Arr? && !v.Obj?
  }

  /**
   The handoff at `i` has the type, the id if one was given, and the artifact, under either of its names,
   if one was.
   */
  predicate AskedFor(handoffs: seq<Json>, i: nat, kind: string, id: Option<Json>, artifact: Option<Json>) {
    && i < |handoffs|
    && Of(handoffs[i], "type") == Some(Str(kind))
    && (id.Some? ==> Of(handoffs[i], "id") == id && !id.value.Arr? && !id.value.Obj?)
    && (artifact.Some? ==>
          Holds(handoffs[i], "artifact", artifact.value) || Holds(handoffs[i], "candidate", artifact.value))
  }

  /** `h` is at the one index of what was asked for. */
  ghost predicate IsTheOne(handoffs: seq<Json>, q: Query, h: Json) {
    exists i: nat ::
      && AskedFor(handoffs, i, q.kind, q.id, q.artifact) && handoffs[i] == h
      && forall j: nat :: AskedFor(handoffs, j, q.kind, q.id, q.artifact) ==> j == i
  }

  lemma MatchesIsAskedFor(q: Query, handoffs: seq<Json>, i: nat)
    requires i < |handoffs|
    ensures Matches(q, handoffs[i]) <==> AskedFor(handoffs, i, q.kind, q.id, q.artifact)
  {
  }

  /** One match is the one asked for, and the other way round. */
  lemma OneMatchIsTheOne(q: Query, handoffs: seq<Json>, h: Json)
    ensures Filtered(q, handoffs) == [h] <==> IsTheOne(handoffs, q, h)
  {
    if Filtered(q, handoffs) == [h] {
      var i := OneMatch(q, handoffs);
      MatchesIsAskedFor(q, handoffs, i);
      FilteredHolds(q, handoffs, i);
      forall j: nat | AskedFor(handoffs, j, q.kind, q.id, q.artifact) ensures j == i {
        MatchesIsAskedFor(q, handoffs, j);
        if j < i { OneOfEach(q, handoffs, j, i); }
        if i < j { OneOfEach(q, handoffs, i, j); }
      }
    }
    if IsTheOne(handoffs, q, h) {
      var i: nat :| AskedFor(handoffs, i, q.kind, q.id, q.artifact) && handoffs[i] == h
                    && forall j: nat :: AskedFor(handoffs, j, q.kind, q.id, q.artifact) ==> j == i;
      MatchesIsAskedFor(q, handoffs, i);
      FilteredHolds(q, handoffs, i);
      if |Filtered(q, handoffs)| >= 2 {
        var k, l := TwoMatches(q, handoffs);
        MatchesIsAskedFor(q, handoffs, k);
        MatchesIsAskedFor(q, handoffs, l);
        assert false;
      }
    }
  }

  lemma {:induction false} FilteredHolds(q: Query, handoffs: seq<Json>, i: nat)
    requires i < |handoffs| && Matches(q, handoffs[i])
    ensures handoffs[i] in Filtered(q, handoffs)
  {
    if i > 0 { FilteredHolds(q, handoffs[1..], i - 1); }
  }

  /**
   getCheckpointHandoff, fail-closed: it returns a handoff exactly when the checkpoint is valid, the
   type is known, and exactly one handoff has the type, the id and the artifact asked for.
   */
  method GetCheckpointHandoff(date: DateParse, c: Json, q: Query) returns (r: Option<Json>)
    ensures r == Selected(date, c, q)
    ensures r.Some? ==> IsTheOne(Handoffs(c), q, r.value)
    ensures r.Some? <==>
      && WellFormed(date, c, None) && q.kind in HANDOFF_TYPES
      && exists h :: h in Handoffs(c) && IsTheOne(Handoffs(c), q, h)
  {
    var envelope := ValidateEnvelope(date, c, None);
    if envelope != [] || q.kind !in HANDOFF_TYPES { return None; }
    var matches := FilterHandoffs(q, Handoffs(c));
    TheOneIsSelected(q, Handoffs(c));
    if |matches| != 1 { return None; }
    var result := ValidateHandoff(date, matches[0], Of(c, "skill"));
    RevalidationAgrees(date, c, q);
    r := if result == [] then Some(matches[0]) else None;
  }

  lemma TheOneIsSelected(q: Query, handoffs: seq<Json>)
    ensures |Filtered(q, handoffs)| == 1 <==> exists h :: h in handoffs && IsTheOne(handoffs, q, h)
    ensures |Filtered(q, handoffs)| == 1 ==> IsTheOne(handoffs, q, Filtered(q, handoffs)[0])
  {
    if |Filtered(q, handoffs)| == 1 {
      OneMatchIsTheOne(q, handoffs, Filtered(q, handoffs)[0]);
    }
    if h :| h in handoffs && IsTheOne(handoffs, q, h) { OneMatchIsTheOne(q, handoffs, h); }
  }

  /** The last check repeats one the envelope made, so it refuses nothing. */
  lemma RevalidationAgrees(date: DateParse, c: Json, q: Query)
    requires WellFormed(date, c, None) && q.kind in HANDOFF_TYPES && |Filtered(q, Handoffs(c))| == 1
    ensures Selected(date, c, q) == Some(Filtered(q, Handoffs(c))[0])
    ensures GoodHandoff(date, Filtered(q, Handoffs(c))[0], Of(c, "skill"))
  {
    SelectedIsGood(date, c, q);
  }

  lemma {:induction false} FilteredAppend(q: Query, handoffs: seq<Json>, h: Json)
    ensures Filtered(q, handoffs + [h]) == Filtered(q, handoffs) + if Matches(q, h) then [h] else []
  {
    if handoffs == [] {
      assert handoffs + [h] == [h];
    } else {
      assert (handoffs + [h])[1..] == handoffs[1..] + [h];
      FilteredAppend(q, handoffs[1..], h);
    }
  }

  /** Fail-closed: whatever is returned is a good handoff of the asked type. */
  lemma SelectedIsGood(date: DateParse, c: Json, q: Query)
    requires WellFormed(date, c, None)
    ensures forall h <- Filtered(q, Handoffs(c)) ::
      GoodHandoff(date, h, Of(c, "skill")) && IsText(Of(h, "type"), q.kind)
  {
    assert GoodHandoffs(date, Of(c, "handoffs"), Of(c, "skill"));
  }

  /** A returned acceptance handoff has distinct, non-blank check ids, and says PASS only if every check does. */
  lemma AcceptanceIsHonest(date: DateParse, c: Json, q: Query)
    requires q.kind == ACCEPTANCE_CHECKS && Selected(date, c, q).Some?
    ensures var payload := Of(Selected(date, c, q).value, "payload");
            && Prop(payload, "checks").Some? && Prop(payload, "checks").value.Arr?
            && var checks := Prop(payload, "checks").value.items;
               && checks != [] && (forall k <- checks :: Named(Of(k, "id")))
               && (forall i, j | 0 <= i < j < |checks| :: Of(checks[i], "id") != Of(checks[j], "id"))
               && (IsText(Prop(payload, "verdict"), "PASS") ==> forall k <- checks :: IsText(Of(k, "status"), "PASS"))
  {
    SelectedIsGood(date, c, q);
    AcceptanceBody(date, Filtered(q, Handoffs(c))[0], Of(c, "skill"));
  }

  lemma AcceptanceBody(date: DateParse, h: Json, skill: Option<Json>)
    requires GoodHandoff(date, h, skill) && IsText(Of(h, "type"), ACCEPTANCE_CHECKS)
    ensures GoodAcceptance(Of(h, "payload"))
  {
  }

  /** What a consumer finds in a handoff it was given: who made it, and what its type promises. */
  lemma ReturnedHandoffsCarry(date: DateParse, c: Json, q: Query)
    requires Selected(date, c, q).Some?
    ensures var h := Selected(date, c, q).value;
            var producer, verdict := Of(h, "producer"), Prop(Of(h, "payload"), "verdict");
            && h.Obj? && Named(Prop(producer, "skill"))
            && (Of(c, "skill").Some? && Of(c, "skill").value.Str? ==> Prop(producer, "skill") == Of(c, "skill"))
            && (q.kind == "verification.verdict" ==>
                  && IsIso(date, Of(h, "verified_at")) && Identifies(Of(h, "candidate"))
                  && OneOf(verdict, { "PASS", "FAIL", "INCOMPLETE" }))
            && (q.kind in { "architecture.module-map", "evidence.reference", "acceptance.checks" } ==>
                  Identifies(Of(h, "artifact")))
            && (q.kind == "acceptance.checks" ==>
                  Named(Prop(Of(h, "payload"), "sprint")) && OneOf(verdict, { "PASS", "FAIL", "INCOMPLETE" }))
  {
    var h := Selected(date, c, q).value;
    SelectedIsGood(date, c, q);
    assert h in Filtered(q, Handoffs(c));
    SkillIsThere(date, c);
    HandoffCarries(date, h, Of(c, "skill"), q.kind);
  }

  lemma SkillIsThere(date: DateParse, c: Json)
    requires WellFormed(date, c, None)
    ensures Of(c, "skill").Some? && Of(c, "skill").value.Str? ==> Truthy(Of(c, "skill"))
  {
    PresentAt(c, REQUIRED, 1);
  }

  lemma HandoffCarries(date: DateParse, h: Json, skill: Option<Json>, kind: string)
    requires GoodHandoff(date, h, skill) && IsText(Of(h, "type"), kind)
    ensures Named(Prop(Of(h, "producer"), "skill"))
    ensures Truthy(skill) ==> Prop(Of(h, "producer"), "skill") == skill
    ensures kind == VERIFICATION_VERDICT ==>
      && IsIso(date, Of(h, "verified_at")) && Identifies(Of(h, "candidate"))
      && OneOf(Prop(Of(h, "payload"), "verdict"), VERDICTS)
    ensures kind in { ARCHITECTURE_MODULE_MAP, EVIDENCE_REFERENCE, ACCEPTANCE_CHECKS } ==> Identifies(Of(h, "artifact"))
    ensures kind == ACCEPTANCE_CHECKS ==>
      Named(Prop(Of(h, "payload"), "sprint")) && OneOf(Prop(Of(h, "payload"), "verdict"), VERDICTS)
  {
  }

  // ---- selection by id is never ambiguous ----

  lemma {:induction false} TwoMatches(q: Query, handoffs: seq<Json>) returns (i: nat, j: nat)
    requires |Filtered(q, handoffs)| >= 2
    ensures i < j < |handoffs| && Matches(q, handoffs[i]) && Matches(q, handoffs[j])
  {
    if !Matches(q, handoffs[0]) {
      i, j := TwoMatches(q, handoffs[1..]);
      i, j := i + 1, j + 1;
    } else {
      i := 0;
      j := OneMatch(q, handoffs[1..]);
      j := j + 1;
    }
  }

  lemma {:induction false} OneMatch(q: Query, handoffs: seq<Json>) returns (j: nat)
    requires |Filtered(q, handoffs)| >= 1
    ensures j < |handoffs| && Matches(q, handoffs[j])
  {
    if Matches(q, handoffs[0]) { j := 0; } else { j := OneMatch(q, handoffs[1..]); j := j + 1; }
  }

  /** In a valid checkpoint an id that is not falsy selects at most one handoff of a type. */
  lemma IdSelectsAtMostOne(date: DateParse, c: Json, q: Query)
    requires WellFormed(date, c, None) && Truthy(q.id)
    ensures |Filtered(q, Handoffs(c))| <= 1
  {
    assert GoodHandoffs(date, Of(c, "handoffs"), Of(c, "skill"));
    if |Filtered(q, Handoffs(c))| >= 2 {
      var i, j := TwoMatches(q, Handoffs(c));
      assert SameId(Handoffs(c)[i], Handoffs(c)[j]);
    }
  }

  /**
   The scan for duplicate ids lets a handoff in twice exactly when its id is 0 or false, or an array
   or object, which a Set never finds again.
   */
  lemma DuplicatesThatPass(date: DateParse, handoffs: seq<Json>, h: Json, skill: Option<Json>)
    requires GoodHandoffs(date, Some(Arr(handoffs)), skill) && h in handoffs
    ensures Of(h, "id").Some?
    ensures GoodHandoffs(date, Some(Arr(handoffs + [h])), skill) <==>
      var id := Of(h, "id").value; IsFalsyValue(id) || id.Arr? || id.Obj?
  {
    var twice := handoffs + [h];
    GoodIdIsThere(date, h, skill);
    FalsyValues(Of(h, "id").value);
    var k :| 0 <= k < |handoffs| && handoffs[k] == h;
    assert twice[k] == twice[|handoffs|] == h;
    if !SameId(h, h) {
      forall i, j | 0 <= i < j < |twice| ensures !SameId(twice[i], twice[j]) {
        if j < |handoffs| { assert !SameId(handoffs[i], handoffs[j]); }
      }
    }
  }

  lemma GoodIdIsThere(date: DateParse, h: Json, skill: Option<Json>)
    requires GoodHandoff(date, h, skill)
    ensures !Missing(Of(h, "id"))
  {
    PresentAt(h, HANDOFF_REQUIRED, 0);
  }

  /** So selection by the id 0 or false can meet several handoffs, and then returns none. */
  lemma FalsyIdsAreAmbiguous(date: DateParse, c: Json, q: Query, i: nat, j: nat)
    requires i < j < |Handoffs(c)| && Matches(q, Handoffs(c)[i]) && Matches(q, Handoffs(c)[j])
    ensures Selected(date, c, q) == None
  {
    OneOfEach(q, Handoffs(c), i, j);
  }

  lemma {:induction false} OneOfEach(q: Query, handoffs: seq<Json>, i: nat, j: nat)
    requires i < j < |handoffs| && Matches(q, handoffs[i]) && Matches(q, handoffs[j])
    ensures |Filtered(q, handoffs)| >= 2
  {
    if i == 0 { SomeMatch(q, handoffs[1..], j - 1); } else { OneOfEach(q, handoffs[1..], i - 1, j - 1); }
  }

  lemma {:induction false} SomeMatch(q: Query, handoffs: seq<Json>, j: nat)
    requires j < |handoffs| && Matches(q, handoffs[j])
    ensures |Filtered(q, handoffs)| >= 1
  {
    if j > 0 { SomeMatch(q, handoffs[1..], j - 1); }
  }

  // ---- the order of handoffs does not matter ----

  /** The same checkpoint but for the order of its handoffs. */
  ghost predicate Reordered(c: Json, d: Json) {
    && c.Obj? && d.Obj?
    && (forall name | name != "handoffs" :: Of(c, name) == Of(d, name))
    && Of(c, "handoffs").Some? && Of(d, "handoffs").Some?
    && Of(c, "handoffs").value.Arr? && Of(d, "handoffs").value.Arr?
    && multiset(Handoffs(c)) == multiset(Handoffs(d))
  }

  lemma {:induction false} TwiceInSequence(s: seq<Json>, x: Json) returns (i: nat, j: nat)
    requires multiset(s)[x] >= 2
    ensures i < j < |s| && s[i] == s[j] == x
  {
    assert s == [s[0]] + s[1..];
    if s[0] == x {
      i := 0;
      assert x in s[1..];
      var k :| 0 <= k < |s[1..]| && s[1..][k] == x;
      j := k + 1;
    } else {
      i, j := TwiceInSequence(s[1..], x);
      i, j := i + 1, j + 1;
    }
  }

  lemma TwoPlacesCountTwice(s: seq<Json>, i: nat, j: nat)
    requires i < j < |s| && s[i] == s[j]
    ensures multiset(s)[s[i]] >= 2
  {
    assert s == s[..j] + s[j..];
    assert s[..j][i] == s[i] && s[j..][0] == s[i];
    assert s[i] in s[..j] && s[i] in s[j..];
    assert multiset(s) == multiset(s[..j]) + multiset(s[j..]);
  }

  /** Two elements at different places of one order are at different places of any other. */
  lemma PlacesElsewhere(s: seq<Json>, t: seq<Json>, i: nat, j: nat) returns (k: nat, l: nat)
    requires multiset(s) == multiset(t) && i < j < |s|
    ensures k < |t| && l < |t| && k != l && t[k] == s[i] && t[l] == s[j]
  {
    if s[i] == s[j] {
      TwoPlacesCountTwice(s, i, j);
      k, l := TwiceInSequence(t, s[i]);
    } else {
      assert s[i] in multiset(t) && s[j] in multiset(t);
      k :| 0 <= k < |t| && t[k] == s[i];
      l :| 0 <= l < |t| && t[l] == s[j];
    }
  }

  lemma DifferentPlacesDiffer(s: seq<Json>, k: nat, l: nat)
    requires DistinctIds(s) && k < |s| && l < |s| && k != l
    ensures !SameId(s[k], s[l])
  {
    if k < l {
      assert !SameId(s[k], s[l]);
    } else {
      assert !SameId(s[l], s[k]);
    }
  }

  lemma DistinctIdsAnyOrder(s: seq<Json>, t: seq<Json>)
    requires multiset(s) == multiset(t) && DistinctIds(s)
    ensures DistinctIds(t)
  {
    forall i, j | 0 <= i < j < |t| ensures !SameId(t[i], t[j]) {
      var k, l := PlacesElsewhere(t, s, i, j);
      DifferentPlacesDiffer(s, k, l);
    }
  }

  lemma GoodHandoffsAnyOrder(date: DateParse, s: seq<Json>, t: seq<Json>, skill: Option<Json>)
    requires multiset(s) == multiset(t) && GoodHandoffs(date, Some(Arr(s)), skill)
    ensures GoodHandoffs(date, Some(Arr(t)), skill)
  {
    DistinctIdsAnyOrder(s, t);
    forall h <- t ensures GoodHandoff(date, h, skill) {
      assert h in multiset(s);
    }
  }

  lemma {:induction false} FilteredCounts(q: Query, s: seq<Json>, x: Json)
    ensures multiset(Filtered(q, s))[x] == if Matches(q, x) then multiset(s)[x] else 0
  {
    if s != [] {
      FilteredCounts(q, s[1..], x);
      assert s == [s[0]] + s[1..];
      var head := if Matches(q, s[0]) then [s[0]] else [];
      assert multiset(Filtered(q, s)) == multiset(head) + multiset(Filtered(q, s[1..]));
    }
  }

  lemma FilteredAnyOrder(q: Query, s: seq<Json>, t: seq<Json>)
    requires multiset(s) == multiset(t)
    ensures multiset(Filtered(q, s)) == multiset(Filtered(q, t))
  {
    forall x ensures multiset(Filtered(q, s))[x] == multiset(Filtered(q, t))[x] {
      FilteredCounts(q, s, x);
      FilteredCounts(q, t, x);
    }
  }

  lemma WellFormedAnyOrder(date: DateParse, c: Json, d: Json)
    requires Reordered(c, d) && WellFormed(date, c, None)
    ensures WellFormed(date, d, None)
  {
    GoodHandoffsAnyOrder(date, Handoffs(c), Handoffs(d), Of(c, "skill"));
    FieldsAreShared(c, d);
    assert AllPresent(d, REQUIRED) by {
      forall name <- REQUIRED ensures !Missing(Of(d, name)) {
        assert name != "handoffs" && !Missing(Of(c, name));
      }
    }
  }

  lemma FieldsAreShared(c: Json, d: Json)
    requires Reordered(c, d)
    ensures Of(c, "status") == Of(d, "status") && Of(c, "skill") == Of(d, "skill")
    ensures Of(c, "protocol_version") == Of(d, "protocol_version")
    ensures Of(c, "created_at") == Of(d, "created_at") && Of(c, "updated_at") == Of(d, "updated_at")
    ensures Of(c, "record_updated_at") == Of(d, "record_updated_at") && Of(c, "verified_at") == Of(d, "verified_at")
    ensures Of(c, "candidate") == Of(d, "candidate") && Of(c, "progress_table") == Of(d, "progress_table")
    ensures Of(c, "next_actions") == Of(d, "next_actions") && Of(c, "blockers") == Of(d, "blockers")
    ensures Of(c, "findings") == Of(d, "findings")
  {
  }

  /** Success and result do not depend on the order of the handoffs. */
  lemma SelectionIgnoresOrder(date: DateParse, c: Json, d: Json, q: Query)
    requires Reordered(c, d)
    ensures Selected(date, c, q) == Selected(date, d, q)
  {
    assert Reordered(d, c);
    if WellFormed(date, c, None) { WellFormedAnyOrder(date, c, d); }
    if WellFormed(date, d, None) { WellFormedAnyOrder(date, d, c); }
    FilteredAnyOrder(q, Handoffs(c), Handoffs(d));
    SingletonsAgree(Filtered(q, Handoffs(c)), Filtered(q, Handoffs(d)));
  }

  lemma SingletonsAgree(s: seq<Json>, t: seq<Json>)
    requires multiset(s) == multiset(t)
    ensures |s| == |t|
    ensures |s| == 1 ==> s == t
  {
    assert |multiset(s)| == |s| && |multiset(t)| == |t|;
    if |s| == 1 {
      assert s[0] in multiset(t);
    }
  }
}
