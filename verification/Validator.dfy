/**
 The error-collecting validators. Each pushes onto the list it is given; what is proved is that it
 leaves the list as it was exactly when the declarative predicate of Contract holds. Error texts are
 reduced to the name of the field at fault.
 */
module Validator {
  import opened Text
  import opened JsonValues
  import opened Contract

  type Errors = seq<string>

  method ValidateIdentity(identity: Option<Json>, name: string, errors: Errors) returns (r: Errors)
    ensures |r| >= |errors|
    ensures |r| == |errors| <==> GoodIdentity(identity)
  {
    r := errors;
    if !IsRecord(identity) { return r + [name]; }
    if !Named(Prop(identity, "kind")) { r := r + [name + ".kind"]; }
    if !Named(Prop(identity, "id")) { r := r + [name + ".id"]; }
    if Prop(identity, "digest").Some? && !Named(Prop(identity, "digest")) { r := r + [name + ".digest"]; }
    if Prop(identity, "path").Some? && !Named(Prop(identity, "path")) { r := r + [name + ".path"]; }
  }

  method ValidatePresent(v: Json, names: seq<string>, errors: Errors) returns (r: Errors)
    ensures |r| >= |errors|
    ensures |r| == |errors| <==> AllPresent(v, names)
  {
    r := errors;
    for i := 0 to |names|
      invariant |r| >= |errors|
      invariant |r| == |errors| <==> forall k | 0 <= k < i :: !Missing(Of(v, names[k]))
    {
      if Missing(Of(v, names[i])) { r := r + [names[i]]; }
    }
  }

  method ValidateProducer(producer: Option<Json>, skill: Option<Json>, errors: Errors) returns (r: Errors)
    ensures |r| >= |errors|
    ensures |r| == |errors| <==> GoodProducer(producer, skill)
  {
    r := errors;
    if !IsRecord(producer) { return r + ["producer"]; }
    var own := Prop(producer, "skill");
    if !Named(own) { r := r + ["producer.skill"]; }
    if Truthy(skill) && Truthy(own) && !Identical(own, skill) { r := r + ["producer.skill"]; }
    if Prop(producer, "run_id").Some? && !Named(Prop(producer, "run_id")) { r := r + ["producer.run_id"]; }
  }

  /** The scan over acceptance checks, with the set of ids seen. */
  method ValidateChecks(checks: seq<Json>, verdict: Option<Json>, errors: Errors) returns (r: Errors)
    requires checks != []
    ensures |r| >= |errors|
    ensures |r| == |errors| <==> GoodChecks(checks, verdict)
  {
    r := errors;
    var seen: set<string> := {};
    var allPass := true;
    for i := 0 to |checks|
      invariant |r| >= |errors|
      invariant |r| == |errors| <==> ChecksSoFar(checks, i)
      invariant |r| == |errors| ==> seen == set k | 0 <= k < i :: Of(checks[k], "id").value.s
      invariant allPass <==> forall k | 0 <= k < i :: IsText(Of(checks[k], "status"), "PASS")
    {
      var c := checks[i];
      ChecksGrow(checks, i);
      if !(c.Obj? && Named(Of(c, "id"))) {
        r := r + ["checks.id"];
      } else if Of(c, "id").value.s in seen {
        r := r + ["checks.id"];
      } else {
        seen := seen + { Of(c, "id").value.s };
      }
      if !OneOf(Of(c, "status"), CHECK_STATUSES) { r := r + ["checks.status"]; }
      allPass := allPass && IsText(Of(c, "status"), "PASS");
    }
    if IsText(verdict, "PASS") && !allPass { r := r + ["verdict"]; }
  }

  predicate ChecksSoFar(checks: seq<Json>, i: nat)
    requires i <= |checks|
  {
    && (forall k | 0 <= k < i :: GoodCheck(checks[k]))
    && (forall k, l | 0 <= k < l < i :: Of(checks[k], "id") != Of(checks[l], "id"))
  }

  lemma ChecksGrow(checks: seq<Json>, i: nat)
    requires i < |checks|
    ensures ChecksSoFar(checks, i + 1) <==>
      && ChecksSoFar(checks, i)
      && GoodCheck(checks[i])
      && Of(checks[i], "id").value.s !in set k | 0 <= k < i :: Of(checks[k], "id").value.s
  {
    if ChecksSoFar(checks, i) && GoodCheck(checks[i]) {
      forall k | 0 <= k < i
        ensures Of(checks[k], "id") == Of(checks[i], "id") <==>
          Of(checks[k], "id").value.s == Of(checks[i], "id").value.s
      {
        assert GoodCheck(checks[k]);
      }
    }
  }

  method ValidateAcceptance(payload: Option<Json>, errors: Errors) returns (r: Errors)
    ensures |r| >= |errors|
    ensures |r| == |errors| <==> GoodAcceptance(payload)
  {
    r := errors;
    var verdict, checks := Prop(payload, "verdict"), Prop(payload, "checks");
    if !Named(Prop(payload, "sprint")) { r := r + ["payload.sprint"]; }
    if !OneOf(verdict, VERDICTS) { r := r + ["payload.verdict"]; }
    if !(checks.Some? && checks.value.Arr?) || checks.value.items == [] {
      r := r + ["payload.checks"];
    } else {
      r := ValidateChecks(checks.value.items, verdict, r);
    }
  }

  method ValidateHeader(date: DateParse, handoff: Json, skill: Option<Json>, errors: Errors) returns (r: Errors)
    ensures |r| >= |errors|
    ensures |r| == |errors| <==> GoodHeader(date, handoff, skill)
  {
    r := ValidatePresent(handoff, HANDOFF_REQUIRED, errors);
    var version, kind, created := Of(handoff, "contract_version"), Of(handoff, "type"), Of(handoff, "created_at");
    if Truthy(version) && !IsText(version, "1.0") { r := r + ["contract_version"]; }
    if Truthy(kind) && !OneOf(kind, HANDOFF_TYPES) { r := r + ["type"]; }
    if Truthy(created) && !IsIso(date, created) { r := r + ["created_at"]; }
    r := ValidateProducer(Of(handoff, "producer"), skill, r);
    if !IsRecord(Of(handoff, "payload")) { r := r + ["payload"]; }
  }

  method ValidateBody(date: DateParse, handoff: Json, errors: Errors) returns (r: Errors)
    ensures |r| >= |errors|
    ensures |r| == |errors| <==> GoodBody(date, handoff)
  {
    r := errors;
    var kind, payload := Of(handoff, "type"), Of(handoff, "payload");
    if IsText(kind, VERIFICATION_VERDICT) {
      var verified := Of(handoff, "verified_at");
      if !Truthy(verified) || !IsIso(date, verified) { r := r + ["verified_at"]; }
      r := ValidateIdentity(Of(handoff, "candidate"), "candidate", r);
      if !OneOf(Prop(payload, "verdict"), VERDICTS) { r := r + ["payload.verdict"]; }
    }
    if IsText(kind, ARCHITECTURE_MODULE_MAP) || IsText(kind, EVIDENCE_REFERENCE) {
      r := ValidateIdentity(Of(handoff, "artifact"), "artifact", r);
    }
    if IsText(kind, ACCEPTANCE_CHECKS) {
      r := ValidateIdentity(Of(handoff, "artifact"), "artifact", r);
      r := ValidateAcceptance(payload, r);
    }
  }

  /** validateCheckpointHandoff. */
  method ValidateHandoff(date: DateParse, handoff: Json, skill: Option<Json>) returns (errors: Errors)
    ensures errors == [] <==> GoodHandoff(date, handoff, skill)
  {
    if !handoff.Obj? { return ["handoff"]; }
    errors := ValidateHeader(date, handoff, skill, []);
    errors := ValidateBody(date, handoff, errors);
  }

  // ---- the envelope, section by section ----

  method ValidateFields(c: Json, expected: Option<string>, errors: Errors) returns (r: Errors)
    ensures |r| >= |errors|
    ensures |r| == |errors| <==> GoodFields(c, expected)
  {
    r := ValidatePresent(c, REQUIRED, errors);
    var version, status, skill := Of(c, "protocol_version"), Of(c, "status"), Of(c, "skill");
    if Truthy(version) && !OneOf(version, WIRE_VERSIONS) { r := r + ["protocol_version"]; }
    if Truthy(status) && !OneOf(status, STATUSES) { r := r + ["status"]; }
    if expected.Some? && expected.value != "" && Truthy(skill) && !IsText(skill, expected.value) {
      r := r + ["skill"];
    }
  }

  method ValidateTimes(date: DateParse, c: Json, errors: Errors) returns (r: Errors)
    ensures |r| >= |errors|
    ensures |r| == |errors| <==>
      IsoTimes(date, c) && GoodTimes(date, c) && (Of(c, "verified_at").Some? ==> GoodIdentity(Of(c, "candidate")))
  {
    r := errors;
    var own, verified := Of(c, "record_updated_at"), Of(c, "verified_at");
    if Of(c, "created_at").Some? && !IsIso(date, Of(c, "created_at")) { r := r + ["created_at"]; }
    if Of(c, "updated_at").Some? && !IsIso(date, Of(c, "updated_at")) { r := r + ["updated_at"]; }
    if own.Some? && !IsIso(date, own) { r := r + ["record_updated_at"]; }
    if verified.Some? && !IsIso(date, verified) { r := r + ["verified_at"]; }
    var created, updated := Instant(date, Of(c, "created_at")), Instant(date, Of(c, "updated_at"));
    var recordUpdated := if IsIso(date, own) then Instant(date, own) else updated;
    if created.Some? && updated.Some? && updated.value < created.value { r := r + ["updated_at"]; }
    if Truthy(own) && updated.Some? && recordUpdated != updated { r := r + ["record_updated_at"]; }
    if verified.Some? {
      r := ValidateIdentity(Of(c, "candidate"), "candidate", r);
      if recordUpdated.Some? && IsIso(date, verified) && Instant(date, verified).value > recordUpdated.value {
        r := r + ["verified_at"];
      }
    }
  }

  method ValidateRows(c: Json, errors: Errors) returns (r: Errors)
    ensures |r| >= |errors|
    ensures |r| == |errors| <==> ListOf(Of(c, "progress_table"), GoodRow)
  {
    r := errors;
    var rows := Of(c, "progress_table");
    if rows.None? { return; }
    if !rows.value.Arr? { return r + ["progress_table"]; }
    for i := 0 to |rows.value.items|
      invariant |r| >= |errors|
      invariant |r| == |errors| <==> forall k | 0 <= k < i :: GoodRow(rows.value.items[k])
    {
      var row := rows.value.items[i];
      if !row.Obj? {
        r := r + ["progress_table"];
      } else {
        r := ValidatePresent(row, ["id", "label", "status"], r);
        if Truthy(Of(row, "status")) && !OneOf(Of(row, "status"), ROW_STATUSES) { r := r + ["progress_table.status"]; }
      }
    }
  }

  method ValidateActions(c: Json, errors: Errors) returns (r: Errors)
    ensures |r| >= |errors|
    ensures |r| == |errors| <==> ListOf(Of(c, "next_actions"), GoodAction) && HasNextAction(c)
  {
    r := errors;
    var actions := Of(c, "next_actions");
    if actions.Some? && !actions.value.Arr? {
      r := r + ["next_actions"];
    } else if actions.Some? {
      for i := 0 to |actions.value.items|
        invariant |r| >= |errors|
        invariant |r| == |errors| <==> forall k | 0 <= k < i :: GoodAction(actions.value.items[k])
      {
        var action := actions.value.items[i];
        if action.Str? { continue; }
        if action.Obj? && Of(action, "text").Some? && Of(action, "text").value.Str? {
          var done := Of(action, "done_when");
          if done.Some? && !done.value.Str? { r := r + ["next_actions.done_when"]; }
          continue;
        }
        r := r + ["next_actions"];
      }
    }
    if IsText(Of(c, "status"), "in_progress")
       && (!(actions.Some? && actions.value.Arr?) || |actions.value.items| == 0) {
      r := r + ["next_actions"];
    }
  }

  method ValidateBlockers(c: Json, errors: Errors) returns (r: Errors)
    ensures |r| >= |errors|
    ensures |r| == |errors| <==> ListOf(Of(c, "blockers"), GoodBlocker)
  {
    r := errors;
    var blockers := Of(c, "blockers");
    if blockers.None? { return; }
    if !blockers.value.Arr? { return r + ["blockers"]; }
    for i := 0 to |blockers.value.items|
      invariant |r| >= |errors|
      invariant |r| == |errors| <==> forall k | 0 <= k < i :: GoodBlocker(blockers.value.items[k])
    {
      var blocker := blockers.value.items[i];
      if !blocker.Obj? {
        r := r + ["blockers"];
      } else {
        if !Truthy(Of(blocker, "id")) || !Truthy(Of(blocker, "description")) { r := r + ["blockers.id"]; }
        if Of(blocker, "needs").Some? && !OneOf(Of(blocker, "needs"), BLOCKER_NEEDS) { r := r + ["blockers.needs"]; }
      }
    }
  }

  method ValidateFindings(date: DateParse, c: Json, errors: Errors) returns (r: Errors)
    ensures |r| >= |errors|
    ensures |r| == |errors| <==> GoodFindings(date, Of(c, "findings"))
  {
    r := errors;
    var findings := Of(c, "findings");
    if findings.None? { return; }
    if !findings.value.Arr? { return r + ["findings"]; }
    for i := 0 to |findings.value.items|
      invariant |r| >= |errors|
      invariant |r| == |errors| <==> forall k | 0 <= k < i :: GoodFinding(date, findings.value.items[k])
    {
      var finding := findings.value.items[i];
      if !finding.Obj? {
        r := r + ["findings"];
      } else {
        if !Truthy(Of(finding, "id")) { r := r + ["findings.id"]; }
        if !OneOf(Of(finding, "status"), FINDING_STATUSES) { r := r + ["findings.status"]; }
        if !IsIso(date, Of(finding, "record_updated_at")) { r := r + ["findings.record_updated_at"]; }
        if IsText(Of(finding, "status"), "verified") {
          if !IsIso(date, Of(finding, "verified_at")) { r := r + ["findings.verified_at"]; }
          r := ValidateIdentity(Of(finding, "candidate"), "findings.candidate", r);
        }
      }
    }
  }

  /** Handoffs, with the set of ids met; objects and arrays as ids are stored but never found again. */
  method ValidateHandoffs(date: DateParse, c: Json, errors: Errors) returns (r: Errors)
    ensures |r| >= |errors|
    ensures |r| == |errors| <==> GoodHandoffs(date, Of(c, "handoffs"), Of(c, "skill"))
  {
    r := errors;
    var handoffs, skill := Of(c, "handoffs"), Of(c, "skill");
    if handoffs.None? { return; }
    if !handoffs.value.Arr? { return r + ["handoffs"]; }
    var items := handoffs.value.items;
    var ids: set<Json> := {};
    for i := 0 to |items|
      invariant |r| >= |errors|
      invariant ids == IdsMet(items, i)
      invariant |r| == |errors| <==> HandoffsSoFar(date, items, skill, i)
    {
      var id := Of(items[i], "id");
      HandoffsGrow(date, items, skill, i);
      var result := ValidateHandoff(date, items[i], skill);
      r := r + result;
      if FoundIn(id, ids) { r := r + ["handoffs.id"]; }
      if Truthy(id) { ids := ids + { id.value }; }
    }
    HandoffsComplete(date, items, skill);
  }

  /** `id && ids.has(id)`: a scalar that was added before. */
  predicate FoundIn(id: Option<Json>, ids: set<Json>) {
    Truthy(id) && !id.value.Arr? && !id.value.Obj? && id.value in ids
  }

  lemma HandoffsComplete(date: DateParse, items: seq<Json>, skill: Option<Json>)
    ensures HandoffsSoFar(date, items, skill, |items|) <==> GoodHandoffs(date, Some(Arr(items)), skill)
  {
  }

  lemma HandoffsGrow(date: DateParse, items: seq<Json>, skill: Option<Json>, i: nat)
    requires i < |items|
    ensures HandoffsSoFar(date, items, skill, i + 1) <==>
      && HandoffsSoFar(date, items, skill, i)
      && GoodHandoff(date, items[i], skill)
      && !FoundIn(Of(items[i], "id"), IdsMet(items, i))
    ensures IdsMet(items, i + 1) ==
            IdsMet(items, i) + if Truthy(Of(items[i], "id")) then { Of(items[i], "id").value } else {}
  {
    IdsAreMet(items, i);
    HandoffsExtend(date, items, skill, i);
  }

  lemma HandoffsExtend(date: DateParse, items: seq<Json>, skill: Option<Json>, i: nat)
    requires i < |items|
    ensures HandoffsSoFar(date, items, skill, i + 1) <==>
      && HandoffsSoFar(date, items, skill, i)
      && GoodHandoff(date, items[i], skill)
      && !SameIdBefore(items, i)
  {
  }

  predicate SameIdBefore(items: seq<Json>, i: nat)
    requires i < |items|
  {
    exists k :: 0 <= k < i && SameId(items[k], items[i])
  }

  predicate HandoffsSoFar(date: DateParse, items: seq<Json>, skill: Option<Json>, i: nat)
    requires i <= |items|
  {
    && (forall k | 0 <= k < i :: GoodHandoff(date, items[k], skill))
    && (forall k, l | 0 <= k < l < i :: !SameId(items[k], items[l]))
  }

  function IdsMet(items: seq<Json>, i: nat): set<Json>
    requires i <= |items|
  {
    set k | 0 <= k < i && Truthy(Of(items[k], "id")) :: Of(items[k], "id").value
  }

  lemma IdsAreMet(items: seq<Json>, i: nat)
    requires i < |items|
    ensures FoundIn(Of(items[i], "id"), IdsMet(items, i)) <==> SameIdBefore(items, i)
    ensures IdsMet(items, i + 1) ==
            IdsMet(items, i) + if Truthy(Of(items[i], "id")) then { Of(items[i], "id").value } else {}
  {
  }

  /** validateCheckpointEnvelope: ok exactly on the well-formed checkpoints. */
  method ValidateEnvelope(date: DateParse, c: Json, expected: Option<string>) returns (errors: Errors)
    ensures errors == [] <==> WellFormed(date, c, expected)
  {
    if !c.Obj? { return ["checkpoint"]; }
    errors := ValidateFields(c, expected, []);
    errors := ValidateTimes(date, c, errors);
    errors := ValidateRows(c, errors);
    errors := ValidateActions(c, errors);
    errors := ValidateBlockers(c, errors);
    errors := ValidateFindings(date, c, errors);
    errors := ValidateHandoffs(date, c, errors);
  }
}
