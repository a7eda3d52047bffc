/**
 What the contract's truthiness guards let through. A check written `if (v && bad(v))` skips every
 falsy value, and of those the presence check stops only the empty text and null: 0 and false pass.
 Each theorem changes one guarded field of a valid object and says which values keep it valid.
 */
module Guards {
  import opened Text
  import opened JsonValues
  import opened Contract

  /** The values that are neither missing nor looked at by a guarded check. */
  predicate IsFalsyValue(v: Json) { v == Num(0) || v == Bool(false) }

  lemma FalsyValues(v: Json)
    ensures !Truthy(Some(v)) && !Missing(Some(v)) <==> IsFalsyValue(v)
  {
  }

  /** `d` is `c` with another value of one field. */
  ghost predicate Differs(c: Json, d: Json, name: string, v: Json) {
    c.Obj? && d.Obj? && forall n :: Of(d, n) == if n == name then Some(v) else Of(c, n)
  }

  predicate Agree(c: Json, d: Json, names: set<string>) { forall n <- names :: Of(d, n) == Of(c, n) }

  /** All other fields agree. */
  lemma OthersAgree(c: Json, d: Json, name: string, v: Json, names: set<string>)
    requires Differs(c, d, name, v) && name !in names
    ensures Of(d, name) == Some(v) && Agree(c, d, names)
  {
  }

  /** Changing a required field keeps the object complete exactly when the new value is not missing. */
  lemma PresentIfValue(c: Json, d: Json, name: string, v: Json, names: seq<string>)
    requires Differs(c, d, name, v) && AllPresent(c, names) && name in names
    ensures AllPresent(d, names) <==> !Missing(Some(v))
  {
    if Missing(Some(v)) {
      assert Missing(Of(d, name));
    } else {
      forall n <- names ensures !Missing(Of(d, n)) {
        assert !Missing(Of(c, n));
      }
    }
  }

  // ---- the envelope's own fields ----

  const SECTIONS := { "created_at", "updated_at", "record_updated_at", "verified_at", "candidate",
                      "progress_table", "next_actions", "blockers", "findings", "handoffs" }

  /** So what is left to check is the guarded fields, the next actions and the handoffs' producers. */
  lemma OnlyGuardsAreLeft(date: DateParse, c: Json, d: Json, expected: Option<string>)
    requires WellFormed(date, c, expected) && d.Obj? && Agree(c, d, SECTIONS)
    ensures WellFormed(date, d, expected) <==>
      GoodFields(d, expected) && HasNextAction(d) && GoodHandoffs(date, Of(d, "handoffs"), Of(d, "skill"))
  {
    assert Of(d, "created_at") == Of(c, "created_at") && Of(d, "updated_at") == Of(c, "updated_at");
    assert Of(d, "record_updated_at") == Of(c, "record_updated_at") && Of(d, "verified_at") == Of(c, "verified_at");
    assert Of(d, "candidate") == Of(c, "candidate") && Of(d, "progress_table") == Of(c, "progress_table");
    assert Of(d, "next_actions") == Of(c, "next_actions") && Of(d, "blockers") == Of(c, "blockers");
    assert Of(d, "findings") == Of(c, "findings") && Of(d, "handoffs") == Of(c, "handoffs");
  }

  lemma RequiredAt(i: nat)
    requires i < |REQUIRED|
    ensures REQUIRED[i] in REQUIRED
  {
  }

  lemma StatusGuard(c: Json, d: Json, v: Json, expected: Option<string>)
    requires GoodFields(c, expected) && (AllPresent(d, REQUIRED) <==> !Missing(Some(v)))
    requires Of(d, "status") == Some(v)
    requires Agree(c, d, { "protocol_version", "skill" })
    ensures GoodFields(d, expected) <==> IsFalsyValue(v) || OneOf(Some(v), STATUSES)
  {
    assert Of(d, "protocol_version") == Of(c, "protocol_version") && Of(d, "skill") == Of(c, "skill");
    FalsyValues(v);
  }

  lemma VersionGuard(c: Json, d: Json, v: Json, expected: Option<string>)
    requires GoodFields(c, expected) && (AllPresent(d, REQUIRED) <==> !Missing(Some(v)))
    requires Of(d, "protocol_version") == Some(v)
    requires Agree(c, d, { "status", "skill" })
    ensures GoodFields(d, expected) <==> IsFalsyValue(v) || OneOf(Some(v), WIRE_VERSIONS)
  {
    assert Of(d, "status") == Of(c, "status") && Of(d, "skill") == Of(c, "skill");
    FalsyValues(v);
  }

  lemma SkillGuard(c: Json, d: Json, v: Json, skill: string)
    requires GoodFields(c, Some(skill)) && skill != "" && (AllPresent(d, REQUIRED) <==> !Missing(Some(v)))
    requires Of(d, "skill") == Some(v)
    requires Agree(c, d, { "status", "protocol_version" })
    ensures GoodFields(d, Some(skill)) <==> IsFalsyValue(v) || v == Str(skill)
  {
    assert Of(d, "status") == Of(c, "status") && Of(d, "protocol_version") == Of(c, "protocol_version");
    FalsyValues(v);
  }

  lemma NextActionStays(c: Json, d: Json)
    requires HasNextAction(c) && Of(d, "next_actions") == Of(c, "next_actions") && Of(d, "status") == Of(c, "status")
    ensures HasNextAction(d)
  {
  }

  lemma NextActionNeeded(c: Json, d: Json, v: Json)
    requires Of(d, "next_actions") == Of(c, "next_actions") && Of(d, "status") == Some(v)
    ensures HasNextAction(d) <==> (v == Str("in_progress") ==> HasActions(c))
  {
  }

  /** `d` differs from `c` in one guarded field, and is complete unless the new value is missing. */
  predicate Regarded(c: Json, d: Json, name: string, v: Json, others: set<string>) {
    && d.Obj? && Of(d, name) == Some(v) && Agree(c, d, SECTIONS) && Agree(c, d, others)
    && (AllPresent(d, REQUIRED) <==> !Missing(Some(v)))
  }

  lemma Regard(c: Json, d: Json, name: string, v: Json, others: set<string>)
    requires Differs(c, d, name, v) && AllPresent(c, REQUIRED)
    requires name in REQUIRED && name !in others && name !in SECTIONS
    ensures Regarded(c, d, name, v, others)
  {
    PresentIfValue(c, d, name, v, REQUIRED);
    OthersAgree(c, d, name, v, SECTIONS);
    OthersAgree(c, d, name, v, others);
  }

  lemma StatusDiffers(c: Json, d: Json, v: Json)
    requires Differs(c, d, "status", v) && AllPresent(c, REQUIRED)
    ensures Regarded(c, d, "status", v, { "protocol_version", "skill" })
  {
    RequiredAt(8);
    Regard(c, d, "status", v, { "protocol_version", "skill" });
  }

  lemma StatusRegarded(date: DateParse, c: Json, d: Json, v: Json, expected: Option<string>)
    requires WellFormed(date, c, expected) && Regarded(c, d, "status", v, { "protocol_version", "skill" })
    ensures WellFormed(date, d, expected) <==>
      IsFalsyValue(v) || (OneOf(Some(v), STATUSES) && (v == Str("in_progress") ==> HasActions(c)))
  {
    StatusGuard(c, d, v, expected);
    NextActionNeeded(c, d, v);
    OnlyGuardsAreLeft(date, c, d, expected);
  }

  /** A status passes if it is known (and in_progress has a next action), or is 0 or false. */
  lemma StatusThatPass(date: DateParse, c: Json, d: Json, v: Json, expected: Option<string>)
    requires WellFormed(date, c, expected) && Differs(c, d, "status", v)
    ensures WellFormed(date, d, expected) <==>
      IsFalsyValue(v) || (OneOf(Some(v), STATUSES) && (v == Str("in_progress") ==> HasActions(c)))
  {
    StatusDiffers(c, d, v);
    StatusRegarded(date, c, d, v, expected);
  }

  predicate HasActions(c: Json) {
    var actions := Of(c, "next_actions"); actions.Some? && actions.value.Arr? && actions.value.items != []
  }

  lemma VersionDiffers(c: Json, d: Json, v: Json)
    requires Differs(c, d, "protocol_version", v) && AllPresent(c, REQUIRED)
    ensures Regarded(c, d, "protocol_version", v, { "status", "skill" })
  {
    RequiredAt(0);
    Regard(c, d, "protocol_version", v, { "status", "skill" });
  }

  lemma VersionRegarded(date: DateParse, c: Json, d: Json, v: Json, expected: Option<string>)
    requires WellFormed(date, c, expected) && Regarded(c, d, "protocol_version", v, { "status", "skill" })
    ensures WellFormed(date, d, expected) <==> IsFalsyValue(v) || OneOf(Some(v), WIRE_VERSIONS)
  {
    VersionGuard(c, d, v, expected);
    NextActionStays(c, d);
    OnlyGuardsAreLeft(date, c, d, expected);
  }

  /** A protocol version passes if it is supported, or is 0 or false. */
  lemma VersionsThatPass(date: DateParse, c: Json, d: Json, v: Json, expected: Option<string>)
    requires WellFormed(date, c, expected) && Differs(c, d, "protocol_version", v)
    ensures WellFormed(date, d, expected) <==> IsFalsyValue(v) || OneOf(Some(v), WIRE_VERSIONS)
  {
    VersionDiffers(c, d, v);
    VersionRegarded(date, c, d, v, expected);
  }

  lemma SkillIsNamed(c: Json, skill: string)
    requires AllPresent(c, REQUIRED) && IsText(Of(c, "skill"), skill)
    ensures skill != ""
  {
    PresentAt(c, REQUIRED, 1);
  }

  lemma HandoffsUnder(date: DateParse, handoffs: Option<Json>, skill: string, v: Json)
    requires GoodHandoffs(date, handoffs, Some(Str(skill))) && (IsFalsyValue(v) || v == Str(skill))
    ensures GoodHandoffs(date, handoffs, Some(v))
  {
    if IsFalsyValue(v) { AnyProducerPasses(date, handoffs, Some(Str(skill)), Some(v)); }
  }

  lemma SkillDiffers(c: Json, d: Json, v: Json)
    requires Differs(c, d, "skill", v) && AllPresent(c, REQUIRED)
    ensures Regarded(c, d, "skill", v, { "status", "protocol_version" })
  {
    RequiredAt(1);
    Regard(c, d, "skill", v, { "status", "protocol_version" });
  }

  lemma SkillRegarded(date: DateParse, c: Json, d: Json, v: Json, skill: string)
    requires WellFormed(date, c, Some(skill)) && IsText(Of(c, "skill"), skill)
    requires Regarded(c, d, "skill", v, { "status", "protocol_version" })
    ensures WellFormed(date, d, Some(skill)) <==> IsFalsyValue(v) || v == Str(skill)
  {
    SkillIsNamed(c, skill);
    SkillGuard(c, d, v, skill);
    NextActionStays(c, d);
    OnlyGuardsAreLeft(date, c, d, Some(skill));
    if IsFalsyValue(v) || v == Str(skill) { HandoffsUnder(date, Of(c, "handoffs"), skill, v); }
  }

  /** Asked for one skill, a checkpoint passes if it names that skill, or if its skill is 0 or false. */
  lemma SkillsThatPass(date: DateParse, c: Json, d: Json, v: Json, skill: string)
    requires WellFormed(date, c, Some(skill)) && IsText(Of(c, "skill"), skill) && Differs(c, d, "skill", v)
    ensures WellFormed(date, d, Some(skill)) <==> IsFalsyValue(v) || v == Str(skill)
  {
    SkillDiffers(c, d, v);
    SkillRegarded(date, c, d, v, skill);
  }

  /** So a valid checkpoint asked for by skill need not name it. */
  lemma ValidSkills(date: DateParse, c: Json, skill: string)
    requires WellFormed(date, c, Some(skill)) && skill != ""
    ensures Of(c, "skill").Some? && (Of(c, "skill").value == Str(skill) || IsFalsyValue(Of(c, "skill").value))
  {
    PresentAt(c, REQUIRED, 1);
    FalsyValues(Of(c, "skill").value);
  }

  /** Under a falsy skill no producer is held to it. */
  lemma AnyProducerPasses(date: DateParse, handoffs: Option<Json>, skill: Option<Json>, falsy: Option<Json>)
    requires GoodHandoffs(date, handoffs, skill) && !Truthy(falsy)
    ensures GoodHandoffs(date, handoffs, falsy)
  {
    if handoffs.Some? {
      forall h <- handoffs.value.items ensures GoodHandoff(date, h, falsy) {
        assert GoodHandoff(date, h, skill);
      }
    }
  }

  // ---- the sections ----

  /** `d` has `v` in one section and agrees with `c` elsewhere. */
  predicate OnlyIn(c: Json, d: Json, name: string, v: Json, others: set<string>) {
    && d.Obj? && Of(d, name) == Some(v) && AllPresent(d, REQUIRED)
    && Agree(c, d, FRAME) && Agree(c, d, others)
  }

  const FRAME := { "status", "protocol_version", "skill", "created_at", "updated_at", "record_updated_at",
                   "verified_at", "candidate", "handoffs" }

  lemma OneSectionDiffers(c: Json, d: Json, name: string, v: Json, others: set<string>)
    requires Differs(c, d, name, v) && AllPresent(c, REQUIRED) && name !in others
    requires name in { "progress_table", "next_actions", "blockers", "findings" }
    ensures OnlyIn(c, d, name, v, others)
  {
    SectionIsNotRequired(name);
    StillComplete(c, d, name, v);
    OthersAgree(c, d, name, v, FRAME);
    OthersAgree(c, d, name, v, others);
  }

  lemma FrameStands(date: DateParse, c: Json, d: Json, expected: Option<string>)
    requires WellFormed(date, c, expected) && AllPresent(d, REQUIRED) && Agree(c, d, FRAME)
    ensures GoodFields(d, expected) && IsoTimes(date, d) && GoodTimes(date, d)
    ensures Of(d, "verified_at").Some? ==> GoodIdentity(Of(d, "candidate"))
    ensures GoodHandoffs(date, Of(d, "handoffs"), Of(d, "skill")) && Of(d, "status") == Of(c, "status")
  {
    assert Of(d, "status") == Of(c, "status") && Of(d, "skill") == Of(c, "skill");
    assert Of(d, "protocol_version") == Of(c, "protocol_version");
    assert Of(d, "created_at") == Of(c, "created_at") && Of(d, "updated_at") == Of(c, "updated_at");
    assert Of(d, "record_updated_at") == Of(c, "record_updated_at") && Of(d, "verified_at") == Of(c, "verified_at");
    assert Of(d, "candidate") == Of(c, "candidate") && Of(d, "handoffs") == Of(c, "handoffs");
    TimesDependOnFourFields(date, c, d);
  }

  lemma SectionIsNotRequired(name: string)
    requires name in { "progress_table", "next_actions", "blockers", "findings" }
    ensures name !in REQUIRED
  {
    forall i | 0 <= i < |REQUIRED| ensures REQUIRED[i] != name {}
  }

  lemma StillComplete(c: Json, d: Json, name: string, v: Json)
    requires Differs(c, d, name, v) && AllPresent(c, REQUIRED) && name !in REQUIRED
    ensures AllPresent(d, REQUIRED)
  {
    forall n <- REQUIRED ensures !Missing(Of(d, n)) { assert !Missing(Of(c, n)); }
  }

  lemma RowsLeft(date: DateParse, c: Json, d: Json, v: Json, expected: Option<string>)
    requires WellFormed(date, c, expected)
    requires OnlyIn(c, d, "progress_table", v, { "next_actions", "blockers", "findings" })
    ensures WellFormed(date, d, expected) <==> ListOf(Some(v), GoodRow)
  {
    FrameStands(date, c, d, expected);
    assert Of(d, "next_actions") == Of(c, "next_actions");
    assert Of(d, "blockers") == Of(c, "blockers");
    assert Of(d, "findings") == Of(c, "findings");
  }

  lemma ActionsLeft(date: DateParse, c: Json, d: Json, v: Json, expected: Option<string>)
    requires WellFormed(date, c, expected)
    requires OnlyIn(c, d, "next_actions", v, { "progress_table", "blockers", "findings" })
    ensures WellFormed(date, d, expected) <==> ListOf(Some(v), GoodAction) && HasNextAction(d)
  {
    FrameStands(date, c, d, expected);
    assert Of(d, "progress_table") == Of(c, "progress_table");
    assert Of(d, "blockers") == Of(c, "blockers");
    assert Of(d, "findings") == Of(c, "findings");
  }

  lemma BlockersLeft(date: DateParse, c: Json, d: Json, v: Json, expected: Option<string>)
    requires WellFormed(date, c, expected)
    requires OnlyIn(c, d, "blockers", v, { "progress_table", "next_actions", "findings" })
    ensures WellFormed(date, d, expected) <==> ListOf(Some(v), GoodBlocker)
  {
    FrameStands(date, c, d, expected);
    assert Of(d, "progress_table") == Of(c, "progress_table");
    assert Of(d, "next_actions") == Of(c, "next_actions");
    assert Of(d, "findings") == Of(c, "findings");
  }

  lemma FindingsLeft(date: DateParse, c: Json, d: Json, v: Json, expected: Option<string>)
    requires WellFormed(date, c, expected)
    requires OnlyIn(c, d, "findings", v, { "progress_table", "next_actions", "blockers" })
    ensures WellFormed(date, d, expected) <==> GoodFindings(date, Some(v))
  {
    FrameStands(date, c, d, expected);
    assert Of(d, "progress_table") == Of(c, "progress_table");
    assert Of(d, "next_actions") == Of(c, "next_actions");
    assert Of(d, "blockers") == Of(c, "blockers");
  }

  /**
   Which progress tables: arrays of objects with an id, a label and a known (or falsy) status, none of them
   missing.
   */
  lemma TablesThatPass(date: DateParse, c: Json, d: Json, v: Json, expected: Option<string>)
    requires WellFormed(date, c, expected) && Differs(c, d, "progress_table", v)
    ensures WellFormed(date, d, expected) <==>
      v.Arr? && forall row <- v.items ::
        && row.Obj?
        && !Missing(Of(row, "id")) && !Missing(Of(row, "label")) && !Missing(Of(row, "status"))
        && (Truthy(Of(row, "status")) ==>
              OneOf(Of(row, "status"), { "complete", "in_progress", "not_started", "blocked", "failed" }))
  {
    OneSectionDiffers(c, d, "progress_table", v, { "next_actions", "blockers", "findings" });
    RowsLeft(date, c, d, v, expected);
    forall row: Json ensures AllPresent(row, ["id", "label", "status"]) <==>
      !Missing(Of(row, "id")) && !Missing(Of(row, "label")) && !Missing(Of(row, "status")) { ThreePresent(row); }
  }

  lemma ThreePresent(row: Json)
    ensures AllPresent(row, ["id", "label", "status"]) <==>
      !Missing(Of(row, "id")) && !Missing(Of(row, "label")) && !Missing(Of(row, "status"))
  {
    var names := ["id", "label", "status"];
    assert names[0] in names && names[1] in names && names[2] in names;
  }

  /** Which next actions: texts, or objects with a text and at most a text for done_when; some, while in progress. */
  lemma ActionsThatPass(date: DateParse, c: Json, d: Json, v: Json, expected: Option<string>)
    requires WellFormed(date, c, expected) && Differs(c, d, "next_actions", v)
    ensures WellFormed(date, d, expected) <==>
      && v.Arr?
      && (IsText(Of(c, "status"), "in_progress") ==> v.items != [])
      && (forall action <- v.items ::
            action.Str? || (&& action.Obj?
                            && Of(action, "text").Some? && Of(action, "text").value.Str?
                            && (Of(action, "done_when").None? || Of(action, "done_when").value.Str?)))
  {
    OneSectionDiffers(c, d, "next_actions", v, { "progress_table", "blockers", "findings" });
    ActionsLeft(date, c, d, v, expected);
    assert Of(d, "status") == Of(c, "status");
  }

  /** Which blockers: objects with an id and a description, and at most one of the three needs. */
  lemma BlockersThatPass(date: DateParse, c: Json, d: Json, v: Json, expected: Option<string>)
    requires WellFormed(date, c, expected) && Differs(c, d, "blockers", v)
    ensures WellFormed(date, d, expected) <==>
      v.Arr? && forall blocker <- v.items ::
        && blocker.Obj? && Truthy(Of(blocker, "id")) && Truthy(Of(blocker, "description"))
        && (Of(blocker, "needs").None? || OneOf(Of(blocker, "needs"), { "user_decision", "code_fix", "external_dep" }))
  {
    OneSectionDiffers(c, d, "blockers", v, { "progress_table", "next_actions", "findings" });
    BlockersLeft(date, c, d, v, expected);
  }

  /** Who did it and when: what a finding must say of its verification. */
  predicate Identifies(v: Option<Json>) {
    && v.Some? && v.value.Obj? && Named(Of(v.value, "kind")) && Named(Of(v.value, "id"))
    && (Of(v.value, "digest").None? || Named(Of(v.value, "digest")))
    && (Of(v.value, "path").None? || Named(Of(v.value, "path")))
  }

  /** Which findings: objects with an id, a known status and an instant; a verified one says when, and of what. */
  lemma FindingsThatPass(date: DateParse, c: Json, d: Json, v: Json, expected: Option<string>)
    requires WellFormed(date, c, expected) && Differs(c, d, "findings", v)
    ensures WellFormed(date, d, expected) <==>
      v.Arr? && forall finding <- v.items ::
        && finding.Obj? && Truthy(Of(finding, "id")) && IsIso(date, Of(finding, "record_updated_at"))
        && OneOf(Of(finding, "status"), { "open", "fixed", "verified", "accepted", "dismissed" })
        && (Of(finding, "status") == Some(Str("verified")) ==>
              IsIso(date, Of(finding, "verified_at")) && Identifies(Of(finding, "candidate")))
  {
    OneSectionDiffers(c, d, "findings", v, { "progress_table", "next_actions", "blockers" });
    FindingsLeft(date, c, d, v, expected);
  }

  // ---- rows and handoffs ----

  lemma RowStatusesThatPass(row: Json, d: Json, v: Json)
    requires GoodRow(row) && Differs(row, d, "status", v)
    ensures GoodRow(d) <==> IsFalsyValue(v) || OneOf(Some(v), ROW_STATUSES)
  {
    var names := ["id", "label", "status"];
    assert names[2] in names;
    PresentIfValue(row, d, "status", v, names);
    OthersAgree(row, d, "status", v, {});
    FalsyValues(v);
  }

  const HANDOFF_FIELDS := { "contract_version", "type", "created_at", "producer", "payload",
                            "verified_at", "candidate", "artifact" }

  lemma HeaderRequiredAt(i: nat)
    requires i < |HANDOFF_REQUIRED|
    ensures HANDOFF_REQUIRED[i] in HANDOFF_REQUIRED
  {
  }

  lemma ContractVersionsThatPass(date: DateParse, h: Json, d: Json, v: Json, skill: Option<Json>)
    requires GoodHandoff(date, h, skill) && Differs(h, d, "contract_version", v)
    ensures GoodHandoff(date, d, skill) <==> IsFalsyValue(v) || v == Str("1.0")
  {
    HeaderRequiredAt(1);
    PresentIfValue(h, d, "contract_version", v, HANDOFF_REQUIRED);
    OthersAgree(h, d, "contract_version", v, HANDOFF_FIELDS - { "contract_version" });
    FalsyValues(v);
    SameBody(date, h, d);
  }

  lemma SameBody(date: DateParse, h: Json, d: Json)
    requires Of(d, "type") == Of(h, "type") && Of(d, "verified_at") == Of(h, "verified_at")
    requires Of(d, "candidate") == Of(h, "candidate") && Of(d, "artifact") == Of(h, "artifact")
    requires Of(d, "payload") == Of(h, "payload")
    ensures GoodBody(date, d) == GoodBody(date, h)
  {
  }

  lemma CreationTimesThatPass(date: DateParse, h: Json, d: Json, v: Json, skill: Option<Json>)
    requires GoodHandoff(date, h, skill) && Differs(h, d, "created_at", v)
    ensures GoodHandoff(date, d, skill) <==> IsFalsyValue(v) || (v != Str("") && IsIso(date, Some(v)))
  {
    HeaderRequiredAt(3);
    PresentIfValue(h, d, "created_at", v, HANDOFF_REQUIRED);
    OthersAgree(h, d, "created_at", v, HANDOFF_FIELDS - { "created_at" });
    FalsyValues(v);
    SameBody(date, h, d);
  }

  lemma TypeGuard(date: DateParse, h: Json, d: Json, v: Json, skill: Option<Json>)
    requires GoodHandoff(date, h, skill) && d.Obj? && (AllPresent(d, HANDOFF_REQUIRED) <==> !Missing(Some(v)))
    requires Of(d, "type") == Some(v) && Of(d, "contract_version") == Of(h, "contract_version")
    requires Of(d, "created_at") == Of(h, "created_at") && Of(d, "producer") == Of(h, "producer")
    requires Of(d, "payload") == Of(h, "payload")
    ensures GoodHandoff(date, d, skill) <==> IsFalsyValue(v) || (OneOf(Some(v), HANDOFF_TYPES) && GoodBody(date, d))
  {
    FalsyValues(v);
  }

  /** A handoff of type 0 or false is held to no type's fields at all. */
  lemma TypesThatPass(date: DateParse, h: Json, d: Json, v: Json, skill: Option<Json>)
    requires GoodHandoff(date, h, skill) && Differs(h, d, "type", v)
    ensures GoodHandoff(date, d, skill) <==> IsFalsyValue(v) || (OneOf(Some(v), HANDOFF_TYPES) && GoodBody(date, d))
  {
    HeaderRequiredAt(2);
    PresentIfValue(h, d, "type", v, HANDOFF_REQUIRED);
    OthersAgree(h, d, "type", v, HANDOFF_FIELDS - { "type" });
    TypeGuard(date, h, d, v, skill);
  }

  /** Any id that is not missing passes in a handoff; the scan for duplicates looks at truthy ones only. */
  lemma HandoffIdsThatPass(date: DateParse, h: Json, d: Json, v: Json, skill: Option<Json>)
    requires GoodHandoff(date, h, skill) && Differs(h, d, "id", v)
    ensures GoodHandoff(date, d, skill) <==> !Missing(Some(v))
  {
    HeaderRequiredAt(0);
    PresentIfValue(h, d, "id", v, HANDOFF_REQUIRED);
    OthersAgree(h, d, "id", v, HANDOFF_FIELDS);
    SameBody(date, h, d);
  }

  // ---- a checkpoint of no version and no skill ----

  /** The object with these names and values. */
  function Record(names: seq<string>, values: seq<Json>): Json
    requires |names| == |values|
  {
    Obj(seq(|names|, i requires 0 <= i < |names| => (names[i], values[i])))
  }

  lemma {:induction false} FoundAt(members: seq<(string, Json)>, i: nat)
    requires i < |members| && forall j | 0 <= j < i :: members[j].0 != members[i].0
    ensures Lookup(members, members[i].0) == Some(members[i].1)
  {
    if i > 0 { FoundAt(members[1..], i - 1); }
  }

  lemma {:induction false} NotFound(members: seq<(string, Json)>, name: string)
    requires forall j | 0 <= j < |members| :: members[j].0 != name
    ensures Lookup(members, name) == None
  {
    if members != [] { NotFound(members[1..], name); }
  }

  lemma RecordHolds(names: seq<string>, values: seq<Json>)
    requires |names| == |values| && forall i, j | 0 <= i < j < |names| :: names[i] != names[j]
    ensures forall i | 0 <= i < |names| :: Of(Record(names, values), names[i]) == Some(values[i])
    ensures forall name | name !in names :: Of(Record(names, values), name) == None
  {
    var members := Record(names, values).members;
    forall i | 0 <= i < |names| ensures Of(Record(names, values), names[i]) == Some(values[i]) { FoundAt(members, i); }
    forall name | name !in names ensures Of(Record(names, values), name) == None { NotFound(members, name); }
  }

  lemma RecordIsComplete(names: seq<string>, values: seq<Json>)
    requires |names| == |values| && forall i, j | 0 <= i < j < |names| :: names[i] != names[j]
    requires forall v <- values :: !Missing(Some(v))
    ensures AllPresent(Record(names, values), names)
  {
    RecordHolds(names, values);
    forall name <- names ensures !Missing(Of(Record(names, values), name)) {
      var i :| 0 <= i < |names| && names[i] == name;
      assert values[i] in values;
    }
  }

  const OPTIONAL := { "record_updated_at", "verified_at", "candidate", "progress_table",
                      "next_actions", "blockers", "findings", "handoffs" }

  lemma RequiredNames()
    ensures forall i, j | 0 <= i < j < |REQUIRED| :: REQUIRED[i] != REQUIRED[j]
  {
  }

  lemma OptionalIsNotRequired(name: string)
    requires name in OPTIONAL
    ensures name !in REQUIRED
  {
    forall i | 0 <= i < |REQUIRED| ensures REQUIRED[i] != name {}
  }

  function AnonymousValues(at: string): (values: seq<Json>)
    ensures |values| == 10
    ensures at != "" ==> forall v <- values :: !Missing(Some(v))
  {
    [Num(0), Bool(false), Str("p"), Str("/p"), Str(at), Str(at), Str("build"), Str("1"), Str("complete"), Str("done")]
  }

  /** The required fields of an envelope: no version, no skill, one instant, and anything in the rest. */
  function Anonymous(at: string): Json { Record(REQUIRED, AnonymousValues(at)) }

  lemma AnonymousIsBare(at: string)
    requires at != ""
    ensures AllPresent(Anonymous(at), REQUIRED)
    ensures forall name <- OPTIONAL :: Of(Anonymous(at), name).None?
  {
    RequiredNames();
    RecordHolds(REQUIRED, AnonymousValues(at));
    RecordIsComplete(REQUIRED, AnonymousValues(at));
    forall name <- OPTIONAL ensures Of(Anonymous(at), name).None? { OptionalIsNotRequired(name); }
  }

  lemma AnonymousFields(at: string, names: seq<string>, values: seq<Json>)
    requires names == REQUIRED && values == AnonymousValues(at)
    ensures var c := Record(names, values);
            && Of(c, "protocol_version") == Some(Num(0)) && Of(c, "skill") == Some(Bool(false))
            && Of(c, "created_at") == Some(Str(at)) && Of(c, "updated_at") == Some(Str(at))
            && Of(c, "status") == Some(Str("complete"))
  {
    RequiredNames();
    RecordHolds(names, values);
    assert names[0] == "protocol_version" && names[1] == "skill" && names[8] == "status";
    assert names[4] == "created_at" && names[5] == "updated_at";
  }

  /** An envelope of required fields only, under falsy version and skill. */
  lemma BareEnvelopePasses(date: DateParse, c: Json, expected: Option<string>)
    requires c.Obj? && AllPresent(c, REQUIRED) && (forall name <- OPTIONAL :: Of(c, name).None?)
    requires Of(c, "protocol_version") == Some(Num(0)) && Of(c, "skill") == Some(Bool(false))
    requires Of(c, "status") == Some(Str("complete"))
    requires Of(c, "created_at") == Of(c, "updated_at") && IsIso(date, Of(c, "created_at"))
    ensures WellFormed(date, c, expected)
  {
    assert Of(c, "record_updated_at").None? && Of(c, "verified_at").None?;
    assert Of(c, "progress_table").None? && Of(c, "next_actions").None? && Of(c, "blockers").None?;
    assert Of(c, "findings").None? && Of(c, "handoffs").None?;
  }

  /** Such a checkpoint is valid for every skill it may be asked for by. */
  lemma AnonymousPasses(date: DateParse, at: string, skill: string)
    requires at != "" && date(at).Some?
    ensures WellFormed(date, Anonymous(at), Some(skill))
  {
    AnonymousIsBare(at);
    AnonymousFields(at, REQUIRED, AnonymousValues(at));
    BareEnvelopePasses(date, Anonymous(at), Some(skill));
  }
}
