/** What the checkpoint and handoff contracts ask, stated declaratively. */
module Contract {
  import opened Text
  import opened JsonValues

  const WIRE_VERSIONS := { "1.0", "1.1" }
  const VERIFICATION_VERDICT := "verification.verdict"
  const ARCHITECTURE_MODULE_MAP := "architecture.module-map"
  const EVIDENCE_REFERENCE := "evidence.reference"
  const ACCEPTANCE_CHECKS := "acceptance.checks"
  const HANDOFF_TYPES := { VERIFICATION_VERDICT, ARCHITECTURE_MODULE_MAP, EVIDENCE_REFERENCE, ACCEPTANCE_CHECKS }
  const CHECK_STATUSES := { "PASS", "FAIL", "NOT-CHECKED" }
  const STATUSES := { "in_progress", "blocked", "complete", "failed" }
  const ROW_STATUSES := { "complete", "in_progress", "not_started", "blocked", "failed" }
  const BLOCKER_NEEDS := { "user_decision", "code_fix", "external_dep" }
  const FINDING_STATUSES := { "open", "fixed", "verified", "accepted", "dismissed" }
  const VERDICTS := { "PASS", "FAIL", "INCOMPLETE" }
  const REQUIRED: seq<string> :=
    ["protocol_version", "skill", "project", "project_dir", "created_at", "updated_at",
     "phase", "step", "status", "progress_summary"]
  const HANDOFF_REQUIRED: seq<string> := ["id", "contract_version", "type", "created_at", "producer", "payload"]

  /** isIsoInstant and Date.parse in one: the instant a well-shaped text denotes, None for any other. */
  type DateParse = string -> Option<int>

  function Of(v: Json, name: string): Option<Json> { Prop(Some(v), name) }

  predicate Missing(v: Option<Json>) { v.None? || v == Some(Null) || IsText(v, "") }

  predicate AllPresent(c: Json, names: seq<string>) {
    forall name <- names :: !Missing(Of(c, name))
  }

  predicate OneOf(v: Option<Json>, names: set<string>) { v.Some? && v.value.Str? && v.value.s in names }

  predicate IsRecord(v: Option<Json>) { v.Some? && v.value.Obj? }

  // ---- instants ----

  predicate Digits(s: string, from: nat, to: nat)
    requires from <= to <= |s|
  {
    forall i | from <= i < to :: IsDigit(s[i])
  }

  function SkipDigits(s: string): string {
    if s != [] && IsDigit(s[0]) then SkipDigits(s[1..]) else s
  }

  predicate IsZone(s: string) {
    || s == "Z"
    || (|s| == 6 && s[0] in { '+', '-' } && s[3] == ':' && IsDigit(s[2]) && IsDigit(s[5]) && '0' <= s[4] <= '5'
        && (s[1] in { '0', '1' } || (s[1] == '2' && '0' <= s[2] <= '3')))
  }

  /** `YYYY-MM-DDThh:mm:ss`, an optional fraction, then `Z` or a `±hh:mm` offset. */
  predicate IsoShape(s: string) {
    && |s| >= 20
    && Digits(s, 0, 4) && s[4] == '-' && Digits(s, 5, 7) && s[7] == '-' && Digits(s, 8, 10) && s[10] == 'T'
    && Digits(s, 11, 13) && s[13] == ':' && Digits(s, 14, 16) && s[16] == ':' && Digits(s, 17, 19)
    && IsZone(if s[19] == '.' && |s| > 20 && IsDigit(s[20]) then SkipDigits(s[20..]) else s[19..])
  }

  /** The program's instants, over a Date.parse that gives None for NaN. */
  function IsoInstants(parse: string -> Option<int>): DateParse {
    s => if IsoShape(s) then parse(s) else None
  }

  function Instant(date: DateParse, v: Option<Json>): Option<int> {
    if v.Some? && v.value.Str? then date(v.value.s) else None
  }

  predicate IsIso(date: DateParse, v: Option<Json>) { Instant(date, v).Some? }

  predicate AbsentOrIso(date: DateParse, v: Option<Json>) { v.Some? ==> IsIso(date, v) }

  // ---- identities and handoffs ----

  predicate AbsentOrNamed(v: Option<Json>) { v.None? || Named(v) }

  predicate GoodIdentity(v: Option<Json>) {
    && IsRecord(v)
    && Named(Prop(v, "kind")) && Named(Prop(v, "id"))
    && AbsentOrNamed(Prop(v, "digest")) && AbsentOrNamed(Prop(v, "path"))
  }

  predicate GoodProducer(producer: Option<Json>, skill: Option<Json>) {
    && IsRecord(producer)
    && Named(Prop(producer, "skill"))
    && (Truthy(skill) ==> Identical(Prop(producer, "skill"), skill))
    && AbsentOrNamed(Prop(producer, "run_id"))
  }

  predicate GoodCheck(check: Json) {
    check.Obj? && Named(Of(check, "id")) && OneOf(Of(check, "status"), CHECK_STATUSES)
  }

  /** Acceptance checks: named, of distinct ids, of known status, and all PASS under a PASS verdict. */
  predicate GoodChecks(checks: seq<Json>, verdict: Option<Json>) {
    && checks != []
    && (forall c <- checks :: GoodCheck(c))
    && (forall i, j | 0 <= i < j < |checks| :: Of(checks[i], "id") != Of(checks[j], "id"))
    && (IsText(verdict, "PASS") ==> forall c <- checks :: IsText(Of(c, "status"), "PASS"))
  }

  predicate GoodAcceptance(payload: Option<Json>) {
    && Named(Prop(payload, "sprint"))
    && OneOf(Prop(payload, "verdict"), VERDICTS)
    && Prop(payload, "checks").Some? && Prop(payload, "checks").value.Arr?
    && GoodChecks(Prop(payload, "checks").value.items, Prop(payload, "verdict"))
  }

  predicate GoodHeader(date: DateParse, handoff: Json, skill: Option<Json>) {
    && AllPresent(handoff, HANDOFF_REQUIRED)
    && (Truthy(Of(handoff, "contract_version")) ==> IsText(Of(handoff, "contract_version"), "1.0"))
    && (Truthy(Of(handoff, "type")) ==> OneOf(Of(handoff, "type"), HANDOFF_TYPES))
    && (Truthy(Of(handoff, "created_at")) ==> IsIso(date, Of(handoff, "created_at")))
    && GoodProducer(Of(handoff, "producer"), skill)
    && IsRecord(Of(handoff, "payload"))
  }

  /** What each type of handoff must carry besides. */
  predicate GoodBody(date: DateParse, handoff: Json) {
    var kind := Of(handoff, "type");
    && (IsText(kind, VERIFICATION_VERDICT) ==>
          && Truthy(Of(handoff, "verified_at")) && IsIso(date, Of(handoff, "verified_at"))
          && GoodIdentity(Of(handoff, "candidate"))
          && OneOf(Prop(Of(handoff, "payload"), "verdict"), VERDICTS))
    && (OneOf(kind, { ARCHITECTURE_MODULE_MAP, EVIDENCE_REFERENCE, ACCEPTANCE_CHECKS }) ==>
          GoodIdentity(Of(handoff, "artifact")))
    && (IsText(kind, ACCEPTANCE_CHECKS) ==> GoodAcceptance(Of(handoff, "payload")))
  }

  predicate GoodHandoff(date: DateParse, handoff: Json, skill: Option<Json>) {
    handoff.Obj? && GoodHeader(date, handoff, skill) && GoodBody(date, handoff)
  }

  // ---- the envelope ----

  predicate GoodFields(c: Json, expected: Option<string>) {
    && AllPresent(c, REQUIRED)
    && (Truthy(Of(c, "protocol_version")) ==> OneOf(Of(c, "protocol_version"), WIRE_VERSIONS))
    && (Truthy(Of(c, "status")) ==> OneOf(Of(c, "status"), STATUSES))
    && (expected.Some? && expected.value != "" && Truthy(Of(c, "skill")) ==> IsText(Of(c, "skill"), expected.value))
  }

  predicate IsoTimes(date: DateParse, c: Json) {
    && AbsentOrIso(date, Of(c, "created_at")) && AbsentOrIso(date, Of(c, "updated_at"))
    && AbsentOrIso(date, Of(c, "record_updated_at")) && AbsentOrIso(date, Of(c, "verified_at"))
  }

  /** The record's own instant: record_updated_at where that is one, else updated_at. */
  function RecordInstant(date: DateParse, c: Json): Option<int> {
    var own := Instant(date, Of(c, "record_updated_at"));
    if own.Some? then own else Instant(date, Of(c, "updated_at"))
  }

  predicate GoodTimes(date: DateParse, c: Json) {
    var created, updated := Instant(date, Of(c, "created_at")), Instant(date, Of(c, "updated_at"));
    var record, verified := RecordInstant(date, c), Instant(date, Of(c, "verified_at"));
    && (created.Some? && updated.Some? ==> created.value <= updated.value)
    && (Truthy(Of(c, "record_updated_at")) && updated.Some? ==> record == updated)
    && (verified.Some? && record.Some? ==> verified.value <= record.value)
  }

  predicate GoodRow(row: Json) {
    && row.Obj?
    && AllPresent(row, ["id", "label", "status"])
    && (Truthy(Of(row, "status")) ==> OneOf(Of(row, "status"), ROW_STATUSES))
  }

  predicate GoodAction(action: Json) {
    || action.Str?
    || (action.Obj? && Of(action, "text").Some? && Of(action, "text").value.Str?
        && (Of(action, "done_when").Some? ==> Of(action, "done_when").value.Str?))
  }

  predicate GoodBlocker(blocker: Json) {
    && blocker.Obj?
    && Truthy(Of(blocker, "id")) && Truthy(Of(blocker, "description"))
    && (Of(blocker, "needs").Some? ==> OneOf(Of(blocker, "needs"), BLOCKER_NEEDS))
  }

  predicate GoodFinding(date: DateParse, finding: Json) {
    && finding.Obj?
    && Truthy(Of(finding, "id"))
    && OneOf(Of(finding, "status"), FINDING_STATUSES)
    && IsIso(date, Of(finding, "record_updated_at"))
    && (IsText(Of(finding, "status"), "verified") ==>
          IsIso(date, Of(finding, "verified_at")) && GoodIdentity(Of(finding, "candidate")))
  }

  /** Absent, or an array of good items. */
  predicate ListOf(v: Option<Json>, good: Json -> bool) {
    v.None? || (v.value.Arr? && forall item <- v.value.items :: good(item))
  }

  predicate GoodFindings(date: DateParse, v: Option<Json>) {
    v.None? || (v.value.Arr? && forall f <- v.value.items :: GoodFinding(date, f))
  }

  predicate HasNextAction(c: Json) {
    IsText(Of(c, "status"), "in_progress") ==>
      var actions := Of(c, "next_actions"); actions.Some? && actions.value.Arr? && actions.value.items != []
  }

  /** Two handoffs that carry one usable id. */
  predicate SameId(a: Json, b: Json) {
    Truthy(Of(a, "id")) && Identical(Of(a, "id"), Of(b, "id"))
  }

  predicate DistinctIds(handoffs: seq<Json>) {
    forall i, j | 0 <= i < j < |handoffs| :: !SameId(handoffs[i], handoffs[j])
  }

  predicate GoodHandoffs(date: DateParse, v: Option<Json>, skill: Option<Json>) {
    v.None? || (&& v.value.Arr?
                && (forall h <- v.value.items :: GoodHandoff(date, h, skill))
                && DistinctIds(v.value.items))
  }

  predicate WellFormed(date: DateParse, c: Json, expected: Option<string>) {
    && c.Obj?
    && GoodFields(c, expected)
    && IsoTimes(date, c)
    && GoodTimes(date, c)
    && (Of(c, "verified_at").Some? ==> GoodIdentity(Of(c, "candidate")))
    && ListOf(Of(c, "progress_table"), GoodRow)
    && ListOf(Of(c, "next_actions"), GoodAction)
    && HasNextAction(c)
    && ListOf(Of(c, "blockers"), GoodBlocker)
    && GoodFindings(date, Of(c, "findings"))
    && GoodHandoffs(date, Of(c, "handoffs"), Of(c, "skill"))
  }

  lemma PresentAt(c: Json, names: seq<string>, i: nat)
    requires AllPresent(c, names) && i < |names|
    ensures !Missing(Of(c, names[i]))
  {
    assert names[i] in names;
  }

  lemma PresentTimesAreOrdered(date: DateParse, c: Json)
    requires date("").None? && IsoTimes(date, c) && GoodTimes(date, c)
    requires !Missing(Of(c, "created_at")) && !Missing(Of(c, "updated_at"))
    ensures OrderedTimes(date, c)
  {
    var record := Of(c, "record_updated_at");
    assert record.Some? ==> Truthy(record);
  }

  /** Created no later than updated; the record's instant, if given, is the update's; verified no later. */
  predicate OrderedTimes(date: DateParse, c: Json) {
    var created, updated := Instant(date, Of(c, "created_at")), Instant(date, Of(c, "updated_at"));
    && created.Some? && updated.Some? && created.value <= updated.value
    && (Of(c, "record_updated_at").Some? ==> Instant(date, Of(c, "record_updated_at")) == updated)
    && (Of(c, "verified_at").Some? ==>
          Instant(date, Of(c, "verified_at")).Some? && Instant(date, Of(c, "verified_at")).value <= updated.value)
  }

  /** A valid envelope's instants exist and are in order; IsoInstants gives none for the empty text. */
  lemma ValidTimesAreOrdered(date: DateParse, c: Json, expected: Option<string>)
    requires date("").None? && WellFormed(date, c, expected)
    ensures OrderedTimes(date, c)
  {
    PresentAt(c, REQUIRED, 4);
    PresentAt(c, REQUIRED, 5);
    PresentTimesAreOrdered(date, c);
  }

  lemma NoInstantIsEmpty(parse: string -> Option<int>)
    ensures IsoInstants(parse)("").None?
  {
    var empty := "";
    assert |empty| < 20 && !IsoShape(empty);
    assert IsoInstants(parse)(empty) == None;
  }

  lemma TimesDependOnFourFields(date: DateParse, c: Json, d: Json)
    requires Of(d, "created_at") == Of(c, "created_at") && Of(d, "updated_at") == Of(c, "updated_at")
    requires Of(d, "record_updated_at") == Of(c, "record_updated_at") && Of(d, "verified_at") == Of(c, "verified_at")
    ensures IsoTimes(date, d) == IsoTimes(date, c) && GoodTimes(date, d) == GoodTimes(date, c)
  {
  }

  /** With the program's own instants nothing need be asked of Date.parse. */
  lemma ValidIsoTimesAreOrdered(parse: string -> Option<int>, c: Json, expected: Option<string>)
    requires WellFormed(IsoInstants(parse), c, expected)
    ensures OrderedTimes(IsoInstants(parse), c)
  {
    NoInstantIsEmpty(parse);
    ValidTimesAreOrdered(IsoInstants(parse), c, expected);
  }
}
