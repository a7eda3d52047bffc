/**
 The contract between the server and a checkpoint store, and the wrapper that holds a store to it:
 no guarded write is ever sent to a store that cannot compare and swap, and nothing a conforming
 store committed is reported as anything else.
 */
module CheckpointProvider {
  import opened Text
  import opened JsonValues
  import opened StoreSpec

  const FUNCTIONS: seq<string> := ["createSession", "hasSession", "read", "write"]
  const DURABILITIES := { "process", "filesystem", "remote" }
  const SCOPES := { "session", "project" }

  /** The properties of a store object the contract looks at; `functions` names those that are callable. */
  datatype Provider = Provider(apiVersion: Option<Json>, functions: set<string>, capabilities: Option<Json>)
  {
    predicate Swaps() { Truthy(Prop(capabilities, "compareAndSwap")) }
  }

  datatype Needs = Needs(atomic: bool, durable: bool)

  predicate IsBool(v: Option<Json>) { v.Some? && v.value.Bool? }

  predicate IsTextOf(v: Option<Json>, names: set<string>) { v.Some? && v.value.Str? && v.value.s in names }

  predicate HasAll(functions: set<string>, names: seq<string>) { forall name <- names :: name in functions }

  predicate GoodCapabilities(c: Option<Json>, needs: Needs) {
    && c.Some? && c.value.Obj?
    && IsTextOf(Prop(c, "durability"), DURABILITIES)
    && IsTextOf(Prop(c, "scope"), SCOPES)
    && IsBool(Prop(c, "atomicReplace")) && IsBool(Prop(c, "compareAndSwap"))
    && (needs.atomic ==> Prop(c, "atomicReplace") == Prop(c, "compareAndSwap") == Some(Bool(true)))
    && (needs.durable ==> IsTextOf(Prop(c, "durability"), { "filesystem", "remote" }))
  }

  predicate Conforms(p: Option<Provider>, needs: Needs) {
    && p.Some?
    && IsText(p.value.apiVersion, "1.0")
    && HasAll(p.value.functions, FUNCTIONS)
    && GoodCapabilities(p.value.capabilities, needs)
  }

  const PLAIN := Needs(false, false)

  method ValidateFunctions(functions: set<string>, names: seq<string>, errors: seq<string>) returns (r: seq<string>)
    ensures |r| >= |errors|
    ensures |r| == |errors| <==> HasAll(functions, names)
  {
    r := errors;
    for i := 0 to |names|
      invariant |r| >= |errors|
      invariant |r| == |errors| <==> forall k | 0 <= k < i :: names[k] in functions
    {
      if names[i] !in functions { r := r + [names[i]]; }
    }
  }

  /** validateCheckpointStoreProvider; None is null or a non-object. */
  method ValidateProvider(p: Option<Provider>, needs: Needs) returns (errors: seq<string>)
    ensures errors == [] <==> Conforms(p, needs)
  {
    if p.None? { return ["provider"]; }
    errors := if IsText(p.value.apiVersion, "1.0") then [] else ["apiVersion"];
    errors := ValidateFunctions(p.value.functions, FUNCTIONS, errors);
    var c := p.value.capabilities;
    if !(c.Some? && c.value.Obj?) { return errors + ["capabilities"]; }
    if !IsTextOf(Prop(c, "durability"), DURABILITIES) { errors := errors + ["durability"]; }
    if !IsTextOf(Prop(c, "scope"), SCOPES) { errors := errors + ["scope"]; }
    if !IsBool(Prop(c, "atomicReplace")) { errors := errors + ["atomicReplace"]; }
    if !IsBool(Prop(c, "compareAndSwap")) { errors := errors + ["compareAndSwap"]; }
    if needs.atomic && (!Truthy(Prop(c, "atomicReplace")) || !Truthy(Prop(c, "compareAndSwap"))) {
      errors := errors + ["atomic"];
    }
    if needs.durable && IsText(Prop(c, "durability"), "process") { errors := errors + ["durable"]; }
  }

  // ---- the record wrapper ----

  /** One call of a store function: what it returned (None for undefined), or that it threw. */
  datatype Answer = Returned(value: Option<Json>) | Threw(conflict: bool)

  datatype Outcome =
    | Record(checkpoint: Json, revision: Json)
    | Recorded(revision: Json)
    | ContractError
    | ProviderError(conflict: bool)

  function OrNull(v: Option<Json>): Json { if v.None? then Null else v.value }

  function ReadOutcome(answer: Answer): Outcome {
    match answer
    case Threw(conflict) => ProviderError(conflict)
    case Returned(None) => Record(Null, Null)
    case Returned(Some(v)) =>
      if Prop(Some(v), "checkpoint").Some? then
        var revision := OrNull(Prop(Some(v), "revision"));
        if revision.Null? || revision.Str? then Record(OrNull(Prop(Some(v), "checkpoint")), revision)
        else ContractError
      else Record(v, Null)
  }

  /** The `revision` of a value; undefined where it is not an object. */
  function WriteOutcome(p: Provider, answer: Answer): Outcome {
    match answer
    case Threw(conflict) => ProviderError(conflict)
    case Returned(v) =>
      var revision := Prop(v, "revision");
      if p.Swaps() && !(revision.Some? && revision.value.Str? && revision.value.s != "") then ContractError
      else Recorded(OrNull(revision))
  }

  /** A write as the store gets it; `expected` is None when no options are passed. */
  datatype Call = Call(skill: string, session: string, checkpoint: Json, expected: Option<Json>)

  /**
   The options object of writeCheckpointRecord: the property left out, undefined, or a value.
   */
  datatype Expected = Omitted | Undefined | Given(value: Json)
  {
    function Demand(): Demand {
      match this
      case Omitted => Anything
      case Undefined => Malformed
      case Given(v) => DemandOf(Some(v))
    }
    function Passed(): Option<Json> { if Given? then Some(value) else None }
  }

  /** A guard is passed on only when it is one, and only to a store that honours it. */
  predicate Admitted(p: Option<Provider>, expected: Expected) {
    && Conforms(p, PLAIN)
    && !expected.Demand().Malformed?
    && (expected.Demand().Anything? || p.value.Swaps())
  }

  predicate IsRevision(v: Option<Json>) { v.Some? && v.value.Str? && v.value.s != "" }

  /** A throw is passed on; an answer gives its revision, which a store that swaps may not leave out. */
  predicate Relays(p: Provider, answer: Answer, r: Outcome) {
    && (answer.Threw? ==> r == ProviderError(answer.conflict))
    && (answer.Returned? && IsRevision(Prop(answer.value, "revision")) ==>
          r == Recorded(Prop(answer.value, "revision").value))
    && (answer.Returned? && !IsRevision(Prop(answer.value, "revision")) ==>
          if Truthy(Prop(p.capabilities, "compareAndSwap")) then r == ContractError
          else r == Recorded(OrNull(Prop(answer.value, "revision"))))
  }

  /**
   A throw is passed on; nothing is an absent record; a member `checkpoint` makes a record, and its
   revision must be text or null.
   */
  predicate Shows(answer: Answer, r: Outcome) {
    && (answer.Threw? ==> r == ProviderError(answer.conflict))
    && (answer.Returned? && (answer.value.None? || answer.value == Some(Null)) ==> r == Record(Null, Null))
    && (answer.Returned? && Prop(answer.value, "checkpoint").Some? ==>
          var revision := OrNull(Prop(answer.value, "revision"));
          if revision.Null? || revision.Str? then r == Record(Prop(answer.value, "checkpoint").value, revision)
          else r == ContractError)
    && (answer.Returned? && answer.value.Some? && Prop(answer.value, "checkpoint").None? ==>
          r == Record(answer.value.value, Null))
  }

  /** writeCheckpointRecord; `made` is the one call it makes on the store, if it makes any. */
  method WriteRecord(p: Option<Provider>, write: Call -> Answer, skill: string, session: string, checkpoint: Json,
                     expected: Expected)
    returns (r: Outcome, made: Option<Call>)
    ensures made.Some? <==> Admitted(p, expected)
    ensures made.None? ==> r == ContractError
    ensures made.Some? ==>
      && made.value == Call(skill, session, checkpoint, expected.Passed())
      && DemandOf(made.value.expected) == expected.Demand()
      && r == WriteOutcome(p.value, write(made.value))
    ensures made.Some? ==> Relays(p.value, write(made.value), r)
  {
    made := None;
    var errors := ValidateProvider(p, PLAIN);
    if errors != [] { return ContractError, None; }
    if expected != Omitted && expected != Given(Null) {
      if !(expected.Given? && expected.value.Str?) || Blank(expected.value.s) { return ContractError, None; }
      if !p.value.Swaps() { return ContractError, None; }
    }
    if expected != Omitted && !p.value.Swaps() { return ContractError, None; }
    var call := Call(skill, session, checkpoint, expected.Passed());
    made := Some(call);
    r := WriteOutcome(p.value, write(call));
  }

  /** readCheckpointRecord. */
  method ReadRecord(p: Option<Provider>, read: (string, string) -> Answer, skill: string, session: string)
    returns (r: Outcome)
    ensures r == if Conforms(p, PLAIN) then ReadOutcome(read(skill, session)) else ContractError
    ensures Conforms(p, PLAIN) ==> Shows(read(skill, session), r)
  {
    var errors := ValidateProvider(p, PLAIN);
    if errors != [] { return ContractError; }
    var answer := read(skill, session);
    if answer.Threw? { return ProviderError(answer.conflict); }
    var value := answer.value;
    if value.None? || value == Some(Null) { return Record(Null, Null); }
    if Prop(value, "checkpoint").Some? {
      var revision := Prop(value, "revision");
      if revision.Some? && !revision.value.Null? && !revision.value.Str? { return ContractError; }
      return Record(Prop(value, "checkpoint").value, OrNull(revision));
    }
    r := Record(value.value, Null);
  }

  // ---- a versioned and a legacy store behind the wrapper ----

  /** What the local store answers where the atomic object replies `r`. */
  function AnswerOf(r: Reply): Answer {
    match r
    case Stored(revision) => Returned(Some(Obj([("revision", Str(revision))])))
    case Found(v, revision) => Returned(Some(Obj([("checkpoint", v), ("revision", Str(revision))])))
    case Absent => Returned(Some(Null))
    case Conflict => Threw(true)
    case _ => Threw(false)
  }

  function LocalProvider(): Provider {
    Provider(Some(Str("1.0")), (set name <- FUNCTIONS),
             Some(Obj([("durability", Str("filesystem")), ("scope", Str("project")),
                       ("atomicReplace", Bool(true)), ("compareAndSwap", Bool(true))])))
  }

  /** The local store meets the contract at its most demanding. */
  lemma LocalProviderConforms()
    ensures Conforms(Some(LocalProvider()), Needs(true, true)) && Conforms(Some(LocalProvider()), PLAIN)
    ensures LocalProvider().Swaps()
  {
    var m := LocalProvider().capabilities.value.members;
    assert m[1..][0] == m[1] && m[1..][1..][0] == m[2] && m[1..][1..][1..][0] == m[3];
  }

  /**
   The wrapper loses nothing of what the local store did: a write comes back as recorded, with its
   revision, exactly when it was committed, and as a conflict exactly when it met one.
   */
  lemma LocalWritesAreReportedExactly(codec: Codec, s: Store, op: Op, r: Reply)
    requires op.Write? && Atomic(codec, s, op, r).Some? && codec.hash(codec.Stored(op.value)) != ""
    ensures var out := WriteOutcome(LocalProvider(), AnswerOf(r));
            && (out.Recorded? <==> r.Stored?)
            && (r.Stored? ==> out == Recorded(Str(codec.hash(codec.Stored(op.value)))))
            && (out == ProviderError(true) <==> r == Conflict)
            && (!out.Recorded? ==> Atomic(codec, s, op, r) == Some(s))
  {
    LocalProviderConforms();
  }

  /** And a read comes back as the very value and revision found, whatever the value holds. */
  lemma LocalReadsAreReportedExactly(codec: Codec, s: Store, op: Op, r: Reply)
    requires op.Read? && Atomic(codec, s, op, r).Some?
    ensures var out := ReadOutcome(AnswerOf(r));
            && (r.Found? ==> out == Record(r.value, Str(r.revision)))
            && (r == Absent ==> out == Record(Null, Null))
            && (!r.Found? && r != Absent ==> out == ProviderError(false))
  {
    if r.Found? {
      var m := [("checkpoint", r.value), ("revision", Str(r.revision))];
      assert m[1..][0] == ("revision", Str(r.revision));
      assert Lookup(m, "revision") == Lookup(m[1..], "revision");
    }
  }

  lemma {:induction false} MembersAreSmaller(members: seq<(string, Json)>, name: string)
    requires Lookup(members, name).Some?
    ensures exists i :: 0 <= i < |members| && members[i].1 == Lookup(members, name).value
  {
    if members[0].0 != name {
      MembersAreSmaller(members[1..], name);
      var i :| 0 <= i < |members[1..]| && members[1..][i].1 == Lookup(members[1..], name).value;
      assert members[i + 1].1 == Lookup(members, name).value;
    }
  }

  /**
   A legacy store returns bare checkpoints. Its reads come through unchanged exactly when the
   checkpoint has no member of its own called `checkpoint`: such a one is taken for a record.
   */
  lemma LegacyReadsAreExactUnlessNested(v: Json)
    ensures ReadOutcome(Returned(Some(v))) == Record(v, Null) <==> Prop(Some(v), "checkpoint").None?
  {
    if Prop(Some(v), "checkpoint").Some? {
      MembersAreSmaller(v.members, "checkpoint");
      var i :| 0 <= i < |v.members| && v.members[i].1 == Prop(Some(v), "checkpoint").value;
      assert v.members[i].1 != v;
    }
  }
}
