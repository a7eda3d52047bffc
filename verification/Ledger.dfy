/**
 The ledger's rows summed in several ways. Whatever the key, the groups of a grouping sum to the
 total, a coarser grouping sums a finer one, and the k-anonymous export loses nothing.
 Costs are unrounded reals.
 */
module Ledger {
  import opened Text

  datatype Acc = Acc(input: int, output: int, cacheRead: int, cacheWrite: int, total: int,
                     cost: real, entries: int, unpriced: int)
  {
    function Plus(b: Acc): Acc {
      Acc(input + b.input, output + b.output, cacheRead + b.cacheRead, cacheWrite + b.cacheWrite,
          total + b.total, cost + b.cost, entries + b.entries, unpriced + b.unpriced)
    }
  }

  const BLANK := Acc(0, 0, 0, 0, 0, 0.0, 0, 0)

  /** A fact row; the cost is None where the model has no price. */
  datatype Row = Row(id: string, session: string, model: string, release: string, pr: string, week: string,
                     input: int, output: int, cacheRead: int, cacheWrite: int, total: int, cost: Option<real>)

  /** What one row adds to an accumulator. */
  function Single(r: Row): Acc {
    Acc(r.input, r.output, r.cacheRead, r.cacheWrite, r.total,
        if r.cost.None? then 0.0 else r.cost.value, 1, if r.cost.None? then 1 else 0)
  }

  function Total(rows: seq<Row>): Acc {
    if rows == [] then BLANK else Total(rows[..|rows| - 1]).Plus(Single(rows[|rows| - 1]))
  }

  function SumBy(rows: seq<Row>, count: Row -> int): int {
    if rows == [] then 0 else SumBy(rows[..|rows| - 1], count) + count(rows[|rows| - 1])
  }

  function CostBy(rows: seq<Row>): real {
    if rows == [] then 0.0
    else
      var r := rows[|rows| - 1];
      CostBy(rows[..|rows| - 1]) + if r.cost.None? then 0.0 else r.cost.value
  }

  /** Each figure of the total is the sum of that figure over the rows; unpriced rows add no cost and are counted. */
  lemma {:induction false} TotalIsFigureByFigure(rows: seq<Row>)
    ensures var t := Total(rows);
            && t.input == SumBy(rows, (r: Row) => r.input) && t.output == SumBy(rows, (r: Row) => r.output)
            && t.cacheRead == SumBy(rows, (r: Row) => r.cacheRead)
            && t.cacheWrite == SumBy(rows, (r: Row) => r.cacheWrite)
            && t.total == SumBy(rows, (r: Row) => r.total) && t.cost == CostBy(rows)
            && t.entries == |rows|
            && t.unpriced == SumBy(rows, (r: Row) => if r.cost.None? then 1 else 0)
  {
    if rows != [] { TotalIsFigureByFigure(rows[..|rows| - 1]); }
  }

  type Groups = map<string, Acc>

  function At(groups: Groups, k: string): Acc { if k in groups then groups[k] else BLANK }

  function Added(groups: Groups, k: string, a: Acc): Groups { groups[k := At(groups, k).Plus(a)] }

  type KeyOf = Row -> string

  /** The groups after all rows are added in order. */
  function Grouped(rows: seq<Row>, key: KeyOf): Groups {
    if rows == [] then map[]
    else
      var r := rows[|rows| - 1];
      Added(Grouped(rows[..|rows| - 1], key), key(r), Single(r))
  }

  /** The rows of one key, summed on their own. */
  function Share(rows: seq<Row>, key: KeyOf, k: string): Acc {
    if rows == [] then BLANK
    else
      var before, r := Share(rows[..|rows| - 1], key, k), rows[|rows| - 1];
      if key(r) == k then before.Plus(Single(r)) else before
  }

  /** A dictionary of accumulators, updated in place. */
  class Accumulators {
    var groups: Groups

    constructor ()
      ensures groups == map[]
    {
      groups := map[];
    }

    method Add(k: string, r: Row)
      modifies this
      ensures groups == Added(old(groups), k, Single(r))
    {
      if k !in groups { groups := groups[k := BLANK]; }
      var acc := groups[k];
      acc := acc.(input := acc.input + r.input, output := acc.output + r.output);
      acc := acc.(cacheRead := acc.cacheRead + r.cacheRead, cacheWrite := acc.cacheWrite + r.cacheWrite);
      acc := acc.(total := acc.total + r.total);
      if r.cost.None? {
        acc := acc.(unpriced := acc.unpriced + 1);
      } else {
        acc := acc.(cost := acc.cost + r.cost.value);
      }
      groups := groups[k := acc.(entries := acc.entries + 1)];
    }
  }

  method GroupBy(rows: seq<Row>, key: KeyOf) returns (groups: Groups)
    ensures groups == Grouped(rows, key)
  {
    var acc := new Accumulators();
    for i := 0 to |rows|
      invariant acc.groups == Grouped(rows[..i], key)
    {
      assert rows[..i + 1][..i] == rows[..i];
      acc.Add(key(rows[i]), rows[i]);
    }
    assert rows[..|rows|] == rows;
    groups := acc.groups;
  }

  /** Each group holds exactly the rows of its key, and there is one for each key that occurs. */
  lemma {:induction false} GroupsAreShares(rows: seq<Row>, key: KeyOf, k: string)
    ensures k in Grouped(rows, key) <==> exists r <- rows :: key(r) == k
    ensures At(Grouped(rows, key), k) == Share(rows, key, k)
    ensures k in Grouped(rows, key) ==> Grouped(rows, key)[k].entries >= 1
    ensures At(Grouped(rows, key), k).entries >= 0
  {
    if rows != [] {
      var shorter, r := rows[..|rows| - 1], rows[|rows| - 1];
      GroupsAreShares(shorter, key, k);
      assert rows == shorter + [r];
      assert r in rows;
      if k in Grouped(shorter, key) {
        var q :| q in shorter && key(q) == k;
        assert q in rows;
      }
    }
  }

  // ---- sums over the groups of a dictionary ----

  ghost function SumOf(m: Groups): Acc
    decreases |m|
  {
    if m == map[] then BLANK
    else
      var k :| k in m;
      m[k].Plus(SumOf(m - { k }))
  }

  /** The order of summation does not matter. */
  lemma {:induction false} SumWithout(m: Groups, k: string)
    requires k in m
    ensures SumOf(m) == m[k].Plus(SumOf(m - { k }))
    decreases |m|
  {
    var j :| j in m && SumOf(m) == m[j].Plus(SumOf(m - { j }));
    if j != k {
      SumWithout(m - { j }, k);
      SumWithout(m - { k }, j);
      assert m - { j } - { k } == m - { k } - { j };
      var rest := SumOf(m - { j } - { k });
      assert m[j].Plus(m[k].Plus(rest)) == m[k].Plus(m[j].Plus(rest));
    }
  }

  lemma SumUpdated(m: Groups, k: string, a: Acc)
    ensures SumOf(Added(m, k, a)) == SumOf(m).Plus(a)
  {
    var m' := Added(m, k, a);
    SumWithout(m', k);
    assert m' - { k } == m - { k };
    if k in m {
      SumWithout(m, k);
    } else {
      assert m - { k } == m;
    }
  }

  /** Conservation: every grouping of the rows sums to the total. */
  lemma {:induction false} GroupingsConserve(rows: seq<Row>, key: KeyOf)
    ensures SumOf(Grouped(rows, key)) == Total(rows)
  {
    if rows != [] {
      var shorter, r := rows[..|rows| - 1], rows[|rows| - 1];
      GroupingsConserve(shorter, key);
      SumUpdated(Grouped(shorter, key), key(r), Single(r));
    }
  }

  /** The groups that a coarser key `h` sends to `g`. */
  function Part(m: Groups, h: string -> string, g: string): Groups { map k | k in m && h(k) == g :: m[k] }

  function Coarser(key: KeyOf, h: string -> string): KeyOf { r => h(key(r)) }

  /**
   Consistency between groupings: where one key is a function of another, as the session's dominant
   PR is of the session, each coarse group is the sum of the fine groups it takes together.
   */
  lemma {:induction false} CoarseGroupsSumFineOnes(rows: seq<Row>, key: KeyOf, h: string -> string, g: string)
    ensures At(Grouped(rows, Coarser(key, h)), g) == SumOf(Part(Grouped(rows, key), h, g))
  {
    if rows != [] {
      var shorter, r := rows[..|rows| - 1], rows[|rows| - 1];
      CoarseGroupsSumFineOnes(shorter, key, h, g);
      PartUpdated(Grouped(shorter, key), key(r), Single(r), h, g);
    }
  }

  lemma PartUpdated(m: Groups, k: string, a: Acc, h: string -> string, g: string)
    ensures SumOf(Part(Added(m, k, a), h, g))
            == if h(k) == g then SumOf(Part(m, h, g)).Plus(a) else SumOf(Part(m, h, g))
  {
    if h(k) == g {
      assert Part(Added(m, k, a), h, g) == Added(Part(m, h, g), k, a);
      SumUpdated(Part(m, h, g), k, a);
    } else {
      assert Part(Added(m, k, a), h, g) == Part(m, h, g);
    }
  }

  lemma UnionWithout(a: Groups, b: Groups, k: string)
    requires a.Keys !! b.Keys && k in a
    ensures (a + b)[k] == a[k] && (a + b) - { k } == (a - { k }) + b
  {
    assert k !in b;
    var l, r := (a + b) - { k }, (a - { k }) + b;
    assert l.Keys == r.Keys;
    assert forall j <- l :: l[j] == r[j];
  }

  lemma PlusAssociates(a: Acc, b: Acc, c: Acc)
    ensures a.Plus(b).Plus(c) == a.Plus(b.Plus(c))
  {
  }

  lemma UnionStep(a: Groups, b: Groups, k: string)
    requires a.Keys !! b.Keys && k in a
    requires SumOf((a - { k }) + b) == SumOf(a - { k }).Plus(SumOf(b))
    ensures SumOf(a + b) == SumOf(a).Plus(SumOf(b))
  {
    var union := a + b;
    UnionWithout(a, b, k);
    SumWithout(a, k);
    SumWithout(union, k);
    PlusAssociates(a[k], SumOf(a - { k }), SumOf(b));
  }

  /** Two disjoint dictionaries sum to the sum of both. */
  lemma {:induction false} SumOfUnion(a: Groups, b: Groups)
    requires a.Keys !! b.Keys
    ensures SumOf(a + b) == SumOf(a).Plus(SumOf(b))
    decreases |a|
  {
    if k :| k in a {
      SumOfUnion(a - { k }, b);
      UnionStep(a, b, k);
    } else {
      assert a == map[] && a + b == b;
    }
  }

  // ---- k-anonymity ----

  const K := 5
  const OTHER := "other"

  function Kept(m: Groups): Groups { map k | k in m && m[k].entries >= K :: m[k] }

  function Small(m: Groups): Groups { map k | k in m && m[k].entries < K :: m[k] }

  predicate Inhabited(m: Groups) { forall k <- m :: m[k].entries >= 1 }

  /** generate.py's tiers: the small groups join what is kept under "other". */
  ghost function Folded(m: Groups): Groups {
    if Small(m) == map[] then Kept(m) else Added(Kept(m), OTHER, SumOf(Small(m)))
  }

  /** The weekly folds: the small groups replace what is kept under "other". */
  ghost function Replaced(m: Groups): Groups {
    if Small(m) == map[] then Kept(m) else Kept(m)[OTHER := SumOf(Small(m))]
  }

  /** An enumeration of a dictionary, each key once. */
  ghost predicate Enumerates(items: seq<string>, m: Groups) {
    && (forall k :: k in m <==> k in items)
    && forall i, j | 0 <= i < j < |items| :: items[i] != items[j]
  }

  function Only(m: Groups, items: seq<string>): Groups { map k | k in m && k in items :: m[k] }

  /** The loop both scripts share: what is kept, and the rest summed. */
  method Partition(m: Groups, items: seq<string>) returns (kept: Groups, other: Acc)
    requires Enumerates(items, m)
    ensures kept == Kept(m) && other == SumOf(Small(m))
  {
    kept, other := map[], BLANK;
    assert Small(Only(m, [])) == map[];
    for i := 0 to |items|
      invariant kept == Kept(Only(m, items[..i]))
      invariant other == SumOf(Small(Only(m, items[..i])))
    {
      var k := items[i];
      assert k in items;
      OneMore(m, items, i);
      if m[k].entries < K {
        SumWithout(Small(Only(m, items[..i + 1])), k);
        other := other.Plus(m[k]);
      } else {
        kept := kept[k := m[k]];
      }
    }
    assert items[..|items|] == items;
    assert Only(m, items) == m;
  }

  lemma OneMore(m: Groups, items: seq<string>, i: nat)
    requires Enumerates(items, m) && i < |items|
    ensures var k, a, b := items[i], Only(m, items[..i]), Only(m, items[..i + 1]);
            && k in m
            && (m[k].entries < K ==>
                  && Kept(b) == Kept(a)
                  && k in Small(b) && Small(b)[k] == m[k] && Small(b) - { k } == Small(a))
            && (m[k].entries >= K ==> Kept(b) == Kept(a)[k := m[k]] && Small(b) == Small(a))
  {
    var k, a := items[i], Only(m, items[..i]);
    assert k in items;
    OnlyGrows(m, items, i);
    if m[k].entries < K { SmallGrows(a, k, m[k]); } else { KeptGrows(a, k, m[k]); }
  }

  lemma OnlyGrows(m: Groups, items: seq<string>, i: nat)
    requires Enumerates(items, m) && i < |items| && items[i] in m
    ensures items[i] !in Only(m, items[..i])
    ensures Only(m, items[..i + 1]) == Only(m, items[..i])[items[i] := m[items[i]]]
  {
    assert items[..i + 1] == items[..i] + [items[i]];
    assert items[i] !in items[..i];
  }

  lemma SmallGrows(a: Groups, k: string, acc: Acc)
    requires k !in a && acc.entries < K
    ensures Kept(a[k := acc]) == Kept(a)
    ensures Small(a[k := acc]) == Small(a)[k := acc] && Small(a[k := acc]) - { k } == Small(a)
  {
  }

  lemma KeptGrows(a: Groups, k: string, acc: Acc)
    requires k !in a && acc.entries >= K
    ensures Kept(a[k := acc]) == Kept(a)[k := acc]
    ensures Small(a[k := acc]) == Small(a)
  {
  }

  lemma {:induction false} InhabitedSum(m: Groups)
    requires Inhabited(m)
    ensures SumOf(m).entries >= |m|
    decreases |m|
  {
    if m != map[] {
      var k :| k in m;
      SumWithout(m, k);
      InhabitedSum(m - { k });
    }
  }

  method FoldTiers(m: Groups, items: seq<string>) returns (r: Groups)
    requires Enumerates(items, m) && Inhabited(m)
    ensures r == Folded(m)
  {
    var kept, other := Partition(m, items);
    r := kept;
    InhabitedSum(Small(m));
    if other.entries != 0 {
      var prev := if OTHER in r then r[OTHER] else BLANK;
      r := r[OTHER := prev.Plus(other)];
    }
  }

  method FoldWeeks(m: Groups, items: seq<string>) returns (r: Groups)
    requires Enumerates(items, m) && Inhabited(m)
    ensures r == Replaced(m)
  {
    var kept, other := Partition(m, items);
    r := kept;
    InhabitedSum(Small(m));
    if other.entries != 0 { r := r[OTHER := other]; }
  }

  lemma KeptAndSmall(m: Groups)
    ensures SumOf(m) == SumOf(Kept(m)).Plus(SumOf(Small(m)))
  {
    assert m == Kept(m) + Small(m);
    SumOfUnion(Kept(m), Small(m));
  }

  /** What a fold shows under each name but "other" is one large group, as it was; and all of them are there. */
  ghost predicate ShowsLargeGroups(r: Groups, m: Groups) {
    && (forall k <- r | k != OTHER :: k in m && m[k].entries >= 5 && r[k] == m[k])
    && (forall k <- m | m[k].entries >= 5 && k != OTHER :: k in r)
  }

  /** The tier fold loses nothing. */
  lemma FoldIsExact(m: Groups)
    ensures SumOf(Folded(m)) == SumOf(m)
    ensures ShowsLargeGroups(Folded(m), m)
  {
    FoldSum(m, Small(m));
    OtherAside(Kept(m), m, At(Folded(m), OTHER));
  }

  lemma FoldSum(m: Groups, small: Groups)
    requires small == Small(m)
    ensures SumOf(Folded(m)) == SumOf(m)
  {
    KeptAndSmall(m);
    if small == map[] {
      assert SumOf(small) == BLANK;
    } else {
      SumUpdated(Kept(m), OTHER, SumOf(small));
    }
  }

  lemma OtherAside(kept: Groups, m: Groups, a: Acc)
    requires kept == Kept(m)
    ensures ShowsLargeGroups(kept, m) && ShowsLargeGroups(kept[OTHER := a], m)
  {
  }

  lemma OverwrittenSum(kept: Groups, a: Acc)
    ensures OTHER !in kept ==> SumOf(kept[OTHER := a]) == SumOf(kept).Plus(a)
    ensures OTHER in kept ==> SumOf(kept[OTHER := a]).Plus(kept[OTHER]) == SumOf(kept).Plus(a)
  {
    var r := kept[OTHER := a];
    SumWithout(r, OTHER);
    assert r - { OTHER } == kept - { OTHER };
    if OTHER in kept {
      SumWithout(kept, OTHER);
    } else {
      assert kept - { OTHER } == kept;
    }
  }

  /** The weekly fold loses nothing exactly when no large group is itself called "other" while small ones exist. */
  lemma ReplacementIsExact(m: Groups)
    ensures SumOf(Replaced(m)) == SumOf(m) <==> !(OTHER in Kept(m) && Small(m) != map[])
    ensures ShowsLargeGroups(Replaced(m), m)
  {
    ReplacementSum(m, Kept(m), Small(m));
    OtherAside(Kept(m), m, SumOf(Small(m)));
  }

  lemma ReplacementSum(m: Groups, kept: Groups, small: Groups)
    requires kept == Kept(m) && small == Small(m)
    ensures SumOf(Replaced(m)) == SumOf(m) <==> !(OTHER in kept && small != map[])
  {
    KeptAndSmall(m);
    if small == map[] {
      assert SumOf(small) == BLANK;
    } else {
      OverwrittenSum(kept, SumOf(small));
      assert OTHER in kept ==> kept[OTHER].entries >= K;
    }
  }

  // ---- the append-safe merge ----

  type Rows = map<string, Row>

  /** The prior rows that are not in the fresh ones, then the fresh ones. */
  function Merge(prior: Rows, latest: Rows): Rows { Preserved(prior, latest) + latest }

  function Preserved(prior: Rows, latest: Rows): Rows { map k | k in prior && k !in latest :: prior[k] }

  /** Nothing is lost, and fresh rows win. */
  lemma MergeIsSafe(prior: Rows, latest: Rows)
    ensures Merge(prior, latest).Keys == prior.Keys + latest.Keys
    ensures forall k <- latest :: Merge(prior, latest)[k] == latest[k]
    ensures forall k <- prior | k !in latest :: Merge(prior, latest)[k] == prior[k]
  {
  }

  lemma SameRows(a: Rows, b: Rows)
    requires a.Keys == b.Keys && forall k <- a :: a[k] == b[k]
    ensures a == b
  {
  }

  lemma MergeIsIdempotent(prior: Rows, latest: Rows)
    ensures Merge(Merge(prior, latest), latest) == Merge(prior, latest)
  {
    MergeIsSafe(prior, latest);
    MergeIsSafe(Merge(prior, latest), latest);
    SameRows(Merge(Merge(prior, latest), latest), Merge(prior, latest));
  }

  /** Merging two runs one by one is merging both at once, and merging the same rows again changes nothing. */
  lemma MergeAssociates(prior: Rows, latest: Rows, later: Rows)
    ensures Merge(Merge(prior, latest), later) == Merge(prior, Merge(latest, later))
    ensures Merge(Merge(prior, latest), latest) == Merge(prior, latest)
  {
    MergeIsIdempotent(prior, latest);
    var one, both := Merge(Merge(prior, latest), later), Merge(prior, Merge(latest, later));
    MergeKeys(Merge(prior, latest), later);
    MergeKeys(prior, latest);
    MergeKeys(latest, later);
    MergeKeys(prior, Merge(latest, later));
    forall k <- one ensures one[k] == both[k] {
      MergedAt(prior, latest, k);
      MergedAt(latest, later, k);
      MergedAt(Merge(prior, latest), later, k);
      MergedAt(prior, Merge(latest, later), k);
    }
    SameRows(one, both);
  }

  lemma MergeKeys(prior: Rows, latest: Rows)
    ensures Merge(prior, latest).Keys == prior.Keys + latest.Keys
  {
  }

  lemma MergedAt(prior: Rows, latest: Rows, k: string)
    ensures k in Merge(prior, latest) <==> k in prior || k in latest
    ensures k in Merge(prior, latest) ==> Merge(prior, latest)[k] == if k in latest then latest[k] else prior[k]
  {
  }

  /** The ledger after several runs, each merged over the last. */
  function Merged(prior: Rows, runs: seq<Rows>): Rows {
    if runs == [] then prior else Merge(Merged(prior, runs[..|runs| - 1]), runs[|runs| - 1])
  }

  function RowAt(m: Rows, k: string): Option<Row> { if k in m then Some(m[k]) else None }

  /** A row as the last run that has it gives it. */
  function LastRow(runs: seq<Rows>, k: string): Option<Row> {
    if runs == [] then None
    else if k in runs[|runs| - 1] then Some(runs[|runs| - 1][k])
    else LastRow(runs[..|runs| - 1], k)
  }

  /** However many runs: each row is as the last run to have it gave it, or as it first was; none is lost. */
  lemma {:induction false} RunsLoseNoRow(prior: Rows, runs: seq<Rows>, k: string)
    ensures RowAt(Merged(prior, runs), k) == if LastRow(runs, k).Some? then LastRow(runs, k) else RowAt(prior, k)
  {
    if runs != [] {
      var n := |runs| - 1;
      RunsLoseNoRow(prior, runs[..n], k);
      MergedAt(Merged(prior, runs[..n]), runs[n], k);
    }
  }

  /** LastRow misses no run. */
  lemma {:induction false} LastRowIsLast(runs: seq<Rows>, k: string)
    ensures LastRow(runs, k).None? <==> forall run <- runs :: k !in run
    ensures LastRow(runs, k).Some? ==>
      exists i :: 0 <= i < |runs| && k in runs[i] && LastRow(runs, k).value == runs[i][k]
                  && forall j | i < j < |runs| :: k !in runs[j]
  {
    if runs != [] {
      var n := |runs| - 1;
      assert runs == runs[..n] + [runs[n]] && runs[n] in runs;
      if k !in runs[n] {
        LastRowIsLast(runs[..n], k);
        if LastRow(runs, k).Some? {
          var i :| 0 <= i < n && k in runs[i] && LastRow(runs, k).value == runs[i][k]
                   && forall j | i < j < n :: k !in runs[j];
          assert k in runs[i] && runs[i] in runs;
        }
      }
    }
  }

  function Singles(m: Rows): Groups { map k | k in m :: Single(m[k]) }

  /** A listing of the ledger: each row once, in any order. */
  ghost predicate Lists(rows: seq<Row>, m: Rows) {
    && (forall i | 0 <= i < |rows| :: rows[i].id in m && m[rows[i].id] == rows[i])
    && (forall k <- m :: exists r <- rows :: r.id == k)
    && forall i, j | 0 <= i < j < |rows| :: rows[i].id != rows[j].id
  }

  lemma ListsFewer(rows: seq<Row>, m: Rows)
    requires rows != [] && Lists(rows, m)
    ensures Lists(rows[..|rows| - 1], m - { rows[|rows| - 1].id })
  {
    var shorter, last := rows[..|rows| - 1], rows[|rows| - 1];
    forall k <- m | k != last.id ensures exists r <- shorter :: r.id == k {
      var r :| r in rows && r.id == k;
      var i :| 0 <= i < |rows| && rows[i] == r;
      assert shorter[i] == r;
    }
  }

  lemma SinglesWithout(m: Rows, k: string)
    requires k in m
    ensures SumOf(Singles(m)) == SumOf(Singles(m - { k })).Plus(Single(m[k]))
  {
    SumWithout(Singles(m), k);
    assert Singles(m) - { k } == Singles(m - { k });
  }

  lemma {:induction false} ListedTotal(rows: seq<Row>, m: Rows)
    requires Lists(rows, m)
    ensures Total(rows) == SumOf(Singles(m))
  {
    if rows == [] {
      assert forall k :: k !in m;
      assert Singles(m) == map[];
    } else {
      var k := rows[|rows| - 1].id;
      ListsFewer(rows, m);
      ListedTotal(rows[..|rows| - 1], m - { k });
      SinglesWithout(m, k);
    }
  }

  lemma SinglesOfMerge(prior: Rows, latest: Rows)
    ensures Singles(Merge(prior, latest)) == Singles(latest) + Singles(Preserved(prior, latest))
  {
    var l, r := Singles(Merge(prior, latest)), Singles(latest) + Singles(Preserved(prior, latest));
    MergeIsSafe(prior, latest);
    assert l.Keys == r.Keys;
    assert forall k <- l :: l[k] == r[k];
  }

  /** Every grouping of a merged ledger sums to what is fresh and what was preserved, each counted once. */
  lemma MergedGroupingsConserve(prior: Rows, latest: Rows, rows: seq<Row>, key: KeyOf)
    requires Lists(rows, Merge(prior, latest))
    ensures SumOf(Grouped(rows, key)) == SumOf(Singles(latest)).Plus(SumOf(Singles(Preserved(prior, latest))))
  {
    GroupingsConserve(rows, key);
    ListedTotal(rows, Merge(prior, latest));
    SinglesOfMerge(prior, latest);
    SumOfUnion(Singles(latest), Singles(Preserved(prior, latest)));
  }
}
