/**
 The published cost per model made to sum to the published total. Amounts are whole cents; a rounded
 amount is within half a cent, plus the earlier rounding to a hundredth of a cent, of the cost.
 */
module Reconcile {
  datatype Bucket = Bucket(model: string, cents: int)

  const TOLERANCE := 5

  function Sum(bs: seq<Bucket>): int {
    if bs == [] then 0 else Sum(bs[..|bs| - 1]) + bs[|bs| - 1].cents
  }

  function Abs(n: int): int { if n < 0 then -n else n }

  lemma {:induction false} SumOfUpdate(bs: seq<Bucket>, i: nat, b: Bucket)
    requires i < |bs|
    ensures Sum(bs[i := b]) == Sum(bs) - bs[i].cents + b.cents
  {
    var n := |bs| - 1;
    if i < n {
      SumOfUpdate(bs[..n], i, b);
      assert bs[i := b][..n] == bs[..n][i := b];
    } else {
      assert bs[i := b][..n] == bs[..n];
    }
  }

  datatype Outcome = Fails | Adjusted(buckets: seq<Bucket>)

  /** The first bucket of the largest amount. */
  predicate IsBiggest(bs: seq<Bucket>, i: nat) {
    && i < |bs|
    && (forall j | 0 <= j < |bs| :: bs[j].cents <= bs[i].cents)
    && (forall j | 0 <= j < i :: bs[j].cents < bs[i].cents)
  }

  method Biggest(bs: seq<Bucket>) returns (i: nat)
    requires bs != []
    ensures IsBiggest(bs, i)
  {
    i := 0;
    for k := 1 to |bs|
      invariant i < k
      invariant forall j | 0 <= j < k :: bs[j].cents <= bs[i].cents
      invariant forall j | 0 <= j < i :: bs[j].cents < bs[i].cents
    {
      if bs[k].cents > bs[i].cents { i := k; }
    }
  }

  /**
   The reconciliation: it fails when the amounts are off by more than five cents, or there is no
   bucket to put a difference in; otherwise the sum is exact and only the largest bucket has moved.
   */
  method AbsorbDrift(bs: seq<Bucket>, total: int) returns (r: Outcome)
    ensures r == Fails <==> Abs(Sum(bs) - total) > TOLERANCE || (bs == [] && total != 0)
    ensures r.Adjusted? ==>
      && Sum(r.buckets) == total
      && |r.buckets| == |bs|
      && (forall k | 0 <= k < |bs| ::
            && r.buckets[k].model == bs[k].model
            && Abs(r.buckets[k].cents - bs[k].cents) <= TOLERANCE
            && (r.buckets[k] != bs[k] ==> IsBiggest(bs, k)))
    ensures r.Adjusted? ==>
      ((forall k | 0 <= k < |bs| :: r.buckets[k].cents >= 0) <==>
         forall k | 0 <= k < |bs| :: bs[k].cents >= if IsBiggest(bs, k) then Sum(bs) - total else 0)
  {
    var sum := 0;
    for k := 0 to |bs|
      invariant sum == Sum(bs[..k])
    {
      assert bs[..k + 1][..k] == bs[..k];
      sum := sum + bs[k].cents;
    }
    assert bs[..|bs|] == bs;
    var drift := sum - total;
    if Abs(drift) > TOLERANCE { return Fails; }
    var adjusted := bs;
    if drift != 0 {
      if bs == [] { return Fails; }
      var i := Biggest(bs);
      SumOfUpdate(bs, i, bs[i].(cents := bs[i].cents - drift));
      adjusted := adjusted[i := bs[i].(cents := bs[i].cents - drift)];
    }
    r := Adjusted(adjusted);
  }

  // ---- how large the drift can get ----

  function RealSum(costs: seq<real>): real {
    if costs == [] then 0.0 else RealSum(costs[..|costs| - 1]) + costs[|costs| - 1]
  }

  /** `cents` is a dollar cost rounded to four places and then to two, whichever way ties go. */
  predicate Rounds(cost: real, cents: int) {
    -0.505 <= cents as real - 100.0 * cost <= 0.505
  }

  lemma {:induction false} RoundingErrorsAddUp(bs: seq<Bucket>, costs: seq<real>)
    requires |bs| == |costs| && forall k | 0 <= k < |bs| :: Rounds(costs[k], bs[k].cents)
    ensures -0.505 * |bs| as real <= Sum(bs) as real - 100.0 * RealSum(costs) <= 0.505 * |bs| as real
  {
    if bs != [] {
      var n := |bs| - 1;
      RoundingErrorsAddUp(bs[..n], costs[..n]);
      assert Rounds(costs[n], bs[n].cents);
    }
  }

  /** With at most ten priced models, rounding alone never makes the reconciliation fail. */
  lemma FewModelsReconcile(bs: seq<Bucket>, costs: seq<real>, total: int)
    requires 1 <= |bs| == |costs| <= 10 && forall k | 0 <= k < |bs| :: Rounds(costs[k], bs[k].cents)
    requires Rounds(RealSum(costs), total)
    ensures Abs(Sum(bs) - total) <= TOLERANCE
  {
    RoundingErrorsAddUp(bs, costs);
    assert -5.6 < Sum(bs) as real - total as real < 5.6;
  }

  /** `n` models of one cent each. */
  function Pennies(n: nat): (bs: seq<Bucket>)
    ensures |bs| == n && Sum(bs) == n
    ensures forall k | 0 <= k < n :: bs[k].cents == 1
  {
    if n == 0 then []
    else
      var fewer := Pennies(n - 1);
      var bs := fewer + [Bucket([('a' as int + n % 26) as char], 1)];
      assert bs[..n - 1] == fewer;
      bs
  }

  function Repeat(cost: real, n: nat): (costs: seq<real>)
    ensures |costs| == n && RealSum(costs) == cost * n as real
    ensures forall k | 0 <= k < n :: costs[k] == cost
  {
    if n == 0 then []
    else
      var fewer := Repeat(cost, n - 1);
      assert (fewer + [cost])[..n - 1] == fewer;
      fewer + [cost]
  }

  /**
   Rounded amounts whose largest bucket does not cover the drift: three models at $0.00496 are three
   pennies against a total of one, so that AbsorbDrift publishes a negative amount.
   */
  lemma AmountsCanGoNegative()
    ensures var bs, costs := Pennies(3), Repeat(0.00496, 3);
            && (forall k | 0 <= k < 3 :: Rounds(costs[k], bs[k].cents))
            && Rounds(RealSum(costs), 1) && Abs(Sum(bs) - 1) <= TOLERANCE
            && IsBiggest(bs, 0) && bs[0].cents < Sum(bs) - 1
  {
  }
}
