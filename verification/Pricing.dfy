/** What a message costs, and that pricing a sum of messages is summing their prices. */
module Pricing {
  import opened Text
  import opened UsageDedup

  /** Dollars per million tokens of input and of output. */
  datatype Price = Price(input: real, output: real)

  const MILLION := 1000000.0
  const CACHE_READ := 0.1
  const CACHE_WRITE_5M := 1.25
  const CACHE_WRITE_1H := 2.0

  /** One bucket: tokens in millions, at a multiple of a price. */
  function Term(tokens: int, price: real, multiple: real): real { tokens as real / MILLION * price * multiple }

  /** cost_of; None for a model without a price. */
  function CostOf(price: Option<Price>, u: Usage): Option<real> {
    if price.None? then None
    else
      var p := price.value;
      Some(Term(u.input, p.input, 1.0) + Term(u.output, p.output, 1.0) + Term(u.cacheRead, p.input, CACHE_READ)
           + Term(u.write5m, p.input, CACHE_WRITE_5M) + Term(u.write1h, p.input, CACHE_WRITE_1H))
  }

  function Plus(a: Usage, b: Usage): Usage {
    Usage(a.input + b.input, a.output + b.output, a.cacheRead + b.cacheRead,
          a.write5m + b.write5m, a.write1h + b.write1h)
  }

  function Sum(us: seq<Usage>): Usage {
    if us == [] then NOTHING else Plus(Sum(us[..|us| - 1]), us[|us| - 1])
  }

  function CostSum(price: Price, us: seq<Usage>): real {
    if us == [] then 0.0 else CostSum(price, us[..|us| - 1]) + CostOf(Some(price), us[|us| - 1]).value
  }

  lemma Distributes(a: real, b: real, c: real)
    ensures (a + b) * c == a * c + b * c
  {
  }

  lemma TermsAdd(m: int, n: int, price: real, multiple: real)
    ensures Term(m + n, price, multiple) == Term(m, price, multiple) + Term(n, price, multiple)
  {
    var a, b := m as real / MILLION, n as real / MILLION;
    assert (m + n) as real / MILLION == a + b;
    Distributes(a, b, price);
    Distributes(a * price, b * price, multiple);
  }

  lemma CostAdds(p: Price, a: Usage, b: Usage)
    ensures CostOf(Some(p), Plus(a, b)).value == CostOf(Some(p), a).value + CostOf(Some(p), b).value
  {
    TermsAdd(a.input, b.input, p.input, 1.0);
    TermsAdd(a.output, b.output, p.output, 1.0);
    TermsAdd(a.cacheRead, b.cacheRead, p.input, CACHE_READ);
    TermsAdd(a.write5m, b.write5m, p.input, CACHE_WRITE_5M);
    TermsAdd(a.write1h, b.write1h, p.input, CACHE_WRITE_1H);
  }

  /** The messages of one model cost together what their summed tokens cost. */
  lemma {:induction false} CostsAddUp(price: Price, us: seq<Usage>)
    ensures CostOf(Some(price), Sum(us)) == Some(CostSum(price, us))
  {
    if us == [] {
      CostAdds(price, NOTHING, NOTHING);
    } else {
      CostsAddUp(price, us[..|us| - 1]);
      CostAdds(price, Sum(us[..|us| - 1]), us[|us| - 1]);
    }
  }

  function Of(input: int, output: int, cacheRead: int, write5m: int, write1h: int): Usage {
    Usage(input, output, cacheRead, write5m, write1h)
  }

  /**
   A million tokens of each bucket: the two list prices, a tenth of the input price for a cache read,
   one and a quarter and two of it for a write. With CostsAddUp this fixes the cost of every usage.
   */
  lemma MillionPrices(p: Price)
    ensures CostOf(Some(p), Of(1000000, 0, 0, 0, 0)) == Some(p.input)
    ensures CostOf(Some(p), Of(0, 1000000, 0, 0, 0)) == Some(p.output)
    ensures CostOf(Some(p), Of(0, 0, 1000000, 0, 0)) == Some(p.input * 0.1)
    ensures CostOf(Some(p), Of(0, 0, 0, 1000000, 0)) == Some(p.input * 1.25)
    ensures CostOf(Some(p), Of(0, 0, 0, 0, 1000000)) == Some(p.input * 2.0)
    ensures forall u :: CostOf(None, u) == None
  {
    ZeroTerm(p.input, 1.0);
    ZeroTerm(p.output, 1.0);
    ZeroTerm(p.input, CACHE_READ);
    ZeroTerm(p.input, CACHE_WRITE_5M);
    ZeroTerm(p.input, CACHE_WRITE_1H);
  }

  lemma ZeroTerm(price: real, multiple: real)
    ensures Term(0, price, multiple) == 0.0
    ensures Term(1000000, price, multiple) == price * multiple
  {
    TermsAdd(0, 0, price, multiple);
    assert 1000000 as real / MILLION == 1.0;
  }
}
