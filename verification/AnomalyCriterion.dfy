/** When a value strays from a baseline, on the baseline's plain sums: no mean, no deviation, no root. */
module AnomalyCriterion {
  import opened Wrappers
  import opened Signals

  function Total(s: seq<real>): real {
    if s == [] then 0.0 else s[0] + Total(s[1..])
  }

  function TotalOfSquares(s: seq<real>): real {
    if s == [] then 0.0 else s[0] * s[0] + TotalOfSquares(s[1..])
  }

  /** `(n v - S)^2`: how far `v` lies from the mean, times n, squared. */
  function Gap(base: seq<real>, v: real): real {
    (|base| as real * v - Total(base)) * (|base| as real * v - Total(base))
  }

  /** `n Q - S^2`: the variance times n squared. */
  function Spread(base: seq<real>): real {
    |base| as real * TotalOfSquares(base) - Total(base) * Total(base)
  }

  /** Beyond three sigma, or anywhere off a constant baseline. */
  predicate Beyond(n: real, v: real, total: real, gap: real, spread: real) {
    gap > 9.0 * spread || (spread == 0.0 && n * v != total)
  }

  /** Nothing strays from an empty baseline. */
  predicate Outlying(base: seq<real>, v: real) {
    base != [] && Beyond(|base| as real, v, Total(base), Gap(base, v), Spread(base))
  }

  /** The leading values of one series before the trigger, among the first `n` items. */
  function LeadBaseline(items: seq<MetricItem>, trigger: Option<Stamp>, service: string, name: string, n: nat): seq<real>
    requires n <= |items|
  {
    if n == 0 then []
    else
      var item := items[n - 1];
      LeadBaseline(items, trigger, service, name, n - 1)
      + (if item.pairs != [] && item.service == service && item.pairs[0].name == name && Precedes(item.time, trigger)
         then [item.pairs[0].value] else [])
  }

  /** Item `i` does not precede the trigger and its leading value strays from the baseline of its series. */
  predicate Anomalous(items: seq<MetricItem>, trigger: Option<Stamp>, i: nat)
    requires i < |items| && items[i].pairs != []
  {
    !Precedes(items[i].time, trigger)
    && Outlying(LeadBaseline(items, trigger, items[i].service, items[i].pairs[0].name, |items|), items[i].pairs[0].value)
  }

  // ------------------------------------------------------------------ the code's mean and variance

  lemma {:induction false} SumSplits(s: seq<real>)
    requires s != []
    ensures SumOf(s) == s[0] + SumOf(s[1..])
  {
    if |s| > 1 {
      SumSplits(s[..|s| - 1]);
      assert s[..|s| - 1][1..] == s[1..][..|s| - 2];
    }
  }

  lemma {:induction false} SumIsTotal(s: seq<real>)
    ensures SumOf(s) == Total(s)
  {
    if s != [] {
      SumSplits(s);
      SumIsTotal(s[1..]);
    }
  }

  /** The squared distances from `mu` add up to `w`: `w = Q - 2 mu T + n mu^2`. */
  predicate Expands(w: real, n: real, T: real, Q: real, mu: real) {
    w == Q - 2.0 * mu * T + n * (mu * mu)
  }

  /** The sums after one more value `x`. */
  predicate Extends(x: real, mu: real, w: real, n: real, T: real, Q: real, w1: real, n1: real, T1: real, Q1: real) {
    w1 == Square(x - mu) + w && n1 == n + 1.0 && T1 == x + T && Q1 == x * x + Q
  }

  lemma OneMore(x: real, mu: real, w: real, n: real, T: real, Q: real, w1: real, n1: real, T1: real, Q1: real)
    requires Expands(w, n, T, Q, mu) && Extends(x, mu, w, n, T, Q, w1, n1, T1, Q1)
    ensures Expands(w1, n1, T1, Q1, mu)
  {
    assert Square(x - mu) == x * x - 2.0 * mu * x + mu * mu;
    assert 2.0 * mu * (x + T) == 2.0 * mu * x + 2.0 * mu * T;
  }

  lemma {:induction false} SquaresHead(s: seq<real>, mu: real)
    requires s != []
    ensures SumOf(Squares(s, mu)) == Square(s[0] - mu) + SumOf(Squares(s[1..], mu))
  {
    SumSplits(Squares(s, mu));
    assert Squares(s, mu)[1..] == Squares(s[1..], mu);
  }

  lemma {:induction false} NoneExpands(s: seq<real>, mu: real)
    requires s == []
    ensures SumOf(Squares(s, mu)) == Total(s) == TotalOfSquares(s) == |s| as real == 0.0
    ensures Expands(0.0, 0.0, 0.0, 0.0, mu)
  {
  }

  /** The squared distances of `s` from `mu`, on plain sums. */
  predicate Expanded(s: seq<real>, mu: real) {
    Expands(SumOf(Squares(s, mu)), |s| as real, Total(s), TotalOfSquares(s), mu)
  }

  lemma {:induction false} HeadExtends(s: seq<real>, mu: real)
    requires s != []
    ensures Extends(s[0], mu, SumOf(Squares(s[1..], mu)), |s[1..]| as real, Total(s[1..]), TotalOfSquares(s[1..]),
                    SumOf(Squares(s, mu)), |s| as real, Total(s), TotalOfSquares(s))
  {
    SquaresHead(s, mu);
  }

  lemma {:induction false} ExpandedNext(s: seq<real>, mu: real)
    requires s != [] && Expanded(s[1..], mu)
    ensures Expanded(s, mu)
  {
    HeadExtends(s, mu);
    OneMore(s[0], mu, SumOf(Squares(s[1..], mu)), |s[1..]| as real, Total(s[1..]), TotalOfSquares(s[1..]),
            SumOf(Squares(s, mu)), |s| as real, Total(s), TotalOfSquares(s));
  }

  lemma {:induction false} SquaresExpand(s: seq<real>, mu: real)
    ensures Expanded(s, mu)
  {
    if s == [] {
      NoneExpands(s, mu);
    } else {
      SquaresExpand(s[1..], mu);
      ExpandedNext(s, mu);
    }
  }

  lemma {:induction false} MeanByTotals(s: seq<real>)
    requires s != []
    ensures |s| as real * Mean(s) == Total(s)
  {
    SumIsTotal(s);
  }

  /** `y` is `x` times n squared. */
  predicate Scaled(n: real, x: real, y: real) {
    y == n * (n * x)
  }

  lemma Completed(n: real, mu: real, S: real, Q: real, w: real, variance: real)
    requires n * mu == S && n * variance == w && Expands(w, n, S, Q, mu)
    ensures Scaled(n, variance, n * Q - S * S)
  {
    assert n * (mu * S) == S * S;
    assert n * (n * (mu * mu)) == S * S;
    assert n * (2.0 * mu * S) == 2.0 * (n * (mu * S));
    assert n * w == n * Q - n * (2.0 * mu * S) + n * (n * (mu * mu));
  }

  lemma SingleSpread(s: seq<real>)
    requires |s| == 1
    ensures Spread(s) == 0.0
  {
    assert Total(s[1..]) == 0.0 && TotalOfSquares(s[1..]) == 0.0;
  }

  /** The variance the code computes, one value counting as none. */
  lemma VarianceByTotals(s: seq<real>)
    requires s != []
    ensures Scaled(|s| as real, Variance(s), Spread(s))
  {
    if |s| == 1 {
      SingleSpread(s);
    } else {
      var mu := Mean(s);
      MeanByTotals(s);
      SquaresExpand(s, mu);
      Completed(|s| as real, mu, Total(s), TotalOfSquares(s), SumOf(Squares(s, mu)), Variance(s));
    }
  }

  lemma GapScales(n: real, mu: real, S: real, v: real)
    requires n * mu == S
    ensures Scaled(n, Square(v - mu), (n * v - S) * (n * v - S))
  {
    var d := v - mu;
    assert n * v - S == n * d;
    assert (n * d) * (n * d) == n * (n * (d * d));
  }

  /** The squared distance from the code's mean. */
  lemma GapByMean(base: seq<real>, v: real)
    requires base != []
    ensures Scaled(|base| as real, Square(v - Mean(base)), Gap(base, v))
  {
    MeanByTotals(base);
    GapScales(|base| as real, Mean(base), Total(base), v);
  }

  lemma ScaleKeepsOrder(n: real, x: real, y: real)
    requires n > 0.0
    ensures n * x > n * y <==> x > y
    ensures n * x == n * y <==> x == y
  {
    assert n * x - n * y == n * (x - y);
  }

  /** Scaling keeps order. */
  lemma ScaledOrder(n: real, a: real, b: real, x: real, y: real)
    requires n > 0.0 && Scaled(n, a, x) && Scaled(n, b, y)
    ensures x > y <==> a > b
    ensures x == y <==> a == b
  {
    ScaleKeepsOrder(n, a, b);
    ScaleKeepsOrder(n, n * a, n * b);
  }

  lemma ScaledNine(n: real, a: real, x: real)
    requires Scaled(n, a, x)
    ensures Scaled(n, 9.0 * a, 9.0 * x)
  {
    assert n * (n * (9.0 * a)) == 9.0 * (n * (n * a));
  }

  /** `n` values with mean `mu`, variance, total `S` and spread, and the gap of `v`. */
  predicate Fits(n: real, v: real, mu: real, variance: real, S: real, gap: real, spread: real) {
    n > 0.0 && n * mu == S && Scaled(n, Square(v - mu), gap) && Scaled(n, variance, spread)
  }

  /** The code's test on plain reals. */
  lemma TestScales(n: real, v: real, mu: real, variance: real, S: real, gap: real, spread: real)
    ensures Fits(n, v, mu, variance, S, gap, spread) ==> (Strays(v, mu, variance) <==> Beyond(n, v, S, gap, spread))
  {
    if Fits(n, v, mu, variance, S, gap, spread) {
      ScaledNine(n, variance, spread);
      ScaledOrder(n, Square(v - mu), 9.0 * variance, gap, 9.0 * spread);
      ScaledOrder(n, variance, 0.0, spread, 0.0);
      ScaleKeepsOrder(n, v, mu);
    }
  }

  lemma {:induction false} BaselineFits(base: seq<real>, v: real)
    requires base != []
    ensures Fits(|base| as real, v, Mean(base), Variance(base), Total(base), Gap(base, v), Spread(base))
  {
    MeanByTotals(base);
    GapByMean(base, v);
    VarianceByTotals(base);
  }

  /** The code's test, on plain sums. */
  lemma StraysByTotals(base: seq<real>, v: real)
    requires base != []
    ensures Strays(v, Mean(base), Variance(base)) <==> Outlying(base, v)
  {
    BaselineFits(base, v);
    TestScales(|base| as real, v, Mean(base), Variance(base), Total(base), Gap(base, v), Spread(base));
  }
}
