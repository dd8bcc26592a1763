/**
 * Series statistics of bot.js: `computeMetricsFromSeries` turns a price series and a
 * volume series (oldest first) into one market snapshot. Prices are real numbers, so the
 * non-finite returns the source filters out cannot arise.
 */
module Series {
  import opened Wrappers

  /** The normalised snapshot `computeMetricsFromSeries` returns. `variance` is the
      zero-centred variance of the simple returns; the source's `volatility` is
      sqrt(variance) * sqrt(365) * 100 (not computed here;
      every volatility fact is stated on the variance). */
  datatype Metrics = Metrics(
    price: real,
    change24h: real,
    volume24h: real,
    high7d: real,
    low7d: real,
    variance: real,
    avgVolume: real,
    support: real,
    resistance: real)

  /** `Math.max(...s)` on a non-empty series. */
  function Max(s: seq<real>): (m: real)
    requires |s| > 0
    ensures m in s
    ensures forall i :: 0 <= i < |s| ==> s[i] <= m
  {
    if |s| == 1 then s[0]
    else
      var rest := Max(s[..|s| - 1]);
      if s[|s| - 1] > rest then s[|s| - 1] else rest
  }

  /** `Math.min(...s)` on a non-empty series. */
  function Min(s: seq<real>): (m: real)
    requires |s| > 0
    ensures m in s
    ensures forall i :: 0 <= i < |s| ==> m <= s[i]
  {
    if |s| == 1 then s[0]
    else
      var rest := Min(s[..|s| - 1]);
      if s[|s| - 1] < rest then s[|s| - 1] else rest
  }

  /** The simple return of the step from `prev` to `cur`. */
  function StepReturn(prev: real, cur: real): (r: real)
    requires prev > 0.0
    ensures r == 0.0 <==> cur == prev
    ensures r > 0.0 <==> cur > prev
  {
    (cur - prev) / prev
  }

  /** The returns the source's loop pushes, in order: one per index i >= 1 whose
      previous price is positive. Defined on prefixes, as the loop extends them. */
  function Returns(p: seq<real>): (rs: seq<real>)
  {
    if |p| < 2 then []
    else
      var prev, cur := p[|p| - 2], p[|p| - 1];
      Returns(p[..|p| - 1]) + (if prev > 0.0 then [StepReturn(prev, cur)] else [])
  }

  /** `returns.reduce((a, b) => a + b * b, 0)`: a left fold. */
  function SumSquares(rs: seq<real>): real
  {
    if rs == [] then 0.0 else SumSquares(rs[..|rs| - 1]) + Square(rs[|rs| - 1])
  }

  /** `b * b`. Its two facts are stated here once, so that no other proof has to
      reason about a product. */
  function Square(x: real): (r: real)
    ensures r >= 0.0
    ensures x == 0.0 ==> r == 0.0
  {
    x * x
  }

  /** The zero-centred variance: the sum of squares over `max(1, count)`. */
  function Variance(rs: seq<real>): real
  {
    SumSquares(rs) / (if |rs| > 1 then |rs| else 1) as real
  }

  /** `volumes.reduce((a, b) => a + b, 0)`: a left fold. */
  function Sum(v: seq<real>): real
  {
    if v == [] then 0.0 else Sum(v[..|v| - 1]) + v[|v| - 1]
  }

  /** `s / n` for a positive `n`. */
  function Quotient(s: real, n: real): real
    requires n > 0.0
  {
    s / n
  }

  /** The mean volume, 0 when there are no volumes. */
  function AvgVolume(v: seq<real>): real
  {
    if |v| == 0 then 0.0 else Quotient(Sum(v), |v| as real)
  }

  /** What `computeMetricsFromSeries` returns, as a function of its arguments. */
  function MetricsOf(prices: seq<real>, volumes: seq<real>, currentPrice: real, change24h: real, volume24h: real): (r: Option<Metrics>)
    ensures r.None? <==> |prices| == 0
    ensures r.Some? ==>
      && r.value.low7d in prices && r.value.high7d in prices
      && (forall i :: 0 <= i < |prices| ==> r.value.low7d <= prices[i] <= r.value.high7d)
    ensures r.Some? ==>
      && r.value.price == currentPrice
      && r.value.change24h == change24h
      && r.value.volume24h == volume24h
    ensures r.Some? ==> r.value.variance >= 0.0
  {
    if |prices| == 0 then None
    else
      var high7d, low7d := Max(prices), Min(prices);
      var rs := Returns(prices);
      VarianceNonNegative(rs);
      Some(Metrics(
        price := currentPrice,
        change24h := change24h,
        volume24h := volume24h,
        high7d := high7d,
        low7d := low7d,
        variance := Variance(rs),
        avgVolume := AvgVolume(volumes),
        support := low7d * 1.02,
        resistance := high7d * 0.98))
  }

  /** `computeMetricsFromSeries`: builds the returns with a loop, then the snapshot. */
  method ComputeMetricsFromSeries(prices: seq<real>, volumes: seq<real>, currentPrice: real, change24h: real, volume24h: real)
    returns (r: Option<Metrics>)
    ensures r == MetricsOf(prices, volumes, currentPrice, change24h, volume24h)
  {
    if |prices| == 0 {
      return None;
    }
    var high7d := Max(prices);
    var low7d := Min(prices);

    var rets: seq<real> := [];
    var i := 1;
    while i < |prices|
      invariant 1 <= i <= |prices|
      invariant rets == Returns(prices[..i])
    {
      var prev := prices[i - 1];
      var cur := prices[i];
      assert prices[..i + 1][..i] == prices[..i];
      if prev > 0.0 {
        rets := rets + [StepReturn(prev, cur)];
      }
      i := i + 1;
    }
    assert prices[..i] == prices;
    var variance := Variance(rets);
    var avgVolume := AvgVolume(volumes);

    r := Some(Metrics(
      price := currentPrice,
      change24h := change24h,
      volume24h := volume24h,
      high7d := high7d,
      low7d := low7d,
      variance := variance,
      avgVolume := avgVolume,
      support := low7d * 1.02,
      resistance := high7d * 0.98));
  }

  // ---- Properties of the returns -------------------------------------------

  /** At most one return per step of the series. */
  lemma {:induction false} ReturnsLength(p: seq<real>)
    ensures |Returns(p)| <= if |p| == 0 then 0 else |p| - 1
  {
    if |p| >= 2 {
      ReturnsLength(p[..|p| - 1]);
    }
  }

  /** Every recorded return comes from a step whose previous price is positive. */
  lemma {:induction false} ReturnsSound(p: seq<real>, k: nat)
    requires k < |Returns(p)|
    ensures exists i :: 1 <= i < |p| && p[i - 1] > 0.0 && Returns(p)[k] == StepReturn(p[i - 1], p[i])
  {
    var q := p[..|p| - 1];
    if k < |Returns(q)| {
      ReturnsSound(q, k);
      var i :| 1 <= i < |q| && q[i - 1] > 0.0 && Returns(q)[k] == StepReturn(q[i - 1], q[i]);
      assert p[i - 1] == q[i - 1] && p[i] == q[i];
    } else {
      assert Returns(p)[k] == StepReturn(p[|p| - 2], p[|p| - 1]);
    }
  }

  /** Every step whose previous price is positive has its return recorded. */
  lemma {:induction false} ReturnsComplete(p: seq<real>, i: nat)
    requires 1 <= i < |p| && p[i - 1] > 0.0
    ensures StepReturn(p[i - 1], p[i]) in Returns(p)
  {
    var q := p[..|p| - 1];
    if i < |p| - 1 {
      ReturnsComplete(q, i);
      assert q[i - 1] == p[i - 1] && q[i] == p[i];
    }
  }

  /** No return is recorded exactly when no step starts at a positive price. */
  lemma ReturnsEmptyIff(p: seq<real>)
    ensures Returns(p) == [] <==> forall i :: 0 <= i < |p| - 1 ==> p[i] <= 0.0
  {
    if Returns(p) != [] {
      ReturnsSound(p, 0);
    }
    if exists i :: 0 <= i < |p| - 1 && p[i] > 0.0 {
      var i :| 0 <= i < |p| - 1 && p[i] > 0.0;
      ReturnsComplete(p, i + 1);
    }
  }

  /** A constant series records only zero returns. */
  lemma ConstantSeriesReturnsZero(p: seq<real>)
    requires forall i :: 0 <= i < |p| ==> p[i] == p[0]
    ensures forall k :: 0 <= k < |Returns(p)| ==> Returns(p)[k] == 0.0
  {
    forall k | 0 <= k < |Returns(p)|
      ensures Returns(p)[k] == 0.0
    {
      ReturnsSound(p, k);
    }
  }

  // ---- Properties of the variance ------------------------------------------

  lemma {:induction false} SumSquaresNonNegative(rs: seq<real>)
    ensures SumSquares(rs) >= 0.0
  {
    if rs != [] {
      SumSquaresNonNegative(rs[..|rs| - 1]);
    }
  }

  lemma {:induction false} SumSquaresOfZeros(rs: seq<real>)
    requires forall k :: 0 <= k < |rs| ==> rs[k] == 0.0
    ensures SumSquares(rs) == 0.0
  {
    if rs != [] {
      SumSquaresOfZeros(rs[..|rs| - 1]);
    }
  }

  /** The variance is never negative. */
  lemma VarianceNonNegative(rs: seq<real>)
    ensures Variance(rs) >= 0.0
  {
    SumSquaresNonNegative(rs);
  }

  /** The variance is zero when every recorded return is zero, in particular when no
      return was recorded. */
  lemma VarianceOfZeroReturns(rs: seq<real>)
    requires forall k :: 0 <= k < |rs| ==> rs[k] == 0.0
    ensures Variance(rs) == 0.0
  {
    SumSquaresOfZeros(rs);
  }

  /** A constant price series has zero variance (and so zero volatility). */
  lemma ConstantSeriesZeroVariance(p: seq<real>)
    requires forall i :: 0 <= i < |p| ==> p[i] == p[0]
    ensures Variance(Returns(p)) == 0.0
  {
    ConstantSeriesReturnsZero(p);
    VarianceOfZeroReturns(Returns(p));
  }

  /** A series with no step starting at a positive price has zero variance. */
  lemma NoPositiveStepZeroVariance(p: seq<real>)
    requires forall i :: 0 <= i < |p| - 1 ==> p[i] <= 0.0
    ensures Variance(Returns(p)) == 0.0
  {
    ReturnsEmptyIff(p);
    VarianceOfZeroReturns(Returns(p));
  }

  // ---- Properties of the mean volume ---------------------------------------

  lemma {:induction false} SumBounds(v: seq<real>, lo: real, hi: real)
    requires forall i :: 0 <= i < |v| ==> lo <= v[i] <= hi
    ensures |v| as real * lo <= Sum(v) <= |v| as real * hi
  {
    if v != [] {
      SumBounds(v[..|v| - 1], lo, hi);
    }
  }

  /** Dividing `n * lo <= s <= n * hi` by a positive `n`. */
  lemma MeanBetween(s: real, n: real, lo: real, hi: real)
    requires n > 0.0 && n * lo <= s <= n * hi
    ensures lo <= Quotient(s, n) <= hi
  {
  }

  /** When every volume lies in `[lo, hi]`, so does the mean volume. */
  lemma AvgVolumeWithin(v: seq<real>, lo: real, hi: real)
    requires |v| > 0
    requires forall i :: 0 <= i < |v| ==> lo <= v[i] <= hi
    ensures lo <= AvgVolume(v) <= hi
  {
    SumBounds(v, lo, hi);
    MeanBetween(Sum(v), |v| as real, lo, hi);
  }

  /** The mean volume of a non-empty series lies between its smallest and its
      largest volume. */
  lemma AvgVolumeBetweenExtremes(v: seq<real>)
    requires |v| > 0
    ensures Min(v) <= AvgVolume(v) <= Max(v)
  {
    AvgVolumeWithin(v, Min(v), Max(v));
  }

  /** Non-negative volumes give a non-negative mean volume, and no volumes give 0. */
  lemma AvgVolumeNonNegative(v: seq<real>)
    requires forall i :: 0 <= i < |v| ==> v[i] >= 0.0
    ensures AvgVolume(v) >= 0.0
    ensures |v| == 0 ==> AvgVolume(v) == 0.0
  {
    if |v| > 0 {
      AvgVolumeWithin(v, 0.0, Max(v));
    }
  }

  // ---- Properties of the snapshot ------------------------------------------

  /** Support and resistance are the weekly low raised by 2% and the weekly high
      lowered by 2%, and the weekly low never exceeds the weekly high. */
  lemma SnapshotLevels(prices: seq<real>, volumes: seq<real>, currentPrice: real, change24h: real, volume24h: real)
    requires |prices| > 0
    ensures var m := MetricsOf(prices, volumes, currentPrice, change24h, volume24h).value;
      && m.low7d <= m.high7d
      && m.support == m.low7d * 1.02
      && m.resistance == m.high7d * 0.98
      && m.avgVolume == AvgVolume(volumes)
      && m.variance == Variance(Returns(prices))
  {
    var m := MetricsOf(prices, volumes, currentPrice, change24h, volume24h).value;
    assert m.low7d <= prices[0] <= m.high7d;
  }

  /** Support may lie above resistance: a one-point series at 100 has support 102 and
      resistance 98, so consumers must tolerate an inverted range. */
  lemma SupportMayExceedResistance()
    ensures var m := MetricsOf([100.0], [], 100.0, 0.0, 0.0).value;
      m.support == 102.0 && m.resistance == 98.0 && m.support > m.resistance
  {
    var m := MetricsOf([100.0], [], 100.0, 0.0, 0.0).value;
    assert m.low7d == 100.0 && m.high7d == 100.0;
  }
}
