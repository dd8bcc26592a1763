/**
 * The numeric part of bot.js's message formatting: `round` and the trade idea, stop
 * and take levels of `formatSignal`. The message text itself is not modelled.
 */
module Formatting {
  import opened Wrappers
  import opened Series

  // ---- round --------------------------------------------------------------------

  /** `Math.pow(10, d)`. */
  function Pow10(d: nat): (p: real)
    ensures p >= 1.0
  {
    if d == 0 then 1.0 else 10.0 * Pow10(d - 1)
  }

  /** `Math.round`: the nearest integer, halves rounded up. */
  function RoundHalfUp(x: real): (n: int)
    ensures x - 0.5 < n as real <= x + 0.5
  {
    (x + 0.5).Floor
  }

  /** `x * d`. */
  function Scale(x: real, d: real): real
  {
    x * d
  }

  /** `n / d` for a positive `d`; scaling it back by `d` gives `n`. */
  function Unscale(n: real, d: real): (r: real)
    requires d > 0.0
    ensures Scale(r, d) == n
  {
    n / d
  }

  /** `round(value, decimals)`: 0 for a missing value (`null` or `undefined`),
      otherwise the value rounded half up to `decimals` decimal places. */
  function Round(value: Option<real>, decimals: nat := 2): real
  {
    match value
    case None => 0.0
    case Some(v) =>
      var d := Pow10(decimals);
      Unscale(RoundHalfUp(Scale(v, d)) as real, d)
  }

  /** Scaled back up, the rounded value is a whole number within half a unit of the
      scaled input, rounding halves up; a missing value rounds to 0. */
  lemma RoundIsNearest(value: Option<real>, decimals: nat)
    ensures value.None? ==> Round(value, decimals) == 0.0
    ensures value.Some? ==>
      var d := Pow10(decimals);
      var k := Scale(Round(value, decimals), d);
      && k == k.Floor as real
      && Scale(value.value, d) - 0.5 < k <= Scale(value.value, d) + 0.5
  {
  }

  /** Rounding an already rounded value changes nothing. */
  lemma RoundIdempotent(v: real, decimals: nat)
    ensures Round(Some(Round(Some(v), decimals)), decimals) == Round(Some(v), decimals)
  {
    var d := Pow10(decimals);
    var n := RoundHalfUp(Scale(v, d));
    assert Scale(Round(Some(v), decimals), d) == n as real;
    assert RoundHalfUp(n as real) == n;
  }

  // ---- formatSignal ---------------------------------------------------------------

  /** The trade idea `formatSignal` shows. */
  datatype Idea = Neutral | NearSupportIdea | NearResistanceIdea

  /** The idea, the stop level and the take level of one signal. */
  datatype SignalPlan = SignalPlan(idea: Idea, stop: real, take: real)

  /** The price is within 2% above the support level. */
  predicate NearSupport(md: Metrics)
  {
    md.price <= md.support * 1.02
  }

  /** The price is at most 2% below the resistance level. */
  predicate NearResistance(md: Metrics)
  {
    md.price >= md.resistance * 0.98
  }

  /** `formatSignal`'s decision: start neutral, switch to the support idea when near
      support, then to the resistance idea when near resistance (the later assignment
      wins); stop and take are 4%/6% from the price after a falling day and 6%/8%
      otherwise. */
  method FormatSignal(md: Metrics) returns (plan: SignalPlan)
    ensures plan.idea == NearResistanceIdea <==> NearResistance(md)
    ensures plan.idea == NearSupportIdea <==> NearSupport(md) && !NearResistance(md)
    ensures plan.idea == Neutral <==> !NearSupport(md) && !NearResistance(md)
    ensures md.change24h < 0.0 ==> plan.stop == md.price * 0.96 && plan.take == md.price * 1.06
    ensures md.change24h >= 0.0 ==> plan.stop == md.price * 0.94 && plan.take == md.price * 1.08
    ensures md.price > 0.0 ==> plan.stop < md.price < plan.take
  {
    var nearSupport := NearSupport(md);
    var nearResistance := NearResistance(md);

    var idea := Neutral;
    if nearSupport {
      idea := NearSupportIdea;
    }
    if nearResistance {
      idea := NearResistanceIdea;
    }

    var sl := md.price * (if md.change24h < 0.0 then 0.96 else 0.94);
    var tp := md.price * (if md.change24h < 0.0 then 1.06 else 1.08);
    plan := SignalPlan(idea, sl, tp);
  }

  /** Near-support and near-resistance can hold together: on a one-point series at a
      positive price support lies above resistance and the price is near both, so the
      resistance idea is the one shown. */
  lemma OnePointSeriesNearBoth(p: real, volumes: seq<real>, change24h: real, volume24h: real)
    requires p > 0.0
    ensures var md := MetricsOf([p], volumes, p, change24h, volume24h).value;
      NearSupport(md) && NearResistance(md)
  {
    var md := MetricsOf([p], volumes, p, change24h, volume24h).value;
    assert md.low7d == p && md.high7d == p;
  }
}
