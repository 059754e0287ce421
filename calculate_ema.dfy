/** The exponential moving average and the trend filter built on it (calculate-ema.js). */
module Ema {

  import opened Sequences
  import opened Upbit
  import opened Numbers

  /** The period used when the caller gives none. */
  const DefaultPeriod: nat := 200

  /** The smoothing factor `2 / (period + 1)`. */
  function Multiplier(period: nat): (m: real)
    requires period >= 1
    ensures 0.0 < m <= 1.0
  {
    2.0 / (period as real + 1.0)
  }

  /** The sum of a sequence of prices. */
  function Sum(s: seq<real>): real
  {
    if s == [] then 0.0 else Sum(s[..|s| - 1]) + s[|s| - 1]
  }

  /** The first EMA value: the sum of the first `period` closes (or of all of them when there
      are fewer) divided by `period`, whatever the number of closes summed. */
  function Seed(closes: seq<real>, period: nat): real
    requires period >= 1
  {
    Sum(closes[..MinInt(period, |closes|)]) / period as real
  }

  /** One step of the recurrence: the previous EMA moved toward the new close. */
  function Step(close: real, previous: real, multiplier: real): real
  {
    (close - previous) * multiplier + previous
  }

  /** The EMA series over oldest-first closes, oldest value first: the seed, then one value
      for each close from index `period` on. */
  function EmaSeries(closes: seq<real>, period: nat): (series: seq<real>)
    requires period >= 1
    ensures |series| == 1 + MaxInt(0, |closes| - period)
    ensures series[0] == Seed(closes, period)
    decreases |closes|
  {
    if |closes| <= period then [Seed(closes, period)]
    else
      var previous := EmaSeries(closes[..|closes| - 1], period);
      assert closes[..|closes| - 1][..period] == closes[..period];
      previous + [Step(closes[|closes| - 1], previous[|previous| - 1], Multiplier(period))]
  }

  /** The series over the first `min(period, n)` closes is the seed alone. */
  lemma SeriesStart(closes: seq<real>, period: nat)
    requires period >= 1
    ensures EmaSeries(closes[..MinInt(period, |closes|)], period) == [Seed(closes, period)]
  {
    var k := MinInt(period, |closes|);
    assert closes[..k][..MinInt(period, k)] == closes[..k];
  }

  /** Extending the closes by one (past the seed window) appends one recurrence step. */
  lemma SeriesExtend(closes: seq<real>, period: nat, i: nat)
    requires 1 <= period <= i < |closes|
    ensures var previous := EmaSeries(closes[..i], period);
      EmaSeries(closes[..i + 1], period)
        == previous + [Step(closes[i], previous[|previous| - 1], Multiplier(period))]
  {
    assert closes[..i + 1][..i] == closes[..i];
  }

  /** `calculateEMA`: the EMA series of the candles' closes, newest value first. The closes
      are reversed to oldest first on a copy, the recurrence runs forward, and the collected
      values are reversed back. */
  method CalculateEma(data: seq<Candle>, period: nat := DefaultPeriod) returns (emaValues: seq<real>)
    requires period >= 1
    ensures emaValues == Reverse(EmaSeries(ChronologicalCloses(data), period))
  {
    var closePrices := ChronologicalCloses(data);
    var multiplier := Multiplier(period);
    var ema := Seed(closePrices, period);
    var series := [ema];
    SeriesStart(closePrices, period);
    var i := period;
    while i < |closePrices|
      invariant period <= i
      invariant series == EmaSeries(closePrices[..MinInt(i, |closePrices|)], period)
      invariant ema == series[|series| - 1]
    {
      SeriesExtend(closePrices, period, i);
      ema := Step(closePrices[i], ema, multiplier);
      series := series + [ema];
      i := i + 1;
    }
    assert closePrices[..MinInt(i, |closePrices|)] == closePrices;
    emaValues := Reverse(series);
  }

  /** Every value after the seed follows the recurrence from its predecessor. */
  lemma {:induction false} EmaRecurrence(closes: seq<real>, period: nat, j: nat)
    requires period >= 1
    requires 1 <= j < |EmaSeries(closes, period)|
    ensures period + j - 1 < |closes|
    ensures EmaSeries(closes, period)[j]
         == Step(closes[period + j - 1], EmaSeries(closes, period)[j - 1], Multiplier(period))
    decreases |closes|
  {
    var prefix := closes[..|closes| - 1];
    if j < |EmaSeries(closes, period)| - 1 {
      EmaRecurrence(prefix, period, j);
    }
  }

  /** The newest-first output is never empty; its last element is the seed, and when there
      are more closes than the period its first element is the step on the newest close. */
  lemma NewestFirst(closes: seq<real>, period: nat)
    requires period >= 1
    ensures var r := Reverse(EmaSeries(closes, period));
      && |r| >= 1
      && r[|r| - 1] == Seed(closes, period)
      && (|closes| > period ==> r[0] == Step(closes[|closes| - 1], r[1], Multiplier(period)))
  {
    var s := EmaSeries(closes, period);
    if |closes| > period {
      EmaRecurrence(closes, period, |s| - 1);
    }
  }

  /** Sum bounds: a sum of values within [lo, hi] lies within [lo, hi] times their count. */
  lemma {:induction false} SumBounds(s: seq<real>, lo: real, hi: real)
    requires forall i :: 0 <= i < |s| ==> lo <= s[i] <= hi
    ensures lo * |s| as real <= Sum(s) <= hi * |s| as real
  {
    if s != [] {
      SumBounds(s[..|s| - 1], lo, hi);
    }
  }

  /** With at least `period` closes the seed is an average, so it lies within their range. */
  lemma SeedWithin(closes: seq<real>, period: nat, lo: real, hi: real)
    requires 1 <= period <= |closes|
    requires forall i :: 0 <= i < |closes| ==> lo <= closes[i] <= hi
    ensures lo <= Seed(closes, period) <= hi
  {
    var s := closes[..period];
    var p := period as real;
    SumBounds(s, lo, hi);
    var q := Sum(s) / p;
    assert q * p == Sum(s);
    assert (q - lo) * p >= 0.0;
    assert (hi - q) * p >= 0.0;
  }

  /** The product of two non-negative reals is non-negative. */
  lemma ProductNonNegative(a: real, b: real)
    requires a >= 0.0 && b >= 0.0
    ensures a * b >= 0.0
  {
  }

  /** A step is a convex combination of the new close and the previous value. */
  lemma StepWithin(close: real, previous: real, period: nat, lo: real, hi: real)
    requires period >= 1
    requires lo <= close <= hi && lo <= previous <= hi
    ensures lo <= Step(close, previous, Multiplier(period)) <= hi
  {
    var m := Multiplier(period);
    assert Step(close, previous, m) == m * close + (1.0 - m) * previous;
    ProductNonNegative(m, close - lo);
    ProductNonNegative(m, hi - close);
    ProductNonNegative(1.0 - m, previous - lo);
    ProductNonNegative(1.0 - m, hi - previous);
  }

  /** When there are at least `period` closes, every EMA value lies between the smallest
      and the largest close. */
  lemma {:induction false} EmaWithinCloseRange(closes: seq<real>, period: nat, lo: real, hi: real)
    requires 1 <= period <= |closes|
    requires forall i :: 0 <= i < |closes| ==> lo <= closes[i] <= hi
    ensures forall j :: 0 <= j < |EmaSeries(closes, period)| ==> lo <= EmaSeries(closes, period)[j] <= hi
    decreases |closes|
  {
    var s := EmaSeries(closes, period);
    if |closes| == period {
      SeedWithin(closes, period, lo, hi);
    } else {
      var prefix := closes[..|closes| - 1];
      EmaWithinCloseRange(prefix, period, lo, hi);
      var sp := EmaSeries(prefix, period);
      assert s[|s| - 2] == sp[|sp| - 1];
      StepWithin(closes[|closes| - 1], s[|s| - 2], period, lo, hi);
    }
  }

  /** A sum of `n` equal prices is `n` times the price. */
  lemma {:induction false} SumConstant(s: seq<real>, x: real)
    requires forall i :: 0 <= i < |s| ==> s[i] == x
    ensures Sum(s) == |s| as real * x
  {
    if s != [] {
      SumConstant(s[..|s| - 1], x);
    }
  }

  /** With fewer closes than the period the seed is still divided by the period, so a flat
      positive price history yields a single EMA value strictly below that price. */
  lemma ShortHistoryDilutesSeed(closes: seq<real>, period: nat, x: real)
    requires 0 < |closes| < period
    requires x > 0.0
    requires forall i :: 0 <= i < |closes| ==> closes[i] == x
    ensures EmaSeries(closes, period) == [Seed(closes, period)]
    ensures Seed(closes, period) == |closes| as real * x / period as real
    ensures Seed(closes, period) < x
  {
    assert closes[..MinInt(period, |closes|)] == closes;
    SumConstant(closes, x);
    var n := |closes| as real;
    var p := period as real;
    assert n * x < p * x;
    var q := n * x / p;
    assert q * p == n * x;
  }

  /** `filterEMA`: false on empty data; otherwise whether the newest candle's low is at or
      above the newest EMA value. The empty-EMA branch cannot be taken, and
      `proximityThreshold` has no effect (the proximity test is commented out). */
  method FilterEma(data: seq<Candle>, proximityThreshold: real := 0.035, period: nat := DefaultPeriod)
    returns (passes: bool)
    requires period >= 1
    ensures |data| == 0 ==> !passes
    ensures |data| > 0 ==>
      (passes <==> data[0].lowPrice >= Reverse(EmaSeries(ChronologicalCloses(data), period))[0])
  {
    if |data| == 0 {
      return false;
    }
    var emaValues := CalculateEma(data, period);
    if |emaValues| == 0 {
      return false;
    }
    var latestLow := data[0].lowPrice;
    var latestEma := emaValues[0];
    passes := latestLow >= latestEma;
  }
}
