/** Heikin-Ashi candles and the three-candle entry pattern (calculate-heikinashi.js). */
module HeikinAshi {

  import opened Wrappers
  import opened Sequences
  import opened Upbit
  import opened Numbers

  /** One synthetic candle, with the raw candle it was built from. */
  datatype HaCandle = HaCandle(haOpen: real, haClose: real, haHigh: real, haLow: real, original: Candle)

  /** JavaScript's `x || fallback` on a number: a value of exactly 0 is falsy and is replaced. */
  function OrElse(x: real, fallback: real): real
  {
    if x == 0.0 then fallback else x
  }

  /** The wicks of a candle are non-negative: its high is at least its open and close, and
      its low at most both. */
  predicate WellFormed(h: HaCandle)
  {
    h.haHigh >= Max(h.haOpen, h.haClose) && h.haLow <= Min(h.haOpen, h.haClose)
  }

  /** The synthetic candle for `candle`, given the previously built one (none for the first). */
  function NextHa(previous: Option<HaCandle>, candle: Candle): (h: HaCandle)
    ensures WellFormed(h) && h.haHigh >= candle.highPrice && h.haLow <= candle.lowPrice
    ensures h.haClose == (candle.openingPrice + candle.highPrice + candle.lowPrice + candle.tradePrice) / 4.0
    ensures h.haHigh == Max(candle.highPrice, Max(h.haOpen, h.haClose))
    ensures h.haLow == Min(candle.lowPrice, Min(h.haOpen, h.haClose))
    ensures h.original == candle
  {
    var open := candle.openingPrice;
    var close := candle.tradePrice;
    var haClose := (open + candle.highPrice + candle.lowPrice + close) / 4.0;
    var prevHaOpen := if previous.Some? then OrElse(previous.value.haOpen, open) else open;
    var prevHaClose := if previous.Some? then OrElse(previous.value.haClose, close) else close;
    var haOpen := (prevHaOpen + prevHaClose) / 2.0;
    HaCandle(haOpen, haClose, Max(candle.highPrice, Max(haOpen, haClose)),
             Min(candle.lowPrice, Min(haOpen, haClose)), candle)
  }

  /** The last element of a built sequence, if any. */
  function LastOf(ha: seq<HaCandle>): Option<HaCandle>
  {
    if ha == [] then None else Some(ha[|ha| - 1])
  }

  /** The Heikin-Ashi sequence of `candles`, built in their order, each candle from the one
      built before it. One synthetic candle per input candle, each well formed. */
  function Build(candles: seq<Candle>): (ha: seq<HaCandle>)
    ensures |ha| == |candles|
    ensures forall i :: 0 <= i < |ha| ==> ha[i].original == candles[i] && WellFormed(ha[i])
  {
    if candles == [] then []
    else
      var previous := Build(candles[..|candles| - 1]);
      previous + [NextHa(LastOf(previous), candles[|candles| - 1])]
  }

  /** Building a prefix gives the prefix of the built sequence. */
  lemma {:induction false} BuildPrefix(candles: seq<Candle>, k: nat)
    requires k <= |candles|
    ensures Build(candles[..k]) == Build(candles)[..k]
    decreases |candles|
  {
    if k < |candles| {
      BuildPrefix(candles[..|candles| - 1], k);
      assert candles[..|candles| - 1][..k] == candles[..k];
    } else {
      assert candles[..k] == candles;
    }
  }

  /** Each synthetic candle is `NextHa` of its raw candle and the synthetic candle before it. */
  lemma BuildAt(candles: seq<Candle>, i: nat)
    requires i < |candles|
    ensures Build(candles)[i] == NextHa(if i == 0 then None else Some(Build(candles)[i - 1]), candles[i])
  {
    BuildPrefix(candles, i + 1);
    BuildPrefix(candles, i);
  }

  /** The first synthetic candle opens at the mean of its own raw open and close. */
  lemma FirstOpen(candles: seq<Candle>)
    requires |candles| > 0
    ensures Build(candles)[0].haOpen == (candles[0].openingPrice + candles[0].tradePrice) / 2.0
  {
    BuildPrefix(candles, 1);
  }

  /** The recurrence: a later candle opens at the mean of the previous synthetic open and close,
      where a previous value of exactly 0 is replaced by the current raw open (respectively
      close). */
  lemma LaterOpen(candles: seq<Candle>, i: nat)
    requires 0 < i < |candles|
    ensures Build(candles)[i].haOpen
         == (OrElse(Build(candles)[i - 1].haOpen, candles[i].openingPrice)
             + OrElse(Build(candles)[i - 1].haClose, candles[i].tradePrice)) / 2.0
  {
    BuildPrefix(candles, i + 1);
    BuildPrefix(candles, i);
    assert candles[..i + 1][..i] == candles[..i];
  }

  /** All four prices of every candle are positive. */
  predicate PositivePrices(candles: seq<Candle>)
  {
    forall i :: 0 <= i < |candles| ==>
      candles[i].openingPrice > 0.0 && candles[i].highPrice > 0.0
      && candles[i].lowPrice > 0.0 && candles[i].tradePrice > 0.0
  }

  /** With positive prices every synthetic open and close is positive. */
  lemma {:induction false} PositiveSynthetic(candles: seq<Candle>)
    requires PositivePrices(candles)
    ensures forall i :: 0 <= i < |candles| ==> Build(candles)[i].haOpen > 0.0 && Build(candles)[i].haClose > 0.0
  {
    if candles != [] {
      var prefix := candles[..|candles| - 1];
      PositiveSynthetic(prefix);
    }
  }

  /** With positive prices the `||` fallback never fires, so a later candle opens exactly at the
      mean of the previous synthetic open and close. */
  lemma NoFallbackForPositivePrices(candles: seq<Candle>, i: nat)
    requires PositivePrices(candles)
    requires 0 < i < |candles|
    ensures Build(candles)[i].haOpen == (Build(candles)[i - 1].haOpen + Build(candles)[i - 1].haClose) / 2.0
  {
    PositiveSynthetic(candles);
    LaterOpen(candles, i);
    var prev := Build(candles)[i - 1];
    assert prev.haOpen > 0.0 && prev.haClose > 0.0;
    assert OrElse(prev.haOpen, candles[i].openingPrice) == prev.haOpen;
    assert OrElse(prev.haClose, candles[i].tradePrice) == prev.haClose;
  }

  /** `calculateHeikinAshi`: walks the candles in order, pushing each synthetic candle built
      from the one pushed before it. */
  method CalculateHeikinAshi(candles: seq<Candle>) returns (heikinAshiCandles: seq<HaCandle>)
    ensures heikinAshiCandles == Build(candles)
  {
    heikinAshiCandles := [];
    var index := 0;
    while index < |candles|
      invariant index <= |candles|
      invariant heikinAshiCandles == Build(candles[..index])
    {
      assert candles[..index + 1][..index] == candles[..index];
      var previous := if index == 0 then None else Some(heikinAshiCandles[index - 1]);
      heikinAshiCandles := heikinAshiCandles + [NextHa(previous, candles[index])];
      index := index + 1;
    }
    assert candles[..index] == candles;
  }

  /** The oldest of the three: a thin body (under half the range) with both wicks longer than
      one and a half bodies. */
  predicate IsIndecision(h: HaCandle)
    ensures IsIndecision(h) ==> h.haHigh > h.haLow
  {
    var body := Abs(h.haClose - h.haOpen);
    var upperWick := h.haHigh - Max(h.haOpen, h.haClose);
    var lowerWick := Min(h.haOpen, h.haClose) - h.haLow;
    body < (h.haHigh - h.haLow) * 0.5 && upperWick > body * 1.5 && lowerWick > body * 1.5
  }

  /** The middle one: a signed body above 0.3 of the range and a lower wick (measured from the
      open) below 0.3 of the body. */
  predicate IsStrong(h: HaCandle)
    ensures IsStrong(h) && h.haLow <= h.haHigh ==> h.haClose > h.haOpen
  {
    var body := h.haClose - h.haOpen;
    var lowerWick := h.haOpen - h.haLow;
    body > (h.haHigh - h.haLow) * 0.3 && lowerWick < body * 0.3
  }

  /** The newest: bullish, with a lower wick below a tenth of the body. */
  predicate IsStrongBullish(h: HaCandle)
    ensures IsStrongBullish(h) ==> h.haClose > h.haOpen
    ensures IsStrongBullish(h) && h.haLow <= h.haOpen ==> h.haClose - h.haLow < (h.haClose - h.haOpen) * 1.1
  {
    var body := h.haClose - h.haOpen;
    var lowerWick := h.haOpen - h.haLow;
    h.haClose > h.haOpen && lowerWick < body * 0.1
  }

  /** The entry pattern over the last three synthetic candles of an oldest-first sequence. */
  predicate PatternHolds(ha: seq<HaCandle>)
    ensures PatternHolds(ha) ==> |ha| >= 3 && ha[|ha| - 3].haHigh > ha[|ha| - 3].haLow
                                 && ha[|ha| - 1].haClose > ha[|ha| - 1].haOpen
  {
    |ha| >= 3 && IsIndecision(ha[|ha| - 3]) && IsStrong(ha[|ha| - 2]) && IsStrongBullish(ha[|ha| - 1])
  }

  /** `filterHeikinAshi`: reverses the caller's newest-first array in place (so afterwards it is
      oldest first), builds the synthetic candles over it and tests the pattern, which fails
      when there are fewer than three candles. */
  method FilterHeikinAshi(candles: array<Candle>) returns (passes: bool)
    modifies candles
    ensures candles[..] == Reverse(old(candles[..]))
    ensures passes <==> PatternHolds(Build(Reverse(old(candles[..]))))
    ensures candles.Length < 3 ==> !passes
  {
    ReverseInPlace(candles);
    var heikinAshiCandles := CalculateHeikinAshi(candles[..]);
    if |heikinAshiCandles| < 3 {
      return false;
    }
    var n := |heikinAshiCandles|;
    passes := IsIndecision(heikinAshiCandles[n - 3]) && IsStrong(heikinAshiCandles[n - 2])
              && IsStrongBullish(heikinAshiCandles[n - 1]);
  }

  /** On a well-formed candle the strong-candle test already implies a bullish candle, although
      its explicit bullish check is commented out: the range is never negative. */
  lemma StrongImpliesBullish(h: HaCandle)
    requires WellFormed(h)
    ensures IsStrong(h) ==> h.haClose > h.haOpen
  {
  }

  /** Likewise the newest candle's explicit bullish check is implied by its wick test. */
  lemma ShortLowerWickImpliesBullish(h: HaCandle)
    requires WellFormed(h)
    ensures h.haOpen - h.haLow < (h.haClose - h.haOpen) * 0.1 ==> h.haClose > h.haOpen
  {
  }

  /** On well-formed candles the pattern needs the middle and newest candles both bullish. */
  lemma PatternCandlesAreBullish(ha: seq<HaCandle>)
    requires forall i :: 0 <= i < |ha| ==> WellFormed(ha[i])
    requires PatternHolds(ha)
    ensures ha[|ha| - 2].haClose > ha[|ha| - 2].haOpen
    ensures ha[|ha| - 1].haClose > ha[|ha| - 1].haOpen
  {
    StrongImpliesBullish(ha[|ha| - 2]);
  }
}
