/** The 24-hour traded-value gate (calculate-volume.js). */
module Volume {

  import opened Upbit

  /** The threshold used when the caller gives none: 5,000,000,000 KRW. */
  const DefaultMinVolume: real := 5000000000.0

  /** `filterVolume`: does the first ticker's 24-hour traded value reach `minVolume`?
      The source reads `tickerData[0]` unguarded, so an empty list would throw; its only
      caller rejects empty ticker data first. */
  predicate FilterVolume(tickerData: seq<Ticker>, minVolume: real := DefaultMinVolume)
    requires |tickerData| > 0
    ensures tickerData[0].accTradePrice24h == minVolume ==> FilterVolume(tickerData, minVolume)
    ensures tickerData[0].accTradePrice24h < minVolume ==> !FilterVolume(tickerData, minVolume)
  {
    minVolume <= tickerData[0].accTradePrice24h
  }

  /** A traded value exactly at the threshold passes, and the gate is true exactly when
      the value reaches the threshold. */
  lemma VolumeThreshold(tickerData: seq<Ticker>, minVolume: real)
    requires |tickerData| > 0
    ensures FilterVolume(tickerData, minVolume) <==> tickerData[0].accTradePrice24h >= minVolume
    ensures tickerData[0].accTradePrice24h == minVolume ==> FilterVolume(tickerData, minVolume)
  {
  }

  /** Only the first ticker is consulted: later elements never change the verdict. */
  lemma OnlyFirstTickerMatters(a: seq<Ticker>, b: seq<Ticker>, minVolume: real)
    requires |a| > 0 && |b| > 0 && a[0] == b[0]
    ensures FilterVolume(a, minVolume) == FilterVolume(b, minVolume)
  {
  }

  /** Raising the threshold can only turn a pass into a rejection. */
  lemma AntitoneInThreshold(tickerData: seq<Ticker>, low: real, high: real)
    requires |tickerData| > 0 && low <= high
    ensures FilterVolume(tickerData, high) ==> FilterVolume(tickerData, low)
  {
  }
}
