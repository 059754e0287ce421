/** The stochastic-RSI gate (calculate-stochastic-rsi.js). The indicator values themselves come
    from the `technicalindicators` library, which is represented here by a function parameter. */
module StochasticRsi {

  import opened Upbit

  /** The periods handed to the library. */
  datatype StochRsiParams = StochRsiParams(rsiPeriod: nat, stochasticPeriod: nat, kPeriod: nat, dPeriod: nat)

  /** The defaults of `calculateStochasticRSI`: RSI 14, stochastic 14, %K 3, %D 3. */
  const DefaultParams: StochRsiParams := StochRsiParams(14, 14, 3, 3)

  /** One `{k, d}` element of the library's output. */
  datatype KD = KD(k: real, d: real)

  /** `StochasticRSI.calculate`: oldest-first closes and periods to a `{k, d}` series. */
  type Library = (seq<real>, StochRsiParams) -> seq<KD>

  /** %K must be below this level for the gate to open. */
  const OversoldLevel: real := 20.0

  /** `calculateStochasticRSI`: the library applied to the closes, reversed to oldest first
      on a copy, with the given periods (14, 14, 3, 3 by default). */
  function CalculateStochasticRsi(data: seq<Candle>, library: Library, params: StochRsiParams := DefaultParams): seq<KD>
  {
    library(ChronologicalCloses(data), params)
  }

  /** What `filterStochasticRSI` yields: a verdict, or the TypeError thrown when the library
      returns no values and `latestStochRSI.k` is read from `undefined`. */
  datatype RsiVerdict = Decided(passes: bool) | NoLatestValue

  /** The rule applied to the newest `{k, d}` pair: %K below 20 and above %D. */
  predicate BullishOversold(latest: KD)
  {
    latest.k < OversoldLevel && latest.k > latest.d
  }

  /** `filterStochasticRSI`: the verdict of the rule on the last (newest) element of the
      library's output. */
  function FilterStochasticRsi(data: seq<Candle>, library: Library): (verdict: RsiVerdict)
    ensures var values := library(ChronologicalCloses(data), DefaultParams);
      && (verdict.NoLatestValue? <==> values == [])
      && (verdict.Decided? ==> (verdict.passes <==>
            values[|values| - 1].k < 20.0 && values[|values| - 1].k > values[|values| - 1].d))
  {
    var values := CalculateStochasticRsi(data, library);
    if values == [] then NoLatestValue
    else Decided(BullishOversold(values[|values| - 1]))
  }

  /** Only the newest element decides: two runs whose last elements agree give the same verdict,
      whatever came before. */
  lemma OnlyLatestMatters(data1: seq<Candle>, library1: Library, data2: seq<Candle>, library2: Library)
    requires var v1 := CalculateStochasticRsi(data1, library1); var v2 := CalculateStochasticRsi(data2, library2);
      v1 != [] && v2 != [] && v1[|v1| - 1] == v2[|v2| - 1]
    ensures FilterStochasticRsi(data1, library1) == FilterStochasticRsi(data2, library2)
  {
  }

  /** %K equal to %D, or %K at or above 20, rejects. */
  lemma RejectsWithoutCrossOrWhenHigh(latest: KD)
    ensures latest.k == latest.d ==> !BullishOversold(latest)
    ensures latest.k >= 20.0 ==> !BullishOversold(latest)
  {
  }
}
