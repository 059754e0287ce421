/** The trading loop of bitcoin-monitor.js: the KRW market list, the selection pass, the fill
    volume of an order, the take-profit / stop-loss monitor, and one cycle of `main` over the
    module-level `seed` and `spreadAppendData`. Every network read is an input: the market
    listing, one probe per market, the buy reply, the order lookup and a finite sequence of
    price ticks. */
module Monitor {

  import opened Wrappers
  import opened Sequences
  import opened Upbit
  import opened Util
  import Volume
  import StochasticRsi
  import HeikinAshi

  /** A `formatDateNow()` reading, taken as given. */
  type Timestamp = string

  // ----- getAllMarkets -----

  /** One entry of the `/market/all` listing. */
  datatype MarketInfo = MarketInfo(market: string)

  /** Does the market code start with "KRW-"? */
  predicate IsKrwCode(code: string)
  {
    |code| >= 4 && code[..4] == "KRW-"
  }

  /** The codes of the listing that start with "KRW-", in listing order. */
  function KrwCodes(listing: seq<MarketInfo>): (codes: seq<string>)
    ensures |codes| <= |listing|
    ensures forall c :: c in codes ==> IsKrwCode(c) && MarketInfo(c) in listing
    ensures forall m :: m in listing && IsKrwCode(m.market) ==> m.market in codes
  {
    if listing == [] then []
    else
      var last := listing[|listing| - 1];
      KrwCodes(listing[..|listing| - 1]) + (if IsKrwCode(last.market) then [last.market] else [])
  }

  /** The filter keeps the listing's order: it distributes over concatenation. */
  lemma {:induction false} KrwCodesConcat(a: seq<MarketInfo>, b: seq<MarketInfo>)
    ensures KrwCodes(a + b) == KrwCodes(a) + KrwCodes(b)
    decreases |b|
  {
    if b == [] {
      assert a + b == a;
    } else {
      var b' := b[..|b| - 1];
      assert (a + b)[..|a + b| - 1] == a + b';
      KrwCodesConcat(a, b');
    }
  }

  /** `getAllMarkets`: the KRW codes of the listing, or no markets when the request failed. */
  function GetAllMarkets(response: Option<seq<MarketInfo>>): (markets: seq<string>)
    ensures response.None? ==> markets == []
    ensures response.Some? ==> markets == KrwCodes(response.value)
    ensures forall j :: 0 <= j < |markets| ==> IsKrwCode(markets[j])
  {
    match response
    case None => []
    case Some(listing) => KrwCodes(listing)
  }

  // ----- filterMarket -----

  /** The 24-hour traded value the selector demands: 3,000,000,000 KRW. */
  const SelectorMinVolume: real := 3000000000.0

  /** What the two reads for one market (ticker, then candles) gave: data, or an exception after
      the retries were exhausted. */
  datatype Probe = FetchFailed | Fetched(tickerData: seq<Ticker>, candleData: seq<Candle>)

  /** The stage at which a market was turned away. */
  datatype Stage = NoData | VolumeStage | StochRsiStage | HeikinAshiStage

  /** The fate of one market in the pass: turned away (the loop continues), accepted (the pass
      returns it) or an exception that ends the whole pass. */
  datatype Verdict = Rejected(stage: Stage) | Accepted | Threw

  /** The stages in their fixed order, each reached only if the previous one passed. The EMA
      stage is commented out in the source and is not applied. */
  function Evaluate(probe: Probe, library: StochasticRsi.Library): (verdict: Verdict)
    ensures verdict == Threw ==>
      probe.FetchFailed? || StochasticRsi.FilterStochasticRsi(probe.candleData, library).NoLatestValue?
  {
    match probe
    case FetchFailed => Threw
    case Fetched(tickerData, candleData) =>
      if |tickerData| == 0 || |candleData| == 0 then Rejected(NoData)
      else if !Volume.FilterVolume(tickerData, SelectorMinVolume) then Rejected(VolumeStage)
      else
        match StochasticRsi.FilterStochasticRsi(candleData, library)
        case NoLatestValue => Threw
        case Decided(passes) =>
          if !passes then Rejected(StochRsiStage)
          else if !HeikinAshi.PatternHolds(HeikinAshi.Build(Reverse(candleData))) then Rejected(HeikinAshiStage)
          else Accepted
  }

  /** A market is accepted exactly when its reads succeeded with data, its 24-hour traded value
      reaches the selector's threshold, its latest stochastic-RSI value is a bullish cross below
      the oversold level, and the Heikin-Ashi pattern holds on its oldest-first candles (so it
      has at least three). */
  lemma AcceptedIffEveryStagePasses(probe: Probe, library: StochasticRsi.Library)
    ensures Evaluate(probe, library) == Accepted <==>
      && probe.Fetched? && |probe.tickerData| > 0 && |probe.candleData| > 0
      && probe.tickerData[0].accTradePrice24h >= SelectorMinVolume
      && StochasticRsi.FilterStochasticRsi(probe.candleData, library) == StochasticRsi.Decided(true)
      && HeikinAshi.PatternHolds(HeikinAshi.Build(Reverse(probe.candleData)))
    ensures Evaluate(probe, library) == Accepted ==> |probe.candleData| >= 3
  {
    match probe
    case FetchFailed =>
    case Fetched(tickerData, candleData) =>
      if |tickerData| > 0 && |candleData| > 0 && Volume.FilterVolume(tickerData, SelectorMinVolume) {
        var ha := HeikinAshi.Build(Reverse(candleData));
        assert |ha| == |candleData|;
      }
  }

  /** A market's evaluation throws exactly when its reads failed, or when it reaches the
      stochastic-RSI stage (it has data and passes the volume gate) and the library returned no
      values. */
  lemma ThrewIffReadFailedOrNoLatest(probe: Probe, library: StochasticRsi.Library)
    ensures Evaluate(probe, library) == Threw <==>
      probe.FetchFailed?
      || (&& |probe.tickerData| > 0 && |probe.candleData| > 0
          && Volume.FilterVolume(probe.tickerData, SelectorMinVolume)
          && StochasticRsi.FilterStochasticRsi(probe.candleData, library).NoLatestValue?)
  {
  }

  /** The result of a selection pass. `PassAborted` names the market whose evaluation threw. */
  datatype Selection = Selected(market: string) | NoneSelected | PassAborted(market: string)

  /** The selection pass over `markets`, `probes[i]` being what the reads for `markets[i]` gave. */
  function Select(markets: seq<string>, probes: seq<Probe>, library: StochasticRsi.Library): (selection: Selection)
    requires |probes| == |markets|
    ensures selection.Selected? ==> selection.market in markets
    ensures selection.PassAborted? ==> selection.market in markets
    decreases |markets|
  {
    if markets == [] then NoneSelected
    else
      match Evaluate(probes[0], library)
      case Accepted => Selected(markets[0])
      case Threw => PassAborted(markets[0])
      case Rejected(_) => Select(markets[1..], probes[1..], library)
  }

  /** `filterMarket`: returns the first market that passes every stage, in market order. A
      read that throws, or a stochastic-RSI result with no values, ends the pass. */
  method FilterMarket(markets: seq<string>, probes: seq<Probe>, library: StochasticRsi.Library)
    returns (selection: Selection)
    requires |probes| == |markets|
    ensures selection == Select(markets, probes, library)
  {
    for i := 0 to |markets|
      invariant Select(markets, probes, library) == Select(markets[i..], probes[i..], library)
    {
      assert markets[i..][1..] == markets[i + 1..] && probes[i..][1..] == probes[i + 1..];
      var market := markets[i];
      if probes[i].FetchFailed? {
        return PassAborted(market);
      }
      var tickerData := probes[i].tickerData;
      var candleData := probes[i].candleData;
      if |tickerData| == 0 || |candleData| == 0 {
        continue;
      }
      if !Volume.FilterVolume(tickerData, SelectorMinVolume) {
        continue;
      }
      var stochRsi := StochasticRsi.FilterStochasticRsi(candleData, library);
      if stochRsi.NoLatestValue? {
        return PassAborted(market);
      }
      if !stochRsi.passes {
        continue;
      }
      var candles := new Candle[|candleData|](j requires 0 <= j < |candleData| => candleData[j]);
      assert candles[..] == candleData;
      var pattern := HeikinAshi.FilterHeikinAshi(candles);
      if !pattern {
        continue;
      }
      return Selected(market);
    }
    return NoneSelected;
  }

  /** What a pass yields once its first decisive market is known (`i == |markets|`: none). */
  function DecidedBy(markets: seq<string>, probes: seq<Probe>, library: StochasticRsi.Library, i: nat): Selection
    requires |probes| == |markets| && i <= |markets|
  {
    if i == |markets| then NoneSelected
    else if Evaluate(probes[i], library) == Accepted then Selected(markets[i])
    else PassAborted(markets[i])
  }

  /** The pass is decided by the first market that is not turned away: it is selected if it
      passed, and the pass is aborted if its evaluation threw; if every market is turned away
      nothing is selected. */
  lemma {:induction false} FirstDecisiveMarketDecides(markets: seq<string>, probes: seq<Probe>,
                                                      library: StochasticRsi.Library, i: nat)
    requires |probes| == |markets| && i <= |markets|
    requires forall j :: 0 <= j < i ==> Evaluate(probes[j], library).Rejected?
    requires i < |markets| ==> !Evaluate(probes[i], library).Rejected?
    ensures Select(markets, probes, library) == DecidedBy(markets, probes, library, i)
    decreases i
  {
    if i > 0 {
      FirstDecisiveMarketDecides(markets[1..], probes[1..], library, i - 1);
    }
  }

  /** A selected market is one of the markets, it passed every stage, and every market before
      it was turned away. */
  lemma {:induction false} SelectedMarketPassed(markets: seq<string>, probes: seq<Probe>, library: StochasticRsi.Library)
    requires |probes| == |markets|
    requires Select(markets, probes, library).Selected?
    ensures exists i :: (0 <= i < |markets| && markets[i] == Select(markets, probes, library).market
      && Evaluate(probes[i], library) == Accepted
      && forall j :: 0 <= j < i ==> Evaluate(probes[j], library).Rejected?)
    decreases |markets|
  {
    var first := Evaluate(probes[0], library);
    if first != Accepted {
      assert first.Rejected?;
      var restMarkets, restProbes := markets[1..], probes[1..];
      assert Select(markets, probes, library) == Select(restMarkets, restProbes, library);
      SelectedMarketPassed(restMarkets, restProbes, library);
      var i :| 0 <= i < |restMarkets| && restMarkets[i] == Select(restMarkets, restProbes, library).market
        && Evaluate(restProbes[i], library) == Accepted
        && forall j :: 0 <= j < i ==> Evaluate(restProbes[j], library).Rejected?;
      assert forall j :: 0 <= j < i + 1 ==> Evaluate(probes[j], library).Rejected? by {
        forall j | 0 <= j < i + 1 ensures Evaluate(probes[j], library).Rejected? {
          if j > 0 {
            assert probes[j] == restProbes[j - 1];
          }
        }
      }
      assert markets[i + 1] == restMarkets[i] && probes[i + 1] == restProbes[i];
    }
  }

  /** Nothing is selected exactly when every market is turned away. */
  lemma {:induction false} NoneSelectedIffAllRejected(markets: seq<string>, probes: seq<Probe>, library: StochasticRsi.Library)
    requires |probes| == |markets|
    ensures Select(markets, probes, library) == NoneSelected
        <==> forall j :: 0 <= j < |markets| ==> Evaluate(probes[j], library).Rejected?
    decreases |markets|
  {
    if markets != [] {
      NoneSelectedIffAllRejected(markets[1..], probes[1..], library);
      assert forall j :: 1 <= j < |markets| ==> probes[j] == probes[1..][j - 1];
    }
  }

  /** There is no `try` around a market's reads or its stochastic-RSI test: when every earlier
      market was turned away, a failed read, or an empty stochastic-RSI result on a market that
      reached that stage, ends the whole pass at that market instead of skipping it. */
  lemma ThrowAbortsPass(markets: seq<string>, probes: seq<Probe>, library: StochasticRsi.Library, i: nat)
    requires |probes| == |markets| && i < |markets|
    requires forall j :: 0 <= j < i ==> Evaluate(probes[j], library).Rejected?
    requires probes[i].FetchFailed?
             || (&& |probes[i].tickerData| > 0 && |probes[i].candleData| > 0
                 && Volume.FilterVolume(probes[i].tickerData, SelectorMinVolume)
                 && StochasticRsi.FilterStochasticRsi(probes[i].candleData, library).NoLatestValue?)
    ensures Select(markets, probes, library) == PassAborted(markets[i])
  {
    ThrewIffReadFailedOrNoLatest(probes[i], library);
    FirstDecisiveMarketDecides(markets, probes, library, i);
  }

  /** Short circuit: a market turned away for missing data or low volume never reaches the
      stochastic-RSI library, so its verdict is the same whatever the library computes. */
  lemma EarlyRejectionIgnoresLibrary(probe: Probe, library1: StochasticRsi.Library, library2: StochasticRsi.Library)
    requires Evaluate(probe, library1) == Rejected(NoData) || Evaluate(probe, library1) == Rejected(VolumeStage)
    ensures Evaluate(probe, library2) == Evaluate(probe, library1)
  {
  }

  // ----- checkVolume -----

  /** One fill of an order, and the `/order` lookup's list of fills. */
  datatype Trade = Trade(volume: real)
  datatype Order = Order(trades: seq<Trade>)

  /** The total volume of a list of fills. */
  function TotalVolume(trades: seq<Trade>): real
  {
    if trades == [] then 0.0 else TotalVolume(trades[..|trades| - 1]) + trades[|trades| - 1].volume
  }

  /** `checkVolume`: sums the volumes of the order's fills (0 when there are none). */
  method CheckVolume(order: Order) returns (volume: real)
    ensures volume == TotalVolume(order.trades)
    ensures order.trades == [] ==> volume == 0.0
  {
    volume := 0.0;
    for i := 0 to |order.trades|
      invariant volume == TotalVolume(order.trades[..i])
    {
      assert order.trades[..i + 1][..i] == order.trades[..i];
      volume := volume + order.trades[i].volume;
    }
    assert order.trades[..|order.trades|] == order.trades;
  }

  /** The total is additive over a split of the fills. */
  lemma {:induction false} TotalVolumeAppend(a: seq<Trade>, b: seq<Trade>)
    ensures TotalVolume(a + b) == TotalVolume(a) + TotalVolume(b)
    decreases |b|
  {
    if b == [] {
      assert a + b == a;
    } else {
      assert (a + b)[..|a + b| - 1] == a + b[..|b| - 1];
      TotalVolumeAppend(a, b[..|b| - 1]);
    }
  }

  /** Fills of non-negative volume add up to a non-negative total. */
  lemma {:induction false} TotalVolumeNonNegative(trades: seq<Trade>)
    requires forall i :: 0 <= i < |trades| ==> trades[i].volume >= 0.0
    ensures TotalVolume(trades) >= 0.0
  {
    if trades != [] {
      TotalVolumeNonNegative(trades[..|trades| - 1]);
    }
  }

  // ----- monitorAndSell -----

  /** One poll of the `/ticker` endpoint: the reply and the time read after it, or an exception. */
  datatype Tick = Quote(tickerData: seq<Ticker>, time: Timestamp) | RequestFailed

  /** Why the position was closed. */
  datatype ExitReason = TakeProfit | StopLoss

  /** The label written to the record: "익절" (take profit) or "손절" (stop loss). */
  function Label(reason: ExitReason): string
  {
    match reason
    case TakeProfit => "익절"
    case StopLoss => "손절"
  }

  /** `targetProfit` and `stopLoss`: the buy price scaled by the two ratios. */
  datatype Thresholds = Thresholds(targetProfit: real, stopLoss: real)

  function ThresholdsFor(buyPrice: real, profitRatio: real, lossRatio: real): Thresholds
  {
    Thresholds(buyPrice * profitRatio, buyPrice * lossRatio)
  }

  /** What one tick does: closes the position (with the fee-adjusted value of the holding and
      the tick's time), holds, or faults (the request threw or the reply had no ticker). */
  datatype TickVerdict = Fire(reason: ExitReason, value: real, time: Timestamp) | Hold | Fault

  /** The value of the holding at a tick's price, net of the selling fee. */
  function HoldingValue(tickerData: seq<Ticker>, volume: real): (value: real)
    requires |tickerData| > 0
    ensures value == tickerData[0].tradePrice * volume * (1.0 - FeeRate)
  {
    AdjustForFee(tickerData[0].tradePrice * volume, false)
  }

  /** One iteration of the monitor loop on a tick: fault on an exception, otherwise value the
      holding net of the fee and test the target first, then the stop. */
  function ClassifyTick(tick: Tick, volume: real, thresholds: Thresholds): (verdict: TickVerdict)
    ensures verdict.Fault? <==> tick.RequestFailed? || |tick.tickerData| == 0
    ensures verdict.Fire? ==>
      && verdict.time == tick.time
      && verdict.value == HoldingValue(tick.tickerData, volume)
      && (verdict.reason == TakeProfit <==> verdict.value >= thresholds.targetProfit)
      && (verdict.reason == StopLoss ==> verdict.value <= thresholds.stopLoss)
    ensures verdict.Hold? ==>
      thresholds.stopLoss < HoldingValue(tick.tickerData, volume) < thresholds.targetProfit
  {
    if tick.RequestFailed? || |tick.tickerData| == 0 then Fault
    else
      var value := HoldingValue(tick.tickerData, volume);
      if value >= thresholds.targetProfit then Fire(TakeProfit, value, tick.time)
      else if value <= thresholds.stopLoss then Fire(StopLoss, value, tick.time)
      else Hold
  }

  /** How a run of the monitor over a finite tick sequence ends: sold at tick `at`, or still
      holding when the ticks run out (the source would keep polling). */
  datatype MonitorOutcome = Sold(reason: ExitReason, sellPrice: real, sellTime: Timestamp, at: nat) | StillHolding

  /** The monitor from tick `from` on: the first tick that fires closes the position. */
  function Watch(ticks: seq<Tick>, volume: real, thresholds: Thresholds, from: nat): (outcome: MonitorOutcome)
    requires from <= |ticks|
    ensures outcome.Sold? ==> from <= outcome.at < |ticks|
    decreases |ticks| - from
  {
    if from == |ticks| then StillHolding
    else
      match ClassifyTick(ticks[from], volume, thresholds)
      case Fire(reason, value, time) => Sold(reason, value, time, from)
      case _ => Watch(ticks, volume, thresholds, from + 1)
  }

  /** The number of ticks that held (and so incremented `tryCount`). */
  function Holds(ticks: seq<Tick>, volume: real, thresholds: Thresholds): nat
  {
    if ticks == [] then 0
    else Holds(ticks[..|ticks| - 1], volume, thresholds)
         + (if ClassifyTick(ticks[|ticks| - 1], volume, thresholds).Hold? then 1 else 0)
  }

  /** The number of ticks that faulted (and so sent a sell order without closing). */
  function Faults(ticks: seq<Tick>, volume: real, thresholds: Thresholds): nat
  {
    if ticks == [] then 0
    else Faults(ticks[..|ticks| - 1], volume, thresholds)
         + (if ClassifyTick(ticks[|ticks| - 1], volume, thresholds).Fault? then 1 else 0)
  }

  /** The monitor closes at the first tick that fires, with that tick's reason, value and time;
      it is still holding only if no tick fires. */
  lemma {:induction false} WatchStopsAtFirstFire(ticks: seq<Tick>, volume: real, thresholds: Thresholds, from: nat)
    requires from <= |ticks|
    ensures var outcome := Watch(ticks, volume, thresholds, from);
      && (outcome.Sold? ==>
            && from <= outcome.at < |ticks|
            && ClassifyTick(ticks[outcome.at], volume, thresholds)
               == Fire(outcome.reason, outcome.sellPrice, outcome.sellTime)
            && forall j :: from <= j < outcome.at ==> !ClassifyTick(ticks[j], volume, thresholds).Fire?)
      && (outcome.StillHolding? <==>
            forall j :: from <= j < |ticks| ==> !ClassifyTick(ticks[j], volume, thresholds).Fire?)
    decreases |ticks| - from
  {
    if from < |ticks| {
      WatchStopsAtFirstFire(ticks, volume, thresholds, from + 1);
    }
  }

  /** The target is tested first: a tick whose value meets both thresholds takes profit, and a
      stop-loss exit happens only below the target. */
  lemma TargetBeforeStop(tick: Tick, volume: real, thresholds: Thresholds)
    ensures match ClassifyTick(tick, volume, thresholds)
      case Fire(TakeProfit, value, _) => value >= thresholds.targetProfit
      case Fire(StopLoss, value, _) => thresholds.stopLoss >= value && value < thresholds.targetProfit
      case Hold => tick.Quote? && |tick.tickerData| > 0
      case Fault => tick.RequestFailed? || |tick.tickerData| == 0
  {
  }

  /** With a buy price of 100, ratios 1.005 and 0.997 and one unit held, prices 100, 101, 99
      hold on the first tick (99.95 after the fee) and take profit on the second (100.9495),
      never reaching the third. */
  lemma TakeProfitExample(t0: Timestamp, t1: Timestamp, t2: Timestamp)
    ensures var ticks := [Quote([Ticker(100.0, 0.0)], t0), Quote([Ticker(101.0, 0.0)], t1),
                          Quote([Ticker(99.0, 0.0)], t2)];
      Watch(ticks, 1.0, ThresholdsFor(100.0, 1.005, 0.997), 0) == Sold(TakeProfit, 100.9495, t1, 1)
  {
  }

  // ----- the module-level state and one cycle of main -----

  /** One cell of the spreadsheet row being assembled. */
  datatype Cell = Text(text: string) | Time(time: Timestamp) | Amount(amount: real)

  /** The buy order's reply: its uuid and the time read after it, or the error `buyMarketOrder`
      swallows (it then returns `undefined`). */
  datatype BuyReply = BuyFilled(uuid: string, buyTime: Timestamp) | BuyFailed

  /** How one cycle of `main` ends. `CycleAborted` is an exception escaping `main`, which ends the
      process; `StillMonitoring` means the ticks ran out before an exit fired. */
  datatype CycleResult =
    | CycleAborted
    | NoCandidate
    | StillMonitoring(market: string)
    | Completed(market: string, record: seq<Cell>)

  /** The bot's process-wide state: the capital to trade (`seed`) and the row being assembled
      for the spreadsheet (`spreadAppendData`), with the two ratios read at start-up. */
  class TradingBot {
    var seed: real
    var spreadAppendData: seq<Cell>
    const profitRatio: real
    const lossRatio: real

    /** Between cycles no row is being assembled. */
    predicate Idle()
      reads this
    {
      spreadAppendData == []
    }

    constructor (initialSeed: real, profitRatio: real, lossRatio: real)
      ensures seed == initialSeed && this.profitRatio == profitRatio && this.lossRatio == lossRatio
      ensures Idle()
    {
      seed := initialSeed;
      spreadAppendData := [];
      this.profitRatio := profitRatio;
      this.lossRatio := lossRatio;
    }

    /** `buyMarketOrder`: submits a market buy for `amount` plus the fee; on success appends the
      buy time to the row and returns the order's uuid, on failure returns nothing. */
    method BuyMarketOrder(market: string, amount: real, reply: BuyReply)
      returns (uuid: Option<string>, submittedPrice: real)
      modifies this`spreadAppendData
      ensures submittedPrice == AdjustForFee(amount, true)
      ensures reply.BuyFilled? ==>
        uuid == Some(reply.uuid) && spreadAppendData == old(spreadAppendData) + [Time(reply.buyTime)]
      ensures reply.BuyFailed? ==> uuid == None && spreadAppendData == old(spreadAppendData)
    {
      submittedPrice := AdjustForFee(amount, true);
      if reply.BuyFailed? {
        return None, submittedPrice;
      }
      spreadAppendData := spreadAppendData + [Time(reply.buyTime)];
      uuid := Some(reply.uuid);
    }

    /** `monitorAndSell`: polls the ticks in order. A tick that faults sends a sell order and
      polls on; a tick that holds increments `tryCount`; the first tick that fires sends a sell
      order, completes the row with the sell time, the fee-adjusted buy price, the sell price and
      the label, hands the row to the spreadsheet (`record`) and clears it. */
    method MonitorAndSell(market: string, buyPrice: real, volume: real, ticks: seq<Tick>)
      returns (outcome: MonitorOutcome, tryCount: nat, sellOrders: nat, record: seq<Cell>)
      modifies this`spreadAppendData
      ensures outcome == Watch(ticks, volume, ThresholdsFor(buyPrice, profitRatio, lossRatio), 0)
      ensures outcome.Sold? ==>
        var thresholds := ThresholdsFor(buyPrice, profitRatio, lossRatio);
        && outcome.at < |ticks|
        && tryCount == Holds(ticks[..outcome.at], volume, thresholds)
        && sellOrders == Faults(ticks[..outcome.at], volume, thresholds) + 1
        && record == old(spreadAppendData)
             + [Time(outcome.sellTime), Amount(AdjustForFee(buyPrice, true)),
                Amount(outcome.sellPrice), Text(Label(outcome.reason))]
        && spreadAppendData == []
      ensures outcome.StillHolding? ==>
        var thresholds := ThresholdsFor(buyPrice, profitRatio, lossRatio);
        && tryCount == Holds(ticks, volume, thresholds)
        && sellOrders == Faults(ticks, volume, thresholds)
        && record == [] && spreadAppendData == old(spreadAppendData)
    {
      var thresholds := ThresholdsFor(buyPrice, profitRatio, lossRatio);
      var targetProfit := thresholds.targetProfit;
      var stopLoss := thresholds.stopLoss;
      var adjustedBuyPrice := AdjustForFee(buyPrice, true);
      tryCount, sellOrders := 0, 0;
      outcome := StillHolding;
      var i := 0;
      while i < |ticks|
        invariant i <= |ticks|
        invariant outcome == StillHolding
        invariant Watch(ticks, volume, thresholds, 0) == Watch(ticks, volume, thresholds, i)
        invariant tryCount == Holds(ticks[..i], volume, thresholds)
        invariant sellOrders == Faults(ticks[..i], volume, thresholds)
        invariant spreadAppendData == old(spreadAppendData)
      {
        assert ticks[..i + 1][..i] == ticks[..i];
        var tick := ticks[i];
        if tick.RequestFailed? || |tick.tickerData| == 0 {
          // the request, or `tickerData[0].trade_price`, threw: sell as a safety action, poll on
          sellOrders := sellOrders + 1;
        } else {
          var currentPrice := tick.tickerData[0].tradePrice * volume;
          var adjustedCurrentPrice := AdjustForFee(currentPrice, false);
          var sellTime := tick.time;
          if adjustedCurrentPrice >= targetProfit {
            sellOrders := sellOrders + 1;
            spreadAppendData := spreadAppendData + [Time(sellTime), Amount(adjustedBuyPrice)];
            outcome := Sold(TakeProfit, adjustedCurrentPrice, sellTime, i);
            break;
          }
          if adjustedCurrentPrice <= stopLoss {
            sellOrders := sellOrders + 1;
            spreadAppendData := spreadAppendData + [Time(sellTime), Amount(adjustedBuyPrice)];
            outcome := Sold(StopLoss, adjustedCurrentPrice, sellTime, i);
            break;
          }
          tryCount := tryCount + 1;
        }
        i := i + 1;
      }
      if outcome.StillHolding? {
        assert ticks[..i] == ticks;
        record := [];
        return;
      }
      spreadAppendData := spreadAppendData + [Amount(outcome.sellPrice), Text(Label(outcome.reason))];
      record := spreadAppendData;
      spreadAppendData := [];
    }

    /** One cycle of `main`: list the KRW markets, run the selection pass, and if a market is
      selected record it, buy it with the whole seed (`buyAmount` is what the order is for, the
      seed plus the fee), read the filled volume, monitor the position (`sellOrders` sell orders
      are sent), and set the seed to the sell price rounded down. */
    method RunCycle(response: Option<seq<MarketInfo>>, probes: seq<Probe>, library: StochasticRsi.Library,
                    reply: BuyReply, order: Option<Order>, ticks: seq<Tick>)
      returns (result: CycleResult, buyAmount: Option<real>, sellOrders: nat)
      requires |probes| == |GetAllMarkets(response)|
      modifies this`seed, this`spreadAppendData
      ensures var selection := Select(GetAllMarkets(response), probes, library);
        && (selection.Selected? ==> buyAmount == Some(AdjustForFee(old(seed), true)))
        && (!selection.Selected? ==> buyAmount == None && sellOrders == 0)
        && (selection.Selected? && (reply.BuyFailed? || order.None?) ==> sellOrders == 0)
        && (selection.PassAborted? ==>
              result == CycleAborted && seed == old(seed) && spreadAppendData == old(spreadAppendData))
        && (selection.NoneSelected? ==>
              result == NoCandidate && seed == old(seed) && spreadAppendData == old(spreadAppendData))
        && (selection.Selected? && reply.BuyFailed? ==>
              result == CycleAborted && seed == old(seed)
              && spreadAppendData == old(spreadAppendData) + [Text(selection.market)])
        && (selection.Selected? && reply.BuyFilled? && order.None? ==>
              result == CycleAborted && seed == old(seed)
              && spreadAppendData == old(spreadAppendData) + [Text(selection.market), Time(reply.buyTime)])
      ensures var selection := Select(GetAllMarkets(response), probes, library);
        selection.Selected? && reply.BuyFilled? && order.Some? ==>
          var volume := TotalVolume(order.value.trades);
          var thresholds := ThresholdsFor(old(seed), profitRatio, lossRatio);
          var outcome := Watch(ticks, volume, thresholds, 0);
          && (outcome.StillHolding? ==>
                result == StillMonitoring(selection.market) && seed == old(seed)
                && sellOrders == Faults(ticks, volume, thresholds)
                && spreadAppendData == old(spreadAppendData) + [Text(selection.market), Time(reply.buyTime)])
          && (outcome.Sold? ==>
                && result == Completed(selection.market,
                     old(spreadAppendData)
                     + [Text(selection.market), Time(reply.buyTime), Time(outcome.sellTime),
                        Amount(AdjustForFee(old(seed), true)), Amount(outcome.sellPrice),
                        Text(Label(outcome.reason))])
                && outcome.at < |ticks|
                && sellOrders == Faults(ticks[..outcome.at], volume, thresholds) + 1
                && seed == outcome.sellPrice.Floor as real
                && Idle())
    {
      var markets := GetAllMarkets(response);
      var selection := FilterMarket(markets, probes, library);
      buyAmount, sellOrders := None, 0;
      if selection.PassAborted? {
        return CycleAborted, buyAmount, sellOrders;
      }
      if selection.NoneSelected? {
        return NoCandidate, buyAmount, sellOrders;
      }
      var market := selection.market;
      spreadAppendData := spreadAppendData + [Text(market)];
      var boughtMarket, submittedPrice := BuyMarketOrder(market, seed, reply);
      buyAmount := Some(submittedPrice);
      if boughtMarket.None? {
        // `boughtMarket.uuid` on `undefined` throws
        return CycleAborted, buyAmount, sellOrders;
      }
      if order.None? {
        // the order lookup threw after its retries
        return CycleAborted, buyAmount, sellOrders;
      }
      var myMarketVolume := CheckVolume(order.value);
      var outcome, _, sells, record := MonitorAndSell(market, seed, myMarketVolume, ticks);
      sellOrders := sells;
      if outcome.StillHolding? {
        return StillMonitoring(market), buyAmount, sellOrders;
      }
      seed := outcome.sellPrice.Floor as real;
      result := Completed(market, record);
    }
  }
}
