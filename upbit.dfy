/** The fields of the exchange's JSON responses that the trading logic reads. */
module Upbit {

  import opened Sequences

  /** One candle of the `/candles` endpoint (`opening_price`, `high_price`, `low_price`,
      `trade_price`). The endpoint returns candles newest first. */
  datatype Candle = Candle(openingPrice: real, highPrice: real, lowPrice: real, tradePrice: real)

  /** One element of the `/ticker` endpoint (`trade_price`, `acc_trade_price_24h`). */
  datatype Ticker = Ticker(tradePrice: real, accTradePrice24h: real)

  /** `data.map((candle) => candle.trade_price).reverse()`: the closes of a newest-first
      candle list, oldest first, on a fresh sequence. */
  function ChronologicalCloses(data: seq<Candle>): (closes: seq<real>)
    ensures |closes| == |data|
    ensures forall i :: 0 <= i < |data| ==> closes[i] == data[|data| - 1 - i].tradePrice
  {
    Reverse(seq(|data|, i requires 0 <= i < |data| => data[i].tradePrice))
  }
}
