/** The exchange's trading fee (util.js). */
module Util {

  /** The fixed fee rate, 0.05%. */
  const FeeRate: real := 0.0005

  /** `calculateFee`: the fee charged on `amount`, a small positive fraction of a positive
      amount and nothing on a zero amount. */
  function CalculateFee(amount: real): (fee: real)
    ensures amount > 0.0 ==> 0.0 < fee < amount
    ensures amount == 0.0 ==> fee == 0.0
    ensures amount < 0.0 ==> amount < fee < 0.0
  {
    amount * FeeRate
  }

  /** `adjustForFee`: on a buy the fee is added to the amount, on a sell (or when valuing
      a holding) it is subtracted. `isBuy` defaults to a buy, as in the source. */
  function AdjustForFee(amount: real, isBuy: bool := true): (adjusted: real)
    ensures isBuy ==> adjusted == amount * (1.0 + FeeRate)
    ensures !isBuy ==> adjusted == amount * (1.0 - FeeRate)
  {
    var fee := CalculateFee(amount);
    if isBuy then amount + fee else amount - fee
  }

  /** Called without `isBuy`, the adjustment is the buy adjustment. */
  lemma DefaultIsBuy(amount: real)
    ensures AdjustForFee(amount) == AdjustForFee(amount, true)
  {
  }

  /** Buy and sell use the one fee: the buy adds exactly what the sell takes away. */
  lemma BuyAndSellShareOneFee(amount: real)
    ensures AdjustForFee(amount, true) - amount == CalculateFee(amount)
    ensures amount - AdjustForFee(amount, false) == CalculateFee(amount)
    ensures AdjustForFee(amount, true) - AdjustForFee(amount, false) == 2.0 * CalculateFee(amount)
  {
  }

  /** For a non-negative amount the sell value is below and the buy cost above the amount,
      and either equals it only for a zero amount. */
  lemma AdjustBrackets(amount: real)
    requires amount >= 0.0
    ensures AdjustForFee(amount, false) <= amount <= AdjustForFee(amount, true)
    ensures AdjustForFee(amount, false) == amount <==> amount == 0.0
    ensures AdjustForFee(amount, true) == amount <==> amount == 0.0
  {
  }

  /** Buying and then selling the same value is not a round trip: the fee is paid twice. */
  lemma BuyThenSellLoses(amount: real)
    ensures AdjustForFee(AdjustForFee(amount, true), false) == amount * (1.0 - FeeRate * FeeRate)
    ensures amount > 0.0 ==> AdjustForFee(AdjustForFee(amount, true), false) < amount
  {
  }

  /** Both adjustments are strictly increasing in the amount. */
  lemma AdjustStrictlyIncreasing(a: real, b: real, isBuy: bool)
    requires a < b
    ensures AdjustForFee(a, isBuy) < AdjustForFee(b, isBuy)
  {
  }
}
