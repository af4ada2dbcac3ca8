/**
 * Rule-based suggestions for the manual portfolio (backend/strategy_engine.py): the
 * dollar-cost-averaging rule, the fixed long-term advice and the short-term signal with
 * its entry zone and stop loss. The live price of the symbol is a parameter.
 */
module Strategy {
  import opened Models

  const DcaStrategy := "DCA"
  const ForeverStrategy := "FOREVER"
  const TradingStrategy := "TRADING"
  const Neutral := "NEUTRAL"
  const ForeverAdviceText := "Hold for long term. Check quarterly."

  /** A DCA plan; the reason text is formatted from `price` and `avgCost`. */
  datatype DcaPlan = DcaPlan(symbol: string, strategy: string, action: string, price: real, avgCost: real)

  datatype Advice = Advice(symbol: string, strategy: string, advice: string)

  /** A short-term signal; the entry zone is reported as the text "entryLow-entryHigh". */
  datatype TradingSignal = TradingSignal(
    symbol: string, strategy: string, signal: string, entryLow: real, entryHigh: real, stopLoss: real)

  /** `generate_dca_plan`: buy more exactly when the price is below the average cost, otherwise hold. */
  function GenerateDcaPlan(item: PortfolioItem, price: real): (plan: DcaPlan)
    ensures plan.symbol == item.symbol && plan.strategy == DcaStrategy
    ensures plan.action == BUY <==> price < item.avgCost
    ensures plan.action == HOLD <==> price >= item.avgCost
    ensures plan.price == price && plan.avgCost == item.avgCost
  {
    var action := if price < item.avgCost then BUY else HOLD;
    DcaPlan(item.symbol, DcaStrategy, action, price, item.avgCost)
  }

  /** `generate_forever_advice`: the same advice for every holding, naming its symbol. */
  function GenerateForeverAdvice(item: PortfolioItem): (a: Advice)
    ensures a.symbol == item.symbol && a.strategy == ForeverStrategy && a.advice == ForeverAdviceText
  {
    Advice(item.symbol, ForeverStrategy, ForeverAdviceText)
  }

  /** The advice depends on nothing but the symbol: quantity, cost and tag play no part. */
  lemma ForeverAdviceIgnoresHolding(a: PortfolioItem, b: PortfolioItem)
    requires a.symbol == b.symbol
    ensures GenerateForeverAdvice(a) == GenerateForeverAdvice(b)
  {
  }

  /**
   * `generate_trading_signal`: always neutral; the entry zone runs from 98% to 99% of the
   * price and the stop loss sits at 95% of it, so for a non-negative price the stop lies
   * below the zone and the zone below the price. A failed price fetch (0) gives all zeros.
   */
  function GenerateTradingSignal(symbol: string, price: real): (s: TradingSignal)
    ensures s.symbol == symbol && s.strategy == TradingStrategy && s.signal == Neutral
    ensures s.stopLoss == 0.95 * price
    ensures s.entryLow == 0.98 * price && s.entryHigh == 0.99 * price
    ensures price >= 0.0 ==> s.stopLoss <= s.entryLow <= s.entryHigh <= price
    ensures price > 0.0 ==> s.stopLoss < s.entryLow < s.entryHigh < price
    ensures price == 0.0 ==> s.stopLoss == 0.0 && s.entryLow == 0.0 && s.entryHigh == 0.0
  {
    TradingSignal(symbol, TradingStrategy, Neutral, price * 0.98, price * 0.99, price * 0.95)
  }
}
