/**
 * The pre-trade risk validator (backend/risk_engine.py). An engine holds a snapshot of
 * the manual holdings and the portfolio's total value; checking a trade only reads them.
 */
module Risk {
  import opened Wrappers
  import opened Models

  /** The largest share of the total one symbol may reach after the trade. */
  const MaxStockAllocation := 0.15
  /** Declared by the engine but consulted by no check. */
  const MaxSectorAllocation := 0.40
  /** Declared by the engine but consulted by no check. */
  const MaxLossPerTrade := 0.02
  /** The largest share of the total a single trade may have. */
  const MaxTradeShare := 0.10

  /** Why a trade was allowed or refused; a refusal reports the offending share in percent. */
  datatype Reason =
    | WithinLimits
    | ZeroTotal
    | ExceedsAllocation(percent: real)
    | TradeTooLarge(percent: real)

  datatype Verdict = Verdict(allowed: bool, reason: Reason)

  /** For a positive divisor, a quotient exceeds a bound exactly when the dividend exceeds the scaled bound. */
  lemma QuotientExceeds(x: real, total: real, bound: real)
    requires total > 0.0
    ensures x / total > bound <==> x > bound * total
  {
    assert x / total * total == x;
    if x / total > bound {
      assert x / total * total > bound * total;
    } else {
      assert x / total * total <= bound * total;
    }
  }

  datatype RiskEngine = RiskEngine(items: seq<PortfolioItem>, totalValue: real) {

    /** What the first holding of `symbol` cost (quantity times average cost), or 0 when there is none. */
    function CurrentValue(symbol: string): (v: real)
      ensures FindItem(items, symbol).None? ==> v == 0.0
      ensures FindItem(items, symbol).Some? ==>
        exists k :: 0 <= k < |items| && items[k].symbol == symbol && v == items[k].quantity as real * items[k].avgCost
    {
      match FindItem(items, symbol)
      case None => 0.0
      case Some(k) => items[k].quantity as real * items[k].avgCost
    }

    /**
     * `check_trade`: refuses when the total is not positive, then when the symbol's value
     * after the trade would exceed 15% of the total, then when the trade alone would exceed
     * 10% of the total; otherwise allows it.
     */
    function CheckTrade(symbol: string, quantity: int, price: real): (v: Verdict)
      ensures var current, trade := CurrentValue(symbol), quantity as real * price;
        v.allowed <==>
          totalValue > 0.0 && current + trade <= MaxStockAllocation * totalValue &&
          trade <= MaxTradeShare * totalValue
      ensures v.allowed <==> v.reason == WithinLimits
      ensures totalValue <= 0.0 ==> v == Verdict(false, ZeroTotal)
      ensures var current, trade := CurrentValue(symbol), quantity as real * price;
        totalValue > 0.0 && current + trade > MaxStockAllocation * totalValue ==>
          v.reason.ExceedsAllocation? && v.reason.percent * totalValue == (current + trade) * 100.0
      ensures var current, trade := CurrentValue(symbol), quantity as real * price;
        totalValue > 0.0 && current + trade <= MaxStockAllocation * totalValue &&
        trade > MaxTradeShare * totalValue ==>
          v.reason.TradeTooLarge? && v.reason.percent * totalValue == trade * 100.0
    {
      var trade := quantity as real * price;
      var newStockValue := CurrentValue(symbol) + trade;
      if totalValue <= 0.0 then Verdict(false, ZeroTotal)
      else
        QuotientExceeds(newStockValue, totalValue, MaxStockAllocation);
        QuotientExceeds(trade, totalValue, MaxTradeShare);
        assert newStockValue / totalValue * totalValue == newStockValue;
        assert trade / totalValue * totalValue == trade;
        if newStockValue / totalValue > MaxStockAllocation then
          Verdict(false, ExceedsAllocation(newStockValue / totalValue * 100.0))
        else if trade / totalValue > MaxTradeShare then
          Verdict(false, TradeTooLarge(trade / totalValue * 100.0))
        else Verdict(true, WithinLimits)
    }
  }

  /** A smaller purchase of the same symbol at the same price passes whenever a larger one does. */
  lemma SmallerTradeAllowed(engine: RiskEngine, symbol: string, quantity: int, smaller: int, price: real)
    requires 0 <= smaller <= quantity && price >= 0.0
    requires engine.CheckTrade(symbol, quantity, price).allowed
    ensures engine.CheckTrade(symbol, smaller, price).allowed
  {
    assert smaller as real * price <= quantity as real * price by {
      assert (quantity - smaller) as real * price >= 0.0;
    }
  }

  /** With a positive total, a symbol already at or above 15% of it cannot be bought further. */
  lemma FullPositionBlocksBuys(engine: RiskEngine, symbol: string, quantity: int, price: real)
    requires engine.totalValue > 0.0
    requires engine.CurrentValue(symbol) >= MaxStockAllocation * engine.totalValue
    requires quantity > 0 && price > 0.0
    ensures !engine.CheckTrade(symbol, quantity, price).allowed
    ensures engine.CheckTrade(symbol, quantity, price).reason.ExceedsAllocation?
  {
    assert quantity as real * price > 0.0;
  }
}
