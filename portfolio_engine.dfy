/**
 * The valuation of the user's own (manual) portfolio (backend/portfolio_engine.py):
 * one summary row per holding at its live price, the holdings' total market value,
 * and the net worth including the cash balance.
 */
module Portfolio {
  import opened Wrappers
  import opened Seqs
  import opened Models

  /** One row of the holdings summary. */
  datatype SummaryRow = SummaryRow(
    symbol: string, quantity: int, avgCost: real, currentPrice: real,
    marketValue: real, pnl: real, strategy: string)

  datatype PortfolioSummary = PortfolioSummary(
    totalValue: real, cashBalance: real, holdingsValue: real, holdings: seq<SummaryRow>)

  /** A holding's value at the quoted price. */
  function ValueAt(quotes: map<string, real>): PortfolioItem -> real {
    (it: PortfolioItem) => it.quantity as real * Quote(quotes, it.symbol)
  }

  /** What was paid for a holding. */
  function PaidFor(it: PortfolioItem): real {
    it.quantity as real * it.avgCost
  }

  /**
   * The summary row of one holding priced at `price`: the holding's own columns, its
   * value at that price and its gain over what was paid for it.
   */
  function RowOf(it: PortfolioItem, price: real): (row: SummaryRow)
    ensures row.symbol == it.symbol && row.quantity == it.quantity && row.avgCost == it.avgCost
    ensures row.strategy == it.strategyTag && row.currentPrice == price
    ensures row.marketValue == it.quantity as real * price
    ensures row.pnl == row.marketValue - PaidFor(it)
  {
    var marketValue := it.quantity as real * price;
    SummaryRow(it.symbol, it.quantity, it.avgCost, price, marketValue,
               marketValue - it.quantity as real * it.avgCost, it.strategyTag)
  }

  /**
   * The holdings summary of `items` valued at `quotes`, with `cash` as the cash balance.
   * The rows follow the items one for one and in order; the summary's totals add up.
   */
  method Summarize(items: seq<PortfolioItem>, cash: real, quotes: map<string, real>)
    returns (s: PortfolioSummary)
    ensures |s.holdings| == |items|
    ensures forall k :: 0 <= k < |items| ==> s.holdings[k] == RowOf(items[k], Quote(quotes, items[k].symbol))
    ensures s.cashBalance == cash
    ensures s.holdingsValue == Sum(items, ValueAt(quotes))
    ensures s.totalValue == cash + s.holdingsValue
    ensures |items| == 0 ==> s.holdingsValue == 0.0 && s.totalValue == cash
  {
    var holdingsValue := 0.0;
    var rows: seq<SummaryRow> := [];
    for i := 0 to |items|
      invariant |rows| == i
      invariant forall k :: 0 <= k < i ==> rows[k] == RowOf(items[k], Quote(quotes, items[k].symbol))
      invariant holdingsValue == Sum(items[..i], ValueAt(quotes))
    {
      var item := items[i];
      var price := Quote(quotes, item.symbol);
      var row := RowOf(item, price);
      SumPrefixStep(items, i, ValueAt(quotes));
      holdingsValue := holdingsValue + row.marketValue;
      rows := rows + [row];
    }
    assert items[..|items|] == items;
    s := PortfolioSummary(cash + holdingsValue, cash, holdingsValue, rows);
  }

  function PnlOf(row: SummaryRow): real {
    row.pnl
  }

  /** The rows' profit and loss adds up to the holdings' value less what was paid for them. */
  lemma {:induction false} RowsPnlIsGain(items: seq<PortfolioItem>, quotes: map<string, real>,
                                         rows: seq<SummaryRow>)
    requires |rows| == |items|
    requires forall k :: 0 <= k < |items| ==> rows[k] == RowOf(items[k], Quote(quotes, items[k].symbol))
    ensures Sum(rows, PnlOf) == Sum(items, ValueAt(quotes)) - Sum(items, PaidFor)
  {
    if |items| > 0 {
      RowsPnlIsGain(items[1..], quotes, rows[1..]);
      assert PnlOf(rows[0]) == ValueAt(quotes)(items[0]) - PaidFor(items[0]);
    }
  }

  /**
   * `get_portfolio_summary`: creates the default settings row when there is none and
   * summarises the holdings against that row's cash balance. Only the settings table
   * can change, and only from absent to the default row.
   */
  method GetPortfolioSummary(db: Database, quotes: map<string, real>) returns (s: PortfolioSummary)
    modifies db
    ensures db.settings == Some(RowOrDefault(old(db.settings)))
    ensures db.items == old(db.items) && db.transactions == old(db.transactions)
    ensures db.aiItems == old(db.aiItems) && db.aiHistory == old(db.aiHistory)
    ensures db.aiNotifications == old(db.aiNotifications) && db.alerts == old(db.alerts)
    ensures |s.holdings| == |db.items|
    ensures forall k :: 0 <= k < |db.items| ==>
      s.holdings[k] == RowOf(db.items[k], Quote(quotes, db.items[k].symbol))
    ensures s.cashBalance == db.settings.value.cashBalance
    ensures s.holdingsValue == Sum(db.items, ValueAt(quotes))
    ensures s.totalValue == s.cashBalance + s.holdingsValue
  {
    if db.settings.None? {
      db.settings := Some(DefaultSettings);
    }
    s := Summarize(db.items, db.settings.value.cashBalance, quotes);
  }
}
