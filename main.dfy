/**
 * The HTTP endpoints of the backend (backend/main.py) that change or value the books:
 * manual sell, cash deposit and withdrawal, the partial settings update, the AI portfolio
 * valuation, news analysis behind the trading-hours gate, and the new-day budget
 * injection. A request that fails with an HTTP error is rolled back, so it changes nothing.
 */
module Api {
  import opened Wrappers
  import opened Seqs
  import opened Models
  import opened Recalculate
  import TradingHours
  import Agent

  /** The HTTP error codes the modelled endpoints raise. */
  const NotFound := 404
  const BadRequest := 400
  const ServerError := 500

  // ---------------------------------------------------------------------------
  // Manual portfolio

  function ManualCostBasis(it: PortfolioItem): real {
    it.quantity as real * it.avgCost
  }

  function NotedPnl(t: Transaction): real {
    t.notedPnl
  }

  /**
   * Cash plus the cost of the manual holdings minus the P&L noted on transactions: the
   * capital put into the manual portfolio. A manual sell does not change it.
   */
  function ManualCapital(cash: real, items: seq<PortfolioItem>, transactions: seq<Transaction>): real {
    cash + Sum(items, ManualCostBasis) - Sum(transactions, NotedPnl)
  }

  /** The manual holdings after selling `quantity` of the row at index `i`. */
  function SellManual(items: seq<PortfolioItem>, i: nat, quantity: int): (r: seq<PortfolioItem>)
    requires i < |items|
    ensures Sum(r, ManualCostBasis) == Sum(items, ManualCostBasis) - quantity as real * items[i].avgCost
    ensures quantity == items[i].quantity ==> r == items[..i] + items[i + 1..]
    ensures quantity != items[i].quantity ==>
      r == items[i := items[i].(quantity := items[i].quantity - quantity)]
  {
    if items[i].quantity == quantity then
      SumRemove(items, i, ManualCostBasis);
      items[..i] + items[i + 1..]
    else
      var smaller := items[i].(quantity := items[i].quantity - quantity);
      SumUpdate(items, i, smaller, ManualCostBasis);
      items[i := smaller]
  }

  /**
   * `sell_portfolio_item`: 404 when no row holds the symbol and 400 when the first row
   * holding it has fewer shares than asked, both changing nothing. With no settings row
   * the row it creates is not flushed, so its cash balance is still unset and adding the
   * sale value to it fails with 500, again changing nothing. Otherwise the sale value is
   * added to the cash balance, a SELL transaction noting the P&L is recorded, and the row
   * is deleted when the whole quantity goes and reduced otherwise. The result is the new
   * cash balance.
   */
  method SellPortfolioItem(db: Database, symbol: string, quantity: int, price: real, now: Instant)
    returns (r: Result<real, int>)
    modifies db
    ensures r == Err(NotFound) <==> old(FindItem(db.items, symbol)).None?
    ensures r == Err(BadRequest) <==>
      old(FindItem(db.items, symbol)).Some? && old(db.items[FindItem(db.items, symbol).value].quantity) < quantity
    ensures r == Err(ServerError) <==>
      old(FindItem(db.items, symbol)).Some? && old(db.items[FindItem(db.items, symbol).value].quantity) >= quantity
      && old(db.settings).None?
    ensures r.Err? ==> unchanged(db)
    ensures r.Ok? ==>
      var i := old(FindItem(db.items, symbol)).value;
      var item := old(db.items)[i];
      && old(db.settings).Some?
      && db.settings == Some(old(db.settings).value.(cashBalance := old(db.settings).value.cashBalance + quantity as real * price))
      && r.value == db.settings.value.cashBalance
      && db.transactions == old(db.transactions) + [Transaction(symbol, SELL, quantity, price, now, Agent.SalePnl(item.avgCost, quantity, price))]
      && db.items == SellManual(old(db.items), i, quantity)
      && db.aiItems == old(db.aiItems) && db.aiHistory == old(db.aiHistory)
      && db.aiNotifications == old(db.aiNotifications) && db.alerts == old(db.alerts)
    ensures r.Ok? ==>
      ManualCapital(db.settings.value.cashBalance, db.items, db.transactions)
      == ManualCapital(old(db.settings).value.cashBalance, old(db.items), old(db.transactions))
  {
    var found := FindItem(db.items, symbol);
    if found.None? {
      return Err(NotFound);
    }
    var i := found.value;
    var item := db.items[i];
    if item.quantity < quantity {
      return Err(BadRequest);
    }
    if db.settings.None? {
      return Err(ServerError);
    }
    var row := db.settings.value;
    var sale := quantity as real * price;
    var record := Transaction(symbol, SELL, quantity, price, now, Agent.SalePnl(item.avgCost, quantity, price));
    SumSnoc(db.transactions, record, NotedPnl);
    db.settings := Some(row.(cashBalance := row.cashBalance + sale));
    db.transactions := db.transactions + [record];
    db.items := SellManual(db.items, i, quantity);
    r := Ok(db.settings.value.cashBalance);
  }

  // ---------------------------------------------------------------------------
  // Cash

  /**
   * The cash balance after a cash update: a DEPOSIT adds the amount, a WITHDRAW subtracts
   * it when the balance covers it and fails with 400 otherwise, any other type keeps it.
   */
  function CashAfter(balance: real, amount: real, kind: string): (r: Result<real, int>)
    ensures r.Err? <==> kind == WITHDRAW && balance < amount
    ensures r.Err? ==> r.error == BadRequest
    ensures kind == DEPOSIT ==> r == Ok(balance + amount)
    ensures kind == WITHDRAW && r.Ok? ==> r.value == balance - amount && r.value >= 0.0
    ensures kind != DEPOSIT && kind != WITHDRAW ==> r == Ok(balance)
  {
    if kind == DEPOSIT then Ok(balance + amount)
    else if kind == WITHDRAW then
      if balance >= amount then Ok(balance - amount) else Err(BadRequest)
    else Ok(balance)
  }

  /** Withdrawing what was just deposited restores a non-negative balance. */
  lemma DepositThenWithdraw(balance: real, amount: real)
    requires balance >= 0.0
    ensures CashAfter(balance, amount, DEPOSIT).Ok?
    ensures CashAfter(CashAfter(balance, amount, DEPOSIT).value, amount, WITHDRAW) == Ok(balance)
  {
  }

  /** A withdrawal never leaves the balance below zero, whatever it started at. */
  lemma WithdrawNeverOverdraws(balance: real, amount: real)
    ensures CashAfter(balance, amount, WITHDRAW).Ok? ==> CashAfter(balance, amount, WITHDRAW).value >= 0.0
    ensures amount >= 0.0 && CashAfter(balance, amount, WITHDRAW).Ok? ==>
      CashAfter(balance, amount, WITHDRAW).value <= balance
  {
  }

  /**
   * `update_cash`: the settings row gets the balance `CashAfter` computes; a refused
   * withdrawal is rolled back. With no settings row, a DEPOSIT or WITHDRAW reads the
   * unset balance of the unflushed new row and fails with 500, changing nothing; any
   * other type stores the new row with its default balance.
   */
  method UpdateCash(db: Database, amount: real, kind: string) returns (r: Result<real, int>)
    modifies db
    ensures old(db.settings).None? && (kind == DEPOSIT || kind == WITHDRAW) ==> r == Err(ServerError)
    ensures old(db.settings).Some? || (kind != DEPOSIT && kind != WITHDRAW) ==>
      r == CashAfter(RowOrDefault(old(db.settings)).cashBalance, amount, kind)
    ensures r.Err? ==> unchanged(db)
    ensures r.Ok? ==> db.settings == Some(RowOrDefault(old(db.settings)).(cashBalance := r.value))
    ensures db.items == old(db.items) && db.transactions == old(db.transactions)
    ensures db.aiItems == old(db.aiItems) && db.aiHistory == old(db.aiHistory)
    ensures db.aiNotifications == old(db.aiNotifications) && db.alerts == old(db.alerts)
  {
    if db.settings.None? && (kind == DEPOSIT || kind == WITHDRAW) {
      return Err(ServerError);
    }
    var row := RowOrDefault(db.settings);
    if kind == DEPOSIT {
      row := row.(cashBalance := row.cashBalance + amount);
    } else if kind == WITHDRAW {
      if row.cashBalance >= amount {
        row := row.(cashBalance := row.cashBalance - amount);
      } else {
        return Err(BadRequest);
      }
    }
    db.settings := Some(row);
    r := Ok(row.cashBalance);
  }

  // ---------------------------------------------------------------------------
  // Settings

  /** The body of POST /settings: every field optional. */
  datatype SettingsUpdate = SettingsUpdate(
    dailyTradeBudget: Option<real>, aiCashBalance: Option<real>, autonomousMode: Option<bool>,
    rolloverPercent: Option<real>, pollingInterval: Option<int>,
    tradingStartTime: Option<string>, tradingEndTime: Option<string>)

  const EmptyUpdate := SettingsUpdate(None, None, None, None, None, None, None)

  /** The row with every field the update supplies overwritten. */
  function ApplyUpdate(row: SettingsRow, u: SettingsUpdate): (r: SettingsRow)
    ensures r.cashBalance == row.cashBalance && r.initialAiCapital == row.initialAiCapital
    ensures r.lastRunDate == row.lastRunDate && r.unusedBudgetCarryover == row.unusedBudgetCarryover
    ensures u.dailyTradeBudget.Some? ==> r.dailyTradeBudget == u.dailyTradeBudget.value
    ensures u.dailyTradeBudget.None? ==> r.dailyTradeBudget == row.dailyTradeBudget
    ensures u.aiCashBalance.Some? ==> r.aiCashBalance == u.aiCashBalance.value
    ensures u.aiCashBalance.None? ==> r.aiCashBalance == row.aiCashBalance
    ensures u.autonomousMode.Some? ==> r.autonomousMode == u.autonomousMode.value
    ensures u.autonomousMode.None? ==> r.autonomousMode == row.autonomousMode
    ensures u.rolloverPercent.Some? ==> r.rolloverPercent == u.rolloverPercent.value
    ensures u.rolloverPercent.None? ==> r.rolloverPercent == row.rolloverPercent
    ensures u.pollingInterval.Some? ==> r.pollingInterval == u.pollingInterval.value
    ensures u.pollingInterval.None? ==> r.pollingInterval == row.pollingInterval
    ensures u.tradingStartTime.Some? ==> r.tradingStartTime == u.tradingStartTime
    ensures u.tradingStartTime.None? ==> r.tradingStartTime == row.tradingStartTime
    ensures u.tradingEndTime.Some? ==> r.tradingEndTime == u.tradingEndTime
    ensures u.tradingEndTime.None? ==> r.tradingEndTime == row.tradingEndTime
  {
    row.(
      dailyTradeBudget := u.dailyTradeBudget.GetOr(row.dailyTradeBudget),
      aiCashBalance := u.aiCashBalance.GetOr(row.aiCashBalance),
      autonomousMode := u.autonomousMode.GetOr(row.autonomousMode),
      rolloverPercent := u.rolloverPercent.GetOr(row.rolloverPercent),
      pollingInterval := u.pollingInterval.GetOr(row.pollingInterval),
      tradingStartTime := if u.tradingStartTime.Some? then u.tradingStartTime else row.tradingStartTime,
      tradingEndTime := if u.tradingEndTime.Some? then u.tradingEndTime else row.tradingEndTime)
  }

  /** Applying the same update twice is applying it once. */
  lemma ApplyUpdateIdempotent(row: SettingsRow, u: SettingsUpdate)
    ensures ApplyUpdate(ApplyUpdate(row, u), u) == ApplyUpdate(row, u)
  {
  }

  /** An update that supplies nothing leaves the row as it is. */
  lemma EmptyUpdateIsIdentity(row: SettingsRow)
    ensures ApplyUpdate(row, EmptyUpdate) == row
  {
  }

  /** `update_settings`: the settings row (created if missing) with the update applied. */
  method UpdateSettings(db: Database, u: SettingsUpdate) returns (r: SettingsRow)
    modifies db
    ensures r == ApplyUpdate(RowOrDefault(old(db.settings)), u) && db.settings == Some(r)
    ensures db.items == old(db.items) && db.transactions == old(db.transactions)
    ensures db.aiItems == old(db.aiItems) && db.aiHistory == old(db.aiHistory)
    ensures db.aiNotifications == old(db.aiNotifications) && db.alerts == old(db.alerts)
  {
    var row := RowOrDefault(db.settings);
    if u.dailyTradeBudget.Some? {
      row := row.(dailyTradeBudget := u.dailyTradeBudget.value);
    }
    if u.aiCashBalance.Some? {
      row := row.(aiCashBalance := u.aiCashBalance.value);
    }
    if u.autonomousMode.Some? {
      row := row.(autonomousMode := u.autonomousMode.value);
    }
    if u.rolloverPercent.Some? {
      row := row.(rolloverPercent := u.rolloverPercent.value);
    }
    if u.pollingInterval.Some? {
      row := row.(pollingInterval := u.pollingInterval.value);
    }
    if u.tradingStartTime.Some? {
      row := row.(tradingStartTime := u.tradingStartTime);
    }
    if u.tradingEndTime.Some? {
      row := row.(tradingEndTime := u.tradingEndTime);
    }
    db.settings := Some(row);
    r := row;
  }

  // ---------------------------------------------------------------------------
  // AI portfolio valuation (get_ai_portfolio_data)

  /** One holding as the valuation reports it. */
  datatype HoldingRow = HoldingRow(symbol: string, quantity: int, avgCost: real, currentPrice: real,
                                   marketValue: real, pnl: real, pnlPercent: real)

  datatype ValuationSummary = ValuationSummary(
    totalValue: real, holdingsValue: real, cashBalance: real, totalPnl: real,
    initialCapital: real, overallPnl: real, overallPnlPercent: real)

  function MarketValue(quotes: map<string, real>): AiPortfolioItem -> real {
    (it: AiPortfolioItem) => Quote(quotes, it.symbol) * it.quantity as real
  }

  function Unrealised(quotes: map<string, real>): AiPortfolioItem -> real {
    (it: AiPortfolioItem) => Quote(quotes, it.symbol) * it.quantity as real - it.totalCost
  }

  function DepositAmount(t: AiTradeRecord): real {
    if t.action == DEPOSIT then t.price else 0.0
  }

  /** What was put into the AI portfolio: the initial capital plus every deposit. */
  function Invested(row: SettingsRow, history: seq<AiTradeRecord>): real {
    row.initialAiCapital + Sum(history, DepositAmount)
  }

  /** `part` as a percentage of a positive `base`, scaled back by the base, is the part times 100. */
  lemma PercentOf(percent: real, part: real, base: real)
    requires base > 0.0 && percent == part / base * 100.0
    ensures percent * base == part * 100.0
  {
    assert part / base * base == part;
  }

  /** The row for one holding: value at the quote, P&L against total cost, P&L percent of cost. */
  function HoldingOf(it: AiPortfolioItem, price: real): (r: HoldingRow)
    ensures r.symbol == it.symbol && r.quantity == it.quantity && r.avgCost == it.avgCost
    ensures r.currentPrice == price && r.marketValue == price * it.quantity as real
    ensures r.pnl == r.marketValue - it.totalCost
    ensures it.totalCost > 0.0 ==> r.pnlPercent * it.totalCost == r.pnl * 100.0
    ensures it.totalCost <= 0.0 ==> r.pnlPercent == 0.0
    ensures Agent.ItemValid(it) ==> r.pnl == (price - it.avgCost) * it.quantity as real
  {
    var marketValue := price * it.quantity as real;
    var pnl := marketValue - it.totalCost;
    HoldingRow(it.symbol, it.quantity, it.avgCost, price, marketValue, pnl,
               if it.totalCost > 0.0 then pnl / it.totalCost * 100.0 else 0.0)
  }

  /**
   * The valuation of the AI portfolio at the given quotes: one row per holding in order;
   * holdings value and unrealised P&L summed over the holdings; net worth adds the AI cash
   * balance; overall P&L adds the realised P&L of the history; its percentage is of the
   * initial capital plus all deposits, and 0 when that is not positive.
   */
  method Valuation(items: seq<AiPortfolioItem>, row: SettingsRow, history: seq<AiTradeRecord>,
                   quotes: map<string, real>) returns (rows: seq<HoldingRow>, summary: ValuationSummary)
    ensures |rows| == |items|
    ensures forall k :: 0 <= k < |items| ==> rows[k] == HoldingOf(items[k], Quote(quotes, items[k].symbol))
    ensures summary.holdingsValue == Sum(items, MarketValue(quotes))
    ensures summary.totalPnl == Sum(items, Unrealised(quotes))
    ensures summary.cashBalance == row.aiCashBalance && summary.initialCapital == row.initialAiCapital
    ensures summary.totalValue == summary.holdingsValue + row.aiCashBalance
    ensures summary.overallPnl == Sum(history, Agent.RealisedPnl) + summary.totalPnl
    ensures var invested := Invested(row, history);
      && (invested > 0.0 ==> summary.overallPnlPercent * invested == summary.overallPnl * 100.0)
      && (invested <= 0.0 ==> summary.overallPnlPercent == 0.0)
  {
    var totalValue, totalPnl;
    rows, totalValue, totalPnl := HoldingRows(items, quotes);
    var realised := Sum(history, Agent.RealisedPnl);
    var overall := realised + totalPnl;
    var invested := Invested(row, history);
    var percent := if invested > 0.0 then overall / invested * 100.0 else 0.0;
    summary := ValuationSummary(totalValue + row.aiCashBalance, totalValue, row.aiCashBalance, totalPnl,
                                row.initialAiCapital, overall, percent);
    if invested > 0.0 {
      PercentOf(summary.overallPnlPercent, summary.overallPnl, invested);
    }
  }

  /** The per-holding loop of the valuation: one row per holding, and the two running totals. */
  method HoldingRows(items: seq<AiPortfolioItem>, quotes: map<string, real>)
    returns (rows: seq<HoldingRow>, totalValue: real, totalPnl: real)
    ensures |rows| == |items|
    ensures forall k :: 0 <= k < |items| ==> rows[k] == HoldingOf(items[k], Quote(quotes, items[k].symbol))
    ensures totalValue == Sum(items, MarketValue(quotes))
    ensures totalPnl == Sum(items, Unrealised(quotes))
  {
    rows := [];
    totalValue := 0.0;
    totalPnl := 0.0;
    for k := 0 to |items|
      invariant |rows| == k
      invariant forall j :: 0 <= j < k ==> rows[j] == HoldingOf(items[j], Quote(quotes, items[j].symbol))
      invariant totalValue == Sum(items[..k], MarketValue(quotes))
      invariant totalPnl == Sum(items[..k], Unrealised(quotes))
    {
      var h := HoldingOf(items[k], Quote(quotes, items[k].symbol));
      rows := rows + [h];
      SumPrefixStep(items, k, MarketValue(quotes));
      SumPrefixStep(items, k, Unrealised(quotes));
      totalValue := totalValue + h.marketValue;
      totalPnl := totalPnl + h.pnl;
    }
    assert items[..|items|] == items;
  }

  lemma {:induction false} SumDifference(items: seq<AiPortfolioItem>, quotes: map<string, real>)
    ensures Sum(items, Unrealised(quotes)) == Sum(items, MarketValue(quotes)) - Sum(items, Agent.CostBasis)
  {
    if |items| > 0 {
      SumDifference(items[1..], quotes);
    }
  }

  /**
   * The overall P&L the valuation reports is the net worth minus the capital put into the
   * AI portfolio (cash plus cost basis minus realised P&L), which no trade changes.
   */
  lemma OverallPnlIsGainOnCapital(items: seq<AiPortfolioItem>, row: SettingsRow,
                                  history: seq<AiTradeRecord>, quotes: map<string, real>)
    ensures Sum(history, Agent.RealisedPnl) + Sum(items, Unrealised(quotes))
         == (Sum(items, MarketValue(quotes)) + row.aiCashBalance)
            - Agent.ContributedCapital(row.aiCashBalance, items, history)
  {
    SumDifference(items, quotes);
  }

  /** At quotes equal to every holding's average cost, a well-formed portfolio shows no unrealised P&L. */
  lemma {:induction false} NoUnrealisedAtCost(items: seq<AiPortfolioItem>, quotes: map<string, real>)
    requires Agent.ItemsValid(items)
    requires forall k :: 0 <= k < |items| ==> Quote(quotes, items[k].symbol) == items[k].avgCost
    ensures Sum(items, Unrealised(quotes)) == 0.0
  {
    if |items| > 0 {
      assert Agent.ItemsValid(items[1..]) by {
        assert forall k :: 0 <= k < |items| - 1 ==> items[1..][k] == items[k + 1];
      }
      NoUnrealisedAtCost(items[1..], quotes);
      assert Agent.ItemValid(items[0]);
    }
  }

  /**
   * `get_ai_portfolio_data`: the settings row is created (and committed) when missing,
   * then the AI portfolio is valued at the quotes as `Valuation` values it; nothing else
   * changes. The overall P&L is also the gain on the capital put in.
   */
  method GetAiPortfolioData(db: Database, quotes: map<string, real>)
    returns (rows: seq<HoldingRow>, summary: ValuationSummary)
    modifies db
    ensures db.settings == Some(RowOrDefault(old(db.settings)))
    ensures db.items == old(db.items) && db.transactions == old(db.transactions)
    ensures db.aiItems == old(db.aiItems) && db.aiHistory == old(db.aiHistory)
    ensures db.aiNotifications == old(db.aiNotifications) && db.alerts == old(db.alerts)
    ensures |rows| == |db.aiItems|
    ensures forall k :: 0 <= k < |rows| ==> rows[k] == HoldingOf(db.aiItems[k], Quote(quotes, db.aiItems[k].symbol))
    ensures summary.holdingsValue == Sum(db.aiItems, MarketValue(quotes))
    ensures summary.totalPnl == Sum(db.aiItems, Unrealised(quotes))
    ensures summary.cashBalance == db.settings.value.aiCashBalance
    ensures summary.initialCapital == db.settings.value.initialAiCapital
    ensures summary.totalValue == Sum(db.aiItems, MarketValue(quotes)) + db.settings.value.aiCashBalance
    ensures summary.overallPnl == Sum(db.aiHistory, Agent.RealisedPnl) + summary.totalPnl
    ensures var invested := Invested(db.settings.value, db.aiHistory);
      && (invested > 0.0 ==> summary.overallPnlPercent * invested == summary.overallPnl * 100.0)
      && (invested <= 0.0 ==> summary.overallPnlPercent == 0.0)
    ensures summary.overallPnl == summary.totalValue
      - Agent.ContributedCapital(db.settings.value.aiCashBalance, db.aiItems, db.aiHistory)
  {
    var row := RowOrDefault(db.settings);
    db.settings := Some(row);
    rows, summary := Valuation(db.aiItems, row, db.aiHistory, quotes);
    OverallPnlIsGainOnCapital(db.aiItems, row, db.aiHistory, quotes);
  }

  // ---------------------------------------------------------------------------
  // News analysis (analyze_news)

  datatype NewsOutcome = Skipped | Analysed(alertsGenerated: nat)

  /**
   * `analyze_news` at wall-clock time `clock`: when a settings row exists and the clock is
   * outside its trading window nothing is stored; otherwise (no row means no gate) every
   * analysed signal is stored as an alert stamped `now`, in order.
   */
  method AnalyzeNews(db: Database, clock: string, signals: seq<NewsSignal>, now: Instant)
    returns (outcome: NewsOutcome)
    modifies db
    ensures old(db.settings).Some? &&
      !TradingHours.WithinHours(clock, old(db.settings).value.tradingStartTime, old(db.settings).value.tradingEndTime)
      ==> outcome == Skipped && unchanged(db)
    ensures outcome.Analysed? ==>
      && outcome.alertsGenerated == |signals|
      && |db.alerts| == |old(db.alerts)| + |signals| && db.alerts[..|old(db.alerts)|] == old(db.alerts)
      && forall k :: 0 <= k < |signals| ==>
           db.alerts[|old(db.alerts)| + k]
           == AiAlert(signals[k].symbol, signals[k].signal, signals[k].reason, signals[k].url, now)
    ensures outcome.Skipped? <==> (old(db.settings).Some? &&
      !TradingHours.WithinHours(clock, old(db.settings).value.tradingStartTime, old(db.settings).value.tradingEndTime))
    ensures db.settings == old(db.settings) && db.items == old(db.items) && db.transactions == old(db.transactions)
    ensures db.aiItems == old(db.aiItems) && db.aiHistory == old(db.aiHistory)
    ensures db.aiNotifications == old(db.aiNotifications)
  {
    if db.settings.Some? {
      var row := db.settings.value;
      if !TradingHours.WithinHours(clock, row.tradingStartTime, row.tradingEndTime) {
        return Skipped;
      }
    }
    var stored := db.alerts;
    for k := 0 to |signals|
      invariant |db.alerts| == |stored| + k && db.alerts[..|stored|] == stored
      invariant forall j :: 0 <= j < k ==>
        db.alerts[|stored| + j] == AiAlert(signals[j].symbol, signals[j].signal, signals[j].reason, signals[j].url, now)
      invariant db.settings == old(db.settings) && db.items == old(db.items) && db.transactions == old(db.transactions)
      invariant db.aiItems == old(db.aiItems) && db.aiHistory == old(db.aiHistory)
      invariant db.aiNotifications == old(db.aiNotifications)
    {
      var s := signals[k];
      db.alerts := db.alerts + [AiAlert(s.symbol, s.signal, s.reason, s.url, now)];
    }
    outcome := Analysed(|signals|);
  }

  // ---------------------------------------------------------------------------
  // New day (simulate_new_day)

  const NewDayTitle := "New Day: Budget Injected"
  const SystemKind := "SYSTEM"

  /** The mapped columns of `AITradeHistory`; its constructor accepts these keywords only. */
  const TradeHistoryColumns: set<string> := {"id", "symbol", "action", "quantity", "price", "pnl", "timestamp", "reason"}

  /** The keywords `simulate_new_day` passes when it builds the deposit record. */
  const DepositRecordKeywords: set<string> := {"symbol", "action", "quantity", "price", "total_value", "pnl", "reason"}

  /** The state a successful new day leaves: settings row, AI history and notifications. */
  datatype NewDayState = NewDayState(row: SettingsRow, history: seq<AiTradeRecord>, notes: seq<AiNotification>)

  /**
   * `simulate_new_day` as written: with no settings row, the unflushed new row's unset
   * balance and budget cannot be added; with one, the deposit record is built with a
   * `total_value` keyword that `AITradeHistory` has no column for, so the constructor
   * raises. Either way the request ends in a 500 and the session is rolled back.
   */
  function NewDayAsWritten(row: Option<SettingsRow>, history: seq<AiTradeRecord>, notes: seq<AiNotification>,
                           now: Instant): (r: Result<NewDayState, int>)
    ensures row.None? ==> r == Err(ServerError)
    ensures !(DepositRecordKeywords <= TradeHistoryColumns) ==> r == Err(ServerError)
  {
    if row.None? then Err(ServerError)
    else if DepositRecordKeywords <= TradeHistoryColumns then Ok(NewDay(row.value, history, notes, now))
    else Err(ServerError)
  }

  /** Whatever the state, the new-day endpoint as written injects nothing and fails. */
  lemma NewDayAsWrittenAlwaysFails(row: Option<SettingsRow>, history: seq<AiTradeRecord>,
                                   notes: seq<AiNotification>, now: Instant)
    ensures "total_value" in DepositRecordKeywords && "total_value" !in TradeHistoryColumns
    ensures NewDayAsWritten(row, history, notes, now) == Err(ServerError)
  {
    assert "total_value" in DepositRecordKeywords;
  }

  /**
   * `simulate_new_day` as intended: the daily trade budget is added to the AI cash
   * balance, a DEPOSIT of that amount (quantity 0, no P&L) is recorded, and a SYSTEM
   * notification reports the amount and the new balance.
   */
  function NewDay(before: SettingsRow, history: seq<AiTradeRecord>, notes: seq<AiNotification>,
                  now: Instant): (r: NewDayState)
    ensures r.row == before.(aiCashBalance := before.aiCashBalance + before.dailyTradeBudget)
      && |r.history| == |history| + 1 && r.history[..|history|] == history
      && r.history[|history|].action == DEPOSIT && r.history[|history|].price == before.dailyTradeBudget
      && r.history[|history|].pnl.None? && r.history[|history|].quantity == 0
      && r.notes == notes + [AiNotification(NewDayTitle, BudgetInjected(before.dailyTradeBudget, r.row.aiCashBalance), SystemKind, now)]
  {
    var budget := before.dailyTradeBudget;
    var after := before.(aiCashBalance := before.aiCashBalance + budget);
    var deposit := AiTradeRecord(DEPOSIT, DEPOSIT, 0, budget, None, now, "Daily budget injection");
    NewDayState(after, history + [deposit],
                notes + [AiNotification(NewDayTitle, BudgetInjected(budget, after.aiCashBalance), SystemKind, now)])
  }

  /**
   * The injection keeps the AI cash balance on its replayed history (the drift that
   * `recalculate_ai_balance` corrects does not change), raises the contributed capital
   * by exactly the budget, and raises the capital the valuation's percentage is taken of
   * by the same amount.
   */
  lemma NewDayKeepsBooks(row: SettingsRow, history: seq<AiTradeRecord>, notes: seq<AiNotification>,
                         items: seq<AiPortfolioItem>, now: Instant)
    ensures var r := NewDay(row, history, notes, now);
      var budget := row.dailyTradeBudget;
      && Agent.Drift(r.row, r.history) == Agent.Drift(row, history)
      && Agent.ContributedCapital(r.row.aiCashBalance, items, r.history)
         == Agent.ContributedCapital(row.aiCashBalance, items, history) + budget
      && Sum(r.history, DepositAmount) == Sum(history, DepositAmount) + budget
  {
    var r := NewDay(row, history, notes, now);
    var deposit := r.history[|history|];
    assert r.history == history + [deposit];
    ReplaySnoc(row.initialAiCapital, history, deposit);
    SumSnoc(history, deposit, Agent.RealisedPnl);
    SumSnoc(history, deposit, DepositAmount);
  }

  /**
   * The corrected endpoint: `NewDay` applied to the database, other tables untouched;
   * the result is the budget added and the new balance. With no settings row it still
   * fails with 500 and changes nothing, the new row's budget and balance being unset.
   */
  method SimulateNewDay(db: Database, now: Instant) returns (r: Result<(real, real), int>)
    modifies db
    ensures r.Err? <==> old(db.settings).None?
    ensures r.Err? ==> r.error == ServerError && unchanged(db)
    ensures r.Ok? ==>
      var after := NewDay(old(db.settings).value, old(db.aiHistory), old(db.aiNotifications), now);
      && db.settings == Some(after.row) && db.aiHistory == after.history && db.aiNotifications == after.notes
      && r.value == (old(db.settings).value.dailyTradeBudget, after.row.aiCashBalance)
    ensures db.items == old(db.items) && db.transactions == old(db.transactions)
    ensures db.aiItems == old(db.aiItems) && db.alerts == old(db.alerts)
  {
    if db.settings.None? {
      return Err(ServerError);
    }
    var after := NewDay(db.settings.value, db.aiHistory, db.aiNotifications, now);
    r := Ok((db.settings.value.dailyTradeBudget, after.row.aiCashBalance));
    db.settings := Some(after.row);
    db.aiHistory := after.history;
    db.aiNotifications := after.notes;
  }
}
