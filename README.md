# PSX Investment Co-Pilot — a verified model of the trading ledger

This project models the core of the PSX Investment Co-Pilot, a trading assistant for the
Pakistan Stock Exchange, in Dafny and proves properties of it. The model covers:

- the ledger of the AI portfolio: an autonomous agent trades it from its own cash balance, and
  its holdings carry quantity, average cost and total cost;
- its trading cycle, which is gated by trading hours, monitors positions with a stop-loss /
  take-profit fallback and buys news-backed candidates;
- the user's manual portfolio endpoints: sell, deposit/withdraw and partial settings update;
- the valuation of both portfolios;
- the risk validator, the daily budget with rollover, and the cash balance rebuilt from the trade
  history;
- the TTL price cache and rate limiter of the market-data client;
- the rule-based strategy suggestions;
- the dashboard's activity-log and P&L filters.

The tables are fields of one `Models.Database` object, and rows are datatype values.

- Operations that change tables are methods that `modify` the database.
- Their contracts tie the new state to functions of the old one.
- Two ledger quantities are invariants that every trade keeps:
  - the contributed capital: cash + cost basis of the holdings − realised P&L;
  - the drift of the cash balance from a replay of the history.

Prices, language-model decisions, news signals, the wall clock ("HH:MM" text and instants) and
HTTP responses are parameters. Money is an exact `real`.

Modules and files:

- `wrappers.dfy`: `Option` and `Result`.
- `seqs.dfy`: `Sum` and the order-preserving `Filter`.
- `models.dfy`: the records.
- `autonomous_agent.dfy`: module `Agent`.
- `main.dfy`: module `Api`.
- `portfolio_engine.dfy`: module `Portfolio`.
- `risk_engine.dfy`: module `Risk`.
- `budget_engine.dfy`: module `Budget`.
- `recalculate_balance.dfy`: module `Recalculate`.
- `market_data.dfy`: module `MarketData`.
- `strategy_engine.dfy`: module `Strategy`.
- `trading_hours.dfy`: the "HH:MM" trading window.
- `dashboard.dfy`: module `Dashboard`.

Two behaviours of the code are worth noting:

- The custom day count of the activity log is `parseInt(value) || 1`. Only NaN and 0 become 1;
  a negative count is kept (`Dashboard.NegativeCountKept`) rather than clamped to at least 1.
- The AI valuation's overall P&L percentage is taken over the initial capital plus all DEPOSIT
  amounts, not over the initial capital alone.

The dashboard's date arithmetic keeps JavaScript's `Date` range. A time value beyond
±8.64·10^15 ms is an invalid `Date`, and every comparison with one is false. So a custom window
whose start falls outside that range (`Dashboard.MaxTime`) keeps nothing.

The settings row is not flushed before a manual sale, a deposit or a withdrawal reads its cash
column. When no row exists, the new row's columns are still None there, so the arithmetic fails
and the request ends in 500 with nothing stored. `update_settings` only assigns fields before it
commits, and `get_ai_portfolio_data` commits the new row first, so both see the defaults.

## Model

| member | source | states |
|---|---|---|
| Models.FindItem | backend/main.py:203 | the index found is the first manual holding with the symbol; None exactly when no holding has it |
| Models.FindAi | backend/autonomous_agent.py:309 | the index found is the first AI holding with the symbol; None exactly when no holding has it |
| Agent.BuyInto | backend/autonomous_agent.py:309-325 | a BUY into a held symbol adds the quantity and the cost and re-averages (avg = new total / new quantity); a new symbol starts with avg = price and total = quantity·price; validity (total = avg·quantity, unique symbols) is kept; cost basis grows by exactly quantity·price; other holdings untouched |
| Agent.SellFrom | backend/autonomous_agent.py:348-353 | selling the whole quantity deletes the holding, otherwise quantity and total cost fall while symbol, average cost, price and purchase time are kept, so the held quantity falls by exactly what is sold; validity kept; cost basis falls by avg·quantity; other holdings untouched |
| Agent.RemoveKeepsLedger | backend/autonomous_agent.py:348-349 | deleting a whole holding keeps validity, leaves its symbol unheld, takes avg·quantity off the cost basis and keeps every other holding |
| Agent.ShrinkKeepsLedger | backend/autonomous_agent.py:350-353 | a partial sale keeps validity, takes avg·quantity off the cost basis and keeps every other holding |
| Agent.BuyKeepsBooks | backend/autonomous_agent.py:299-331 | cash spent on a BUY equals the cost added to holdings: contributed capital and replay drift are unchanged |
| Agent.SellKeepsBooks | backend/autonomous_agent.py:338-359 | a SELL adds quantity·price to cash and records pnl = (price − avg)·quantity: contributed capital and replay drift are unchanged |
| Agent.ApplyBuy | backend/autonomous_agent.py:299-335 | new cash = old − quantity·price; holdings = BuyInto; one BUY history entry and one "AI Trade Executed" notification appended; books kept |
| Agent.ApplySell | backend/autonomous_agent.py:342-363 | new cash = old + quantity·price; holdings = SellFrom; one SELL entry with pnl = (price − avg)·quantity and one notification appended; books kept |
| Agent.ExecuteTrade | backend/autonomous_agent.py:296-365 | a BUY costing more than the AI cash changes nothing; a SELL of an unheld symbol or of more than is held changes nothing; otherwise the trade is applied as above; any other action changes nothing; every outcome keeps the ledger invariants |
| Agent.Trunc | backend/autonomous_agent.py:286 | Python `int()` truncation toward zero, bounded on both sides |
| Agent.PositionSize | backend/autonomous_agent.py:285-288 | quantity = max(1, ⌊0.10·cash / price⌋): at least 1, and when above 1 the largest count whose cost stays within 10% of cash |
| Agent.SizedBuyAffordable | backend/autonomous_agent.py:290-293 | the sized order is affordable exactly when one share is |
| Agent.EvaluateAndTrade | backend/autonomous_agent.py:277-294 | a non-positive price or an unaffordable sized order changes nothing; otherwise a BUY of the sized quantity is executed; either way cash never rises and the history grows by at most one BUY of the symbol, sent with its "AI Trade Executed" note (`Logged`) |
| Agent.TradeNotesEach | backend/autonomous_agent.py:327-363 | one "AI Trade Executed" note per history entry, the note at each place being that entry's (Bought … for a BUY, Sold … with its pnl for a SELL) |
| Agent.TradeNotesAppend | backend/autonomous_agent.py:327-363 | the notes of two stretches of entries are those of the first followed by those of the second |
| Agent.LoggedCompose | backend/autonomous_agent.py:296-371 | two stretches of trading that each send one note per new entry send, together, one note per new entry in order |
| Agent.OnePurchase | backend/autonomous_agent.py:285-294 | one affordable BUY of PositionSize(cash, quote) at the quote is a stretch of sized purchases that lowers cash by quantity·price |
| Agent.PurchasesCompose | backend/autonomous_agent.py:67-85 | two consecutive stretches of sized purchases are one: every BUY stays sized at the cash left before it, and cash falls by their total cost |
| Agent.Evaluated | backend/autonomous_agent.py:277-294 | `_evaluate_and_trade` extends a stretch of sized purchases: it adds nothing or the sized BUY at the symbol's quote |
| Agent.FallbackDecision | backend/autonomous_agent.py:115-122 | return below −5% sells everything, above +10% sells TakeProfitQuantity, otherwise HOLD 0, all with LOW confidence; a sell quantity lies in [1, q] |
| Agent.TakeProfitQuantity | backend/autonomous_agent.py:119 | max(1, int(q·0.5)): at least 1 and at most q; for q ≥ 2 exactly ⌊q/2⌋, so some shares stay |
| Agent.FallbackThresholds | backend/autonomous_agent.py:115-122 | SELL iff price < 0.95·avg or price > 1.10·avg; below 0.95·avg the whole q is sold, above 1.10·avg TakeProfitQuantity(q); for q ≥ 2 the whole position is sold iff price < 0.95·avg |
| Agent.AnalyzePosition | backend/autonomous_agent.py:108-233 | without a client the fallback decides; a failed call holds 0; a model SELL is clamped to min(asked, held), takes the held quantity when the reply names none, and holds 0 when its quantity is null or not a number (`min` raises inside the try); other replies pass through unchanged, an unusable quantity included |
| Agent.PositionDecision | backend/autonomous_agent.py:244-258 | the decision asked for a held symbol at its average cost and quantity; a SELL always carries a number, never more than is held |
| Agent.MonitoredItems | backend/autonomous_agent.py:242-273 | the holdings after monitoring one symbol: valid, other holdings kept both ways, no new symbol; the symbol's held quantity falls by exactly what its decision sells and what is left carries the new price; without a model a price below 95% of the average cost removes the holding |
| Agent.FindAiAt | backend/autonomous_agent.py:309 | with unique symbols, looking up a holding's symbol finds that holding |
| Agent.NotHeld | backend/autonomous_agent.py:309 | a symbol is not found exactly when no holding carries it |
| Agent.NoNewSymbol | backend/autonomous_agent.py:235-275 | if only holdings of one symbol may be new, no other unheld symbol becomes held |
| Agent.MonitorStepKeeps | backend/autonomous_agent.py:240-273 | monitoring the next holding keeps what the loop knows: unreached holdings still held, no outside symbol, unquoted holdings kept, stop-loss removals done |
| Agent.Reprice | backend/autonomous_agent.py:249 | storing the current price on a holding changes only that holding's price field: its place, held quantity, validity, cost basis and every other holding are kept, and the holding carries the new price |
| Agent.MonitorPosition | backend/autonomous_agent.py:242-273 | one holding at a positive price: the price is stored on it; a decided SELL of q > 0 (never more than held) raises cash by q·price, sells q via SellFrom, and appends one SELL entry with pnl (price − avg)·q and that entry's trade note (`Logged`); any other decision stores only the price; holdings equal MonitoredItems; books kept; `raised` exactly when a SELL or BUY_MORE quantity is null or not a number, where `qty > 0` raises |
| Agent.MonitorPortfolio | backend/autonomous_agent.py:235-275 | holdings are monitored in order: with no raise the holdings are MonitorAll of the originals, each quoted holding losing exactly what its decision sells and carrying its new price; when a decision raises, the loop stops at the first such holding and the holdings are those committed by the last sale before it (MonitorOutcome); only SELL entries are appended and cash rises by exactly their proceeds; no new symbols; unquoted holdings stay; without a model nothing raises, every holding quoted below 95% of its average cost is gone and every one above 110% keeps q − TakeProfitQuantity(q); books kept; the history grows by exactly the `SaleRecords` of the holdings passed (up to the one that raised) and the notifications are their trade notes, one per entry, in order |
| Agent.StepDecision | backend/autonomous_agent.py:252-258 | for a holding of a valid ledger, the decision asked about its symbol is the one for that holding |
| Agent.MonitorAll | backend/autonomous_agent.py:242-273 | monitoring the holdings passed so far, in order, from the original ones keeps the ledger valid |
| Agent.CommittedPrefix | backend/autonomous_agent.py:266-268 | the holdings passed when the session last committed: the last of them sold, none after it sells |
| Agent.MonitorAllEffects | backend/autonomous_agent.py:242-273 | after the first n holdings: the rest are untouched; each quoted holding passed is held by exactly q − its decision's sale and what is left carries its quote |
| Agent.MonitorAllDone | backend/autonomous_agent.py:242-273 | over every holding, the quoted ones lose exactly their sale and carry their quote; without a model nothing raises, the stop loss removes and the take profit keeps q − TakeProfitQuantity(q) |
| Agent.CommitStep | backend/autonomous_agent.py:266-268 | passing a quoted holding that does not raise moves the committed holdings on exactly when it sells |
| Agent.CommitSkip | backend/autonomous_agent.py:244-246 | passing an unquoted holding changes neither the holdings nor what is committed |
| Agent.MonitorBooked | backend/autonomous_agent.py:242-273 | one quoted holding within the loop: holdings become MonitoredItems, raising is RaisesOn, and the history grows by its `SaleRecord` (SELL of the decided quantity at the quote, pnl (quote − avg)·q, the decision's reason) exactly when the decision sells, and by nothing otherwise; the notes sent are the new entries' trade notes; the proceeds are the cash gained |
| Agent.RollBack | backend/autonomous_agent.py:266-275 | once a decision raises, the holdings go back to the last committed ones, which are the MonitorOutcome of that holding; settings, history and notifications are kept, and so are the books |
| Agent.MonitorNext | backend/autonomous_agent.py:242-273 | one quoted holding of the loop: the loop's facts, the booked `SaleRecords` and their notes included, hold after it; or it raises, the holdings are rolled back and the history holds the `SaleRecords` of the holdings before it only |
| Agent.SalesAreSells | backend/autonomous_agent.py:342-359 | monitoring books at most one entry per holding passed, each a SELL of a positive quantity at a positive price, stamped with the cycle's time, of a passed holding's symbol |
| Agent.SaleStep | backend/autonomous_agent.py:252-273 | monitoring the next holding books its `SaleRecord` exactly when its decision sells, with its trade note; a holding whose decision raises books nothing |
| Agent.MonitorFinished | backend/autonomous_agent.py:242-275 | once every holding is passed with no raise, the holdings are MonitorAll of the originals, with SalesApplied and, without a model, FallbackApplied |
| Agent.SymbolSetSize | backend/autonomous_agent.py:91-98 | a set of symbols built from a list has no more elements than the list |
| Agent.ScanMarketCandidates | backend/autonomous_agent.py:89-106 | the candidates are the five blue chips plus the top gainers and losers, and nothing else; with truncated lists there are at most 15 |
| Agent.BuyOnSignals | backend/autonomous_agent.py:76-85 | only BUY entries of the candidate are appended, and only if some signal is a BUY; when one is and the price is positive, the candidate ends up held unless one share costs more than the cash; each new entry is a BUY of PositionSize(cash before it, quote) at the candidate's quote, and cash falls by exactly their cost (`Purchases`); one trade note per entry (`Logged`); other holdings untouched; books kept |
| Agent.SignalStep | backend/autonomous_agent.py:80-85 | acting on one BUY signal keeps the loop's facts and records that a BUY signal was seen |
| Agent.TradeOnNews | backend/autonomous_agent.py:80-85 | acting on one BUY signal keeps the scan's facts, keeps every new entry a sized purchase at its quote and sends one trade note per new entry |
| Agent.ScanCandidates | backend/autonomous_agent.py:67-85 | held candidates are skipped: every new history entry is a BUY of a candidate not held before and with a BUY signal; old holdings are kept; new holdings are candidates; every candidate with a BUY signal and a positive quote is held afterwards unless one share costs more than the cash left; each new BUY is PositionSize(cash before it, quote) at its symbol's quote and cash falls by exactly their cost (`Purchases`); one trade note per entry (`Logged`) |
| Agent.ScanStep | backend/autonomous_agent.py:72-85 | scanning one unheld candidate keeps what the loop knows and adds that candidate to the handled ones |
| Agent.ScanCandidate | backend/autonomous_agent.py:72-85 | handling one unheld candidate keeps what the scan knows, adds it to the handled ones, keeps every new entry a sized purchase at its quote and sends one trade note per new entry |
| Agent.MonitorThenScan | backend/autonomous_agent.py:57-87 | inside the window: monitoring fails exactly when some decision raises, and then the scan is skipped, the holdings are MonitorOutcome's and the history grows by the `SaleRecords` before the failing holding; otherwise the history grows by every holding's `SaleRecords` and then only by sized BUYs (`CycleBooked`); one trade note per new entry; books kept; settings keep all but the cash |
| Agent.RunTradingCycle | backend/autonomous_agent.py:32-87 | the settings row is created when missing; outside [start, end] (defaults 09:30/15:30, compared as text) nothing else changes and no notification is produced; inside, monitoring fails exactly when some holding's decision raises, and then the scan is skipped and the holdings are as MonitorOutcome says; otherwise every holding MonitorAll leaves is still held and every other holding is a market candidate; books kept; every holding afterwards was held before or is a candidate; after a full scan every candidate with a BUY signal and a positive quote ends up held unless one share costs more than the cash left; the notifications are the trade notes of the new history entries, in order; when monitoring fails the history grows by exactly the `SaleRecords` of the holdings before the failing one; after a full cycle it grows by the `SaleRecords` of every holding, then only by sized BUYs at the quotes, cash falling by their cost (`CycleBooked`) |
| Recalculate.ReplayAppend | backend/recalculate_balance.py:25-38 | replaying a concatenation replays the second part from the first's result |
| Recalculate.ReplayDecomposition | backend/recalculate_balance.py:22-38 | computed = initial − Σ BUY q·p + Σ SELL q·p + Σ DEPOSIT price − Σ WITHDRAW price |
| Recalculate.ReplayIgnoresOtherActions | backend/recalculate_balance.py:26-38 | entries with any other action do not affect the computed balance |
| Recalculate.ComputeBalance | backend/recalculate_balance.py:20-38 | the loop's balance equals the replay of the whole history from the initial capital |
| Recalculate.RecalculateAiBalance | backend/recalculate_balance.py:8-48 | the stored AI cash is overwritten only when it differs from the computed value by more than 0.01, and is within 0.01 afterwards; the row left is `Recalculated` of the old row and history; no other field or table changes |
| Recalculate.RecalculateTwice | backend/recalculate_balance.py:45-48 | after one recalculation the stored balance is within 0.01 of the replay, so a second recalculation over the same history leaves the row as the first one left it |
| TradingHours.StrLeIsTimeOrder | backend/main.py:71 | for well-formed "HH:MM" clocks, comparing the text is comparing the time of day |
| TradingHours.DefaultWindow | backend/autonomous_agent.py:49-53 | with each time missing or empty (Python's `or` falls back on both), a clock is inside the window iff it is between 09:30 and 15:30 inclusive |
| TradingHours.ConfiguredWindow | backend/main.py:67-71 | with both times configured as "HH:MM" clocks, a clock is inside the window iff its time of day lies between theirs inclusive |
| Api.SellManual | backend/main.py:233-237 | selling all deletes the item, otherwise the quantity falls; the manual cost basis falls by quantity·avg |
| Api.SellPortfolioItem | backend/main.py:200-242 | 404 iff the symbol is not held, 400 iff held quantity < sell quantity, 500 iff the sale is valid but no settings row exists (its cash column is None), all without any change; on success cash rises by quantity·price, a SELL transaction noting (price − avg)·quantity is recorded, and capital is kept |
| Api.CashAfter | backend/main.py:255-261 | DEPOSIT adds; WITHDRAW subtracts when the balance covers it and is a 400 otherwise; any other type leaves the balance |
| Api.DepositThenWithdraw | backend/main.py:255-261 | withdrawing what was just deposited restores the balance |
| Api.WithdrawNeverOverdraws | backend/main.py:257-261 | an accepted withdrawal never leaves a negative balance and never raises it |
| Api.UpdateCash | backend/main.py:248-264 | without a settings row a DEPOSIT or WITHDRAW is a 500 (its cash column is None) and nothing changes; otherwise the new balance is CashAfter of the row's balance (the default row, flushed with its defaults, for any other type); on an error nothing changes |
| Api.ApplyUpdate | backend/main.py:393-406 | exactly the supplied fields are overwritten; every other field keeps its value |
| Api.ApplyUpdateIdempotent | backend/main.py:393-406 | applying the same update twice equals applying it once |
| Api.EmptyUpdateIsIdentity | backend/main.py:393-406 | an update supplying nothing leaves the row unchanged |
| Api.UpdateSettings | backend/main.py:386-410 | the stored row is the (created if missing) row with the update applied; no other table changes |
| Api.HoldingOf | backend/main.py:434-447 | market value = price·quantity, pnl = value − total cost, pnl% = pnl/total·100 when total > 0 else 0; for a valid holding pnl = (price − avg)·quantity |
| Api.HoldingRows | backend/main.py:429-450 | one row per holding, in order, each HoldingOf at its quote; the running totals are the holdings value and the unrealised P&L |
| Api.Valuation | backend/main.py:429-486 | one row per holding in order; holdings value and total pnl are the sums; net worth = holdings + AI cash; overall pnl = realised (non-null history pnl) + unrealised; its percentage is of initial capital + deposits, 0 when that is not positive |
| Api.PercentOf | backend/main.py:473 | a percentage of a positive base, times the base, is the part times 100 |
| Api.SumDifference | backend/main.py:449-450 | unrealised P&L = holdings value − cost basis |
| Api.OverallPnlIsGainOnCapital | backend/main.py:453-464 | overall P&L = net worth − contributed capital, a quantity no trade changes |
| Api.NoUnrealisedAtCost | backend/main.py:436 | at quotes equal to the average costs a valid portfolio shows no unrealised P&L |
| Api.GetAiPortfolioData | backend/main.py:419-486 | only the missing settings row is created; one row per holding in order; holdings value and total pnl are the sums; total = holdings + AI cash; overall pnl = realised + unrealised = total − contributed capital; its percentage is of initial capital + deposits, 0 when that is not positive |
| Api.AnalyzeNews | backend/main.py:62-100 | with a settings row and a clock outside its window: skipped, 0 alerts, nothing stored; otherwise every analysed signal is appended as an alert, in order, and the count is reported |
| Api.NewDayAsWritten | backend/main.py:493-528 | without a settings row the budget read is None and the request fails with 500; with one, the deposit record is built with a keyword the trade-history table lacks, so it fails with 500 too |
| Api.NewDayAsWrittenAlwaysFails | backend/main.py:507-515 | for every state the new-day request as written fails and persists nothing |
| Api.NewDay | backend/main.py:496-528 | given an existing settings row, the AI cash rises by the daily budget; a DEPOSIT of that amount and a "New Day: Budget Injected" notification are appended |
| Api.NewDayKeepsBooks | backend/main.py:501-516 | the injected deposit keeps the replay drift, raises the contributed capital by exactly the daily budget and the deposits by the same amount |
| Api.SimulateNewDay | backend/main.py:493-528 | fails with 500 and changes nothing exactly when no settings row exists; otherwise the database ends in NewDay's state and the budget added and the new balance are returned |
| Portfolio.RowOf | backend/portfolio_engine.py:23-35 | a row echoes symbol, quantity, avg cost and strategy; market value = quantity·price; pnl = value − quantity·avg |
| Portfolio.Summarize | backend/portfolio_engine.py:18-44 | exactly one row per item in order; holdings value = Σ quantity·price; total = cash + holdings; an empty portfolio is worth its cash |
| Portfolio.RowsPnlIsGain | backend/portfolio_engine.py:33 | the rows' pnl sums to holdings value − what was paid |
| Portfolio.GetPortfolioSummary | backend/portfolio_engine.py:9-44 | only a missing settings row is created; the summary is taken against that row's cash |
| Risk.RiskEngine.CheckTrade | backend/risk_engine.py:14-51 | allowed iff total > 0, (held cost + trade) ≤ 15% of total and trade ≤ 10% of total; total ≤ 0 refuses first, then allocation, then trade size, with the offending percentage |
| Risk.SmallerTradeAllowed | backend/risk_engine.py:19-51 | a smaller order of the same symbol at the same price passes whenever a larger one does |
| Risk.FullPositionBlocksBuys | backend/risk_engine.py:21-37 | a symbol already at 15% of a positive total cannot be bought further |
| Budget.AfterBudgetQuery | backend/budget_engine.py:24-47 | the first query of a UTC day stamps the row with now, a later one that day changes nothing; the budget is unaffected |
| Budget.Carryover | backend/budget_engine.py:54 | max(0, budget − used): never negative, and 0 exactly when used ≥ budget |
| Budget.AfterEndOfDay | backend/budget_engine.py:49-56 | the carryover is never negative; when used ≥ budget the next budget is just the daily limit |
| Budget.SameDayQueriesAgree | backend/budget_engine.py:28-47 | two queries on the same day give the same budget and the second changes nothing |
| Budget.BudgetStaysBounded | backend/budget_engine.py:30-36 | with rollover in [0, 1), a budget within daily/(1 − rollover) stays within it after any day |
| Budget.BudgetEngine.constructor | backend/budget_engine.py:6-17 | the default settings row is created when missing |
| Budget.BudgetEngine.GetDailyBudget | backend/budget_engine.py:19-47 | returns daily + carryover·rollover on both branches; state as AfterBudgetQuery |
| Budget.BudgetEngine.UpdateEndOfDay | backend/budget_engine.py:49-57 | stores max(0, budget − used) as carryover after the day's query |
| Budget.QueryTwiceSameDay | backend/budget_engine.py:36-47 | two calls on the same day return the same value |
| MarketData.RateLimitWait | backend/market_data.py:24-29 | waits exactly 0.6 − elapsed when elapsed < 0.6, else not at all |
| MarketData.Take | backend/market_data.py:83-84 | a prefix of at most n elements, the whole list when it is short |
| MarketData.BuildSummary | backend/market_data.py:76-85 | status OPEN, index KSE-100, top gainers/losers truncated to 5 |
| MarketData.Normalize | backend/market_data.py:138 | upper-cased and stripped of Python whitespace: no lower-case ASCII letter, no surrounding whitespace, never longer |
| MarketData.NormalizeIdempotent | backend/market_data.py:138 | normalising twice equals normalising once |
| MarketData.SeparatorStripped | backend/market_data.py:138 | a leading U+001F, whitespace to Python's strip, is removed: "\x1fogdc" normalises to OGDC |
| MarketData.MarketDataService.FreshPrice | backend/market_data.py:33-36 | a cached price is served iff it is younger than 60 s |
| MarketData.MarketDataService.RateLimit | backend/market_data.py:24-29 | the wait is RateLimitWait of the elapsed time; the last request time becomes the post-wait time |
| MarketData.MarketDataService.GetLivePrice | backend/market_data.py:31-56 | a fresh cached price is returned without fetching; a successful fetch caches (now, price) and returns it; a failed one returns 0.0 and leaves the cache |
| MarketData.MarketDataService.GetMarketSummary | backend/market_data.py:58-95 | served from cache within 5 minutes; a fetched summary is cached; failures are UNKNOWN/ERROR and not cached; top lists hold at most 5 |
| MarketData.MarketDataService.SearchSymbol | backend/market_data.py:137-158 | an empty normalised query gives no hit and no change; otherwise there is a hit exactly when the live price (cached when fresh, else fetched) is positive, and it carries that price, the normalised symbol, the name defaulting to the symbol and change fields 0; a fetched price is cached |
| MarketData.PriceServedFromCache | backend/market_data.py:31-49 | a second lookup within the TTL returns the first lookup's price |
| Strategy.GenerateDcaPlan | backend/strategy_engine.py:9-22 | BUY iff price < avg cost, else HOLD; symbol echoed with strategy DCA |
| Strategy.GenerateForeverAdvice | backend/strategy_engine.py:24-30 | the same FOREVER advice for every item |
| Strategy.ForeverAdviceIgnoresHolding | backend/strategy_engine.py:24-30 | the advice depends on the symbol only |
| Strategy.GenerateTradingSignal | backend/strategy_engine.py:32-42 | NEUTRAL; stop 0.95·p ≤ entry 0.98·p ≤ 0.99·p ≤ p for p ≥ 0, strictly for p > 0; all 0 for a failed price |
| Dashboard.FilterAsWritten | frontend/src/components/AIStockDashboard.jsx:443-467 | the filter as written, with each stamp parsed as local time: an order-preserving selection holding every copy of each entry kept at the shifted time and no other entry |
| Dashboard.FilterNotifications | frontend/src/components/AIStockDashboard.jsx:443-467 | an order-preserving subsequence holding every copy of each entry the selected window keeps and nothing else; a window reaching before the earliest representable Date keeps nothing |
| Dashboard.AllKeepsEverything | frontend/src/components/AIStockDashboard.jsx:444 | "all" and unrecognised values return the log unchanged |
| Dashboard.WeekWithinMonthWithinAll | frontend/src/components/AIStockDashboard.jsx:451-460 | for the same now, with now − 30 days a representable Date, week ⊆ month ⊆ all, order preserved |
| Dashboard.CustomWindowsNest | frontend/src/components/AIStockDashboard.jsx:461-465 | a shorter custom window selects within a longer one whose start is a representable Date |
| Dashboard.CustomWindowPastRangeKeepsNothing | frontend/src/components/AIStockDashboard.jsx:461-465 | a custom window starting before the earliest representable Date (an invalid Date) keeps no entry |
| Dashboard.HugeCustomCountEmptiesLog | frontend/src/components/AIStockDashboard.jsx:757-761 | a count typed as 100030000 days empties the log instead of showing everything |
| Dashboard.HugeCountIsRead | frontend/src/components/AIStockDashboard.jsx:761 | the input box reads 100030000 as that count |
| Dashboard.NegativeCustomDaysLooksAhead | frontend/src/components/AIStockDashboard.jsx:461-465 | with a negative day count no entry stamped at or before now passes |
| Dashboard.TodayDropsFreshNoteAsWritten | frontend/src/components/AIStockDashboard.jsx:445-450 | at 23:00 UTC seen from UTC+5 a one-second-old note is dropped from "today" as written and kept when its stamp is read as UTC |
| Dashboard.PnlTrades | frontend/src/components/AIStockDashboard.jsx:440 | exactly the trades with a P&L, every copy, in original order |
| Dashboard.PnlTradesKeepRealised | frontend/src/components/AIStockDashboard.jsx:440 | the filtered trades carry all of the realised P&L |
| Dashboard.CustomDays | frontend/src/components/AIStockDashboard.jsx:761 | NaN and 0 become 1; every other parsed value is kept; never 0 |
| Dashboard.ReadsBackDecimal | frontend/src/components/AIStockDashboard.jsx:757-761 | a count typed in decimal, followed by anything but a digit (in a number box: nothing, a fraction or an exponent), is read back as itself; 0 becomes 1 |
| Dashboard.NoNumberGivesOne | frontend/src/components/AIStockDashboard.jsx:757-761 | the empty value the number box reports for an empty or unparsable entry gives 1; so does digit-free text, which only `parseInt` itself sees |
| Dashboard.NegativeCountKept | frontend/src/components/AIStockDashboard.jsx:757-761 | a minus sign before a positive count ("-3", or "-3.5", both values the number box reports; its `min="1"` does not stop typing them) gives the negative count, not 1 |
| Dashboard.DigitsReadBack | frontend/src/components/AIStockDashboard.jsx:761 | any run of digits followed by a non-digit is read as the value of the digits |
| Dashboard.LeadingBlankIgnored | frontend/src/components/AIStockDashboard.jsx:761 | of `parseInt` itself, not of the number box (which never reports such text): a leading blank does not change what is read |
| Dashboard.SeparatorStopsParseInt | frontend/src/components/AIStockDashboard.jsx:761 | of `parseInt` itself, not of the number box (which never reports such text): U+001C is whitespace to Python's strip but not to `parseInt`, which reads nothing from it |

## Left out

- HTTP, the database session, commits and console logging are left out. Tables are in-memory sequences and every request is one atomic update.
  The one exception is monitoring. Each sale commits the session (backend/autonomous_agent.py:365). When a later decision raises, the failed request's session drops only the price refreshes made since that sale (`Agent.RollBack`).
- Every fetch is a parameter rather than a call: market-data HTTP responses, the news search, the news analysis and the language-model call each become an input value.
- `time.sleep` is not performed: `MarketData.MarketDataService.RateLimit` returns the wait. The cache stamps a fetched price with the time after the wait.
- The wall clock (`datetime.now()`, `utcnow()`, `time.time()`) is a parameter. Local versus UTC time is modelled only where a comparison depends on it: trading hours as "HH:MM" text, and the dashboard's fixed zone offset. Daylight-saving changes are not modelled.
- Floating point is not modelled: money is exact `real`, and the 0.01 tolerance is exact.
- Message text is not formatted: reasons, notification bodies and percentages are kept as the data they are built from. The text of a failed language-model call is reduced to its fixed suffix.
- Agent.ExecuteTrade: requires quantity > 0 and price > 0. Both callers guarantee this: the monitor sells only qty > 0 at a positive price, and sizing gives at least 1 share at a positive price.
- Agent.RunTradingCycle: requires the stored AI holdings to be well formed (positive quantities, total = avg·quantity, unique symbols). This is the invariant every trade keeps. Rows edited outside the model are not covered.
- Agent.EvaluateAndTrade: always BUYs, because its only caller passes "BUY". The action parameter is dropped.
- Agent.MonitorPosition: does not act on BUY_MORE. The source only logs it, but a BUY_MORE whose quantity is null or text raises, and that is modelled.
- Agent.AnalyzePosition: a reply's quantity is absent, a whole number, or unusable (null or text). A fractional quantity is not modelled: the source would clamp it and sell a fraction of a share.
- Agent.AnalyzePosition: a null action, reason or confidence is treated like a missing one. The source reads a null action as no SELL, as the model does, but it formats a null reason as the text "None".
- Agent.RunTradingCycle: when monitoring raises, the request fails, and the notifications it returns are only those already stored. The source returns nothing to the caller then.
- Agent.RunTradingCycle: takes the quotes, the market summary and the per-candidate news signals as inputs rather than calling the market-data service. The cache is modelled on its own in `MarketData`.
- Agent.BuyOnSignals: does not state that a candidate with no BUY signal leaves the database unchanged. It states only the weaker facts: at most BUY entries are appended, and cash does not rise.
- Agent.BuyOnSignals: does not model the per-candidate news fetch. Its signals are an input.
- `get_market_status`, `get_klines` and `get_company_info` are not modelled. They are pass-through fetches with no logic beyond a default; the company name is an input to `SearchSymbol`.
- `record_daily_snapshot`, `get_portfolio_history`, `chat_endpoint`, `get_daily_plan`, `run_intraday_check`, `get_alerts`, `get_settings`, `get_ai_notifications` and `get_trade_history` are not modelled. They are reads, LLM calls or snapshots outside the ledger.
- `add_portfolio_item` is not modelled. It is not part of the ledger endpoints modelled here.
- `check_risk_exposure` is not modelled: its body is `pass`.
- The sector allocation and per-trade loss limits of the risk engine are declared as constants but checked nowhere, so no check consults them. The `sector` argument is unused.
- Strategy.GenerateTradingSignal: the entry zone is the pair of bounds, not the formatted "a-b" text.
- Dashboard.FilterNotifications: "week", "month" and "custom" subtract whole days of 86 400 000 ms. `Date.setDate` works on local calendar days, which differ around daylight-saving changes.
- Dashboard.FilterAsWritten: shares `Keep`'s windows, so its "week", "month" and "custom" windows are whole days of 86 400 000 ms too, not the local calendar days `Date.setDate` counts.
- Dashboard.FilterNotifications: `now` and the window's reference time are taken as the same instant. The source creates them a few microseconds apart.
- Dashboard.ParseInt: skips JavaScript whitespace (`IsJsSpace`) before the number, but radix prefixes ("0x") are not modelled.
- MarketData.Normalize: strips Python's whitespace (`IsSpace`, which includes U+001C–U+001F and U+0085) but upper-cases ASCII letters only; Unicode case mapping is not modelled.
- Polling intervals, timers and the dashboard's cached-then-live double fetch are not modelled.
- The recommendation approve/deny client call is not modelled: it has no backend route.

## Findings

| source | as written | input that shows it | evidently intended | confidence | as-written member | corrected member |
|---|---|---|---|---|---|---|
| backend/main.py:507-515 | the deposit record is built as `AITradeHistory(..., total_value=budget_to_add, ...)`, but the table has no `total_value` column (backend/models.py:126-136). The declarative constructor raises TypeError, the request ends in 500, and the session is discarded: no budget is injected | any POST to /autonomous/new-day | record the deposit without `total_value`, so the AI cash rises by the daily budget and a DEPOSIT entry balances it | high (not executed) | Api.NewDayAsWritten | Api.NewDay |
| frontend/src/components/AIStockDashboard.jsx:445 | `new Date(n.timestamp)` parses the backend's zone-less UTC stamp as local time. The same list displays it as UTC by appending "Z" (line 790) | browser at UTC+5, now 23:00 UTC, a note stamped one second earlier: "today" drops it | read the stamp as UTC, as the display does | medium (not executed) | Dashboard.FilterAsWritten | Dashboard.FilterNotifications |
