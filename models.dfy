/**
 * The persisted records of the trading assistant (backend/models.py) and the
 * database that holds them. Each table is a field of `Database`; a row is a
 * datatype value, and an operation that updates a row in place reassigns the
 * table field with the updated row.
 */
module Models {
  import opened Wrappers

  /** Wall-clock instants, in whole seconds since the Unix epoch (UTC). */
  type Instant = int

  const BUY := "BUY"
  const SELL := "SELL"
  const HOLD := "HOLD"
  const DEPOSIT := "DEPOSIT"
  const WITHDRAW := "WITHDRAW"

  /** The single `user_settings` row. Columns that no modelled operation reads are omitted. */
  datatype SettingsRow = SettingsRow(
    cashBalance: real,
    dailyTradeBudget: real,
    aiCashBalance: real,
    initialAiCapital: real,
    autonomousMode: bool,
    rolloverPercent: real,
    lastRunDate: Option<Instant>,
    unusedBudgetCarryover: real,
    pollingInterval: int,
    tradingStartTime: Option<string>,
    tradingEndTime: Option<string>)

  /** The row `UserSettings()` creates: the column defaults. */
  const DefaultSettings := SettingsRow(
    0.0, 5000.0, 10000.0, 10000.0, false, 0.30, None, 0.0, 5, Some("09:30"), Some("15:30"))

  /** The settings row, or a fresh default row when the table is empty ("get or create"). */
  function RowOrDefault(row: Option<SettingsRow>): SettingsRow {
    row.GetOr(DefaultSettings)
  }

  /** A holding of the user's own (manual) portfolio. Symbols are not unique in this table. */
  datatype PortfolioItem = PortfolioItem(symbol: string, quantity: int, avgCost: real, strategyTag: string)

  /** A manual transaction; `notedPnl` is the P&L written into its notes. */
  datatype Transaction = Transaction(
    symbol: string, action: string, quantity: int, price: real, timestamp: Instant, notedPnl: real)

  /** A holding of the AI portfolio; `totalCost` is meant to be `quantity * avgCost`. */
  datatype AiPortfolioItem = AiPortfolioItem(
    symbol: string, quantity: int, avgCost: real, currentPrice: real, totalCost: real, purchasedAt: Instant)

  /** An entry of the AI trade history; `pnl` is present for SELL entries only. */
  datatype AiTradeRecord = AiTradeRecord(
    symbol: string, action: string, quantity: int, price: real, pnl: Option<real>,
    timestamp: Instant, reason: string)

  /** The message of an AI notification, kept as the data it is formatted from. */
  datatype NoteBody =
    | Bought(symbol: string, quantity: int, price: real, reason: string)
    | Sold(symbol: string, quantity: int, price: real, pnl: real, reason: string)
    | BudgetInjected(amount: real, newBalance: real)

  datatype AiNotification = AiNotification(title: string, body: NoteBody, kind: string, timestamp: Instant)

  /** One entry of a news analysis: every key may be missing from the analysis output. */
  datatype NewsSignal = NewsSignal(
    symbol: Option<string>, signal: Option<string>, reason: Option<string>, url: Option<string>)

  /** A stored news alert; every field is whatever the analysis returned, possibly nothing. */
  datatype AiAlert = AiAlert(
    symbol: Option<string>, signal: Option<string>, reason: Option<string>, url: Option<string>,
    timestamp: Instant)

  /** The index of the first row of a manual portfolio with the given symbol (`query(...).first()`). */
  function FindItem(items: seq<PortfolioItem>, symbol: string): (r: Option<nat>)
    ensures r.Some? ==> r.value < |items| && items[r.value].symbol == symbol
    ensures r.Some? ==> forall j :: 0 <= j < r.value ==> items[j].symbol != symbol
    ensures r.None? ==> forall j :: 0 <= j < |items| ==> items[j].symbol != symbol
  {
    if |items| == 0 then None
    else if items[0].symbol == symbol then Some(0)
    else match FindItem(items[1..], symbol)
      case None => None
      case Some(k) => Some(k + 1)
  }

  /** The index of the first AI holding with the given symbol. */
  function FindAi(items: seq<AiPortfolioItem>, symbol: string): (r: Option<nat>)
    ensures r.Some? ==> r.value < |items| && items[r.value].symbol == symbol
    ensures r.Some? ==> forall j :: 0 <= j < r.value ==> items[j].symbol != symbol
    ensures r.None? ==> forall j :: 0 <= j < |items| ==> items[j].symbol != symbol
  {
    if |items| == 0 then None
    else if items[0].symbol == symbol then Some(0)
    else match FindAi(items[1..], symbol)
      case None => None
      case Some(k) => Some(k + 1)
  }

  /** The price quoted for a symbol; a symbol without a quote reads 0.0, as a failed fetch does. */
  function Quote(quotes: map<string, real>, symbol: string): real {
    if symbol in quotes then quotes[symbol] else 0.0
  }

  /** The backend's database: one field per table, tables in query order. */
  class Database {
    var settings: Option<SettingsRow>
    var items: seq<PortfolioItem>
    var transactions: seq<Transaction>
    var aiItems: seq<AiPortfolioItem>
    var aiHistory: seq<AiTradeRecord>
    var aiNotifications: seq<AiNotification>
    var alerts: seq<AiAlert>

    /** An empty database, as `init_db` creates it. */
    constructor ()
      ensures settings.None? && items == [] && transactions == []
      ensures aiItems == [] && aiHistory == [] && aiNotifications == [] && alerts == []
    {
      settings := None;
      items, transactions := [], [];
      aiItems, aiHistory, aiNotifications, alerts := [], [], [], [];
    }
  }
}
