/**
 * The AI portfolio ledger of the autonomous agent (backend/autonomous_agent.py):
 * executing BUY and SELL trades against the AI cash balance and holdings,
 * sizing new positions, the rule-based exit decision used when no language model
 * is configured, and the trading cycle that monitors holdings and scans candidates.
 * Market prices, model decisions, news alerts and the clock are inputs.
 */
module Agent {
  import opened Wrappers
  import opened Seqs
  import opened Models
  import opened Recalculate
  import TradingHours
  import MarketData

  const TradeTitle := "AI Trade Executed"
  const TradeKind := "TRADE"

  // ---------------------------------------------------------------------------
  // Ledger invariants

  /** A well-formed AI holding: positive quantity and cost, total cost = avg cost * quantity. */
  predicate ItemValid(it: AiPortfolioItem) {
    it.quantity > 0 && it.avgCost > 0.0 && it.totalCost == it.avgCost * it.quantity as real
  }

  /** Every holding is well formed and no symbol is held twice. */
  predicate ItemsValid(items: seq<AiPortfolioItem>) {
    && (forall i :: 0 <= i < |items| ==> ItemValid(items[i]))
    && (forall i, j :: 0 <= i < j < |items| ==> items[i].symbol != items[j].symbol)
  }

  function CostBasis(it: AiPortfolioItem): real {
    it.totalCost
  }

  /** The realised P&L of a history entry; entries without P&L count as 0. */
  function RealisedPnl(t: AiTradeRecord): real {
    t.pnl.GetOr(0.0)
  }

  /**
   * Cash plus the cost basis of the holdings minus the realised P&L: the capital put
   * into the AI portfolio. No trade changes it.
   */
  function ContributedCapital(cash: real, items: seq<AiPortfolioItem>, history: seq<AiTradeRecord>): real {
    cash + Sum(items, CostBasis) - Sum(history, RealisedPnl)
  }

  /** How far the replayed history is from the stored AI cash balance. No trade changes it. */
  function Drift(row: SettingsRow, history: seq<AiTradeRecord>): real {
    Replay(row.initialAiCapital, history) - row.aiCashBalance
  }

  /** The P&L a SELL realises: (price - avg cost) * quantity. */
  function SalePnl(avgCost: real, quantity: int, price: real): real {
    (price - avgCost) * quantity as real
  }

  /** The quantity of `symbol` held, 0 when it is not held. */
  function HeldQuantity(items: seq<AiPortfolioItem>, symbol: string): int {
    match FindAi(items, symbol)
    case Some(i) => items[i].quantity
    case None => 0
  }

  /** With every symbol held once, two holdings of the same symbol are the same holding. */
  lemma OnlyHolding(items: seq<AiPortfolioItem>, x: AiPortfolioItem, y: AiPortfolioItem)
    requires ItemsValid(items) && x in items && y in items && x.symbol == y.symbol
    ensures x == y
  {
    var i :| 0 <= i < |items| && items[i] == x;
    var j :| 0 <= j < |items| && items[j] == y;
    assert i == j;
  }

  predicate CanSell(items: seq<AiPortfolioItem>, symbol: string, quantity: int) {
    FindAi(items, symbol).Some? && items[FindAi(items, symbol).value].quantity >= quantity
  }

  lemma AverageTimesQuantity(total: real, quantity: int)
    requires quantity > 0
    ensures (total / quantity as real) * quantity as real == total
  {
  }

  // ---------------------------------------------------------------------------
  // Holding transitions

  /** Replacing a holding by a well-formed one of the same symbol keeps the ledger well formed. */
  lemma UpdateKeepsValid(items: seq<AiPortfolioItem>, i: nat, x: AiPortfolioItem)
    requires ItemsValid(items) && i < |items| && ItemValid(x) && x.symbol == items[i].symbol
    ensures ItemsValid(items[i := x])
    ensures forall y :: y in items && y.symbol != x.symbol ==> y in items[i := x]
    ensures forall y :: y in items[i := x] && y.symbol != x.symbol ==> y in items
  {
    var r := items[i := x];
    forall y | y in items && y.symbol != x.symbol ensures y in r {
      var k :| 0 <= k < |items| && items[k] == y;
      assert r[k] == y;
    }
  }

  /** Appending a well-formed holding of a symbol not yet held keeps the ledger well formed. */
  lemma AppendKeepsValid(items: seq<AiPortfolioItem>, x: AiPortfolioItem)
    requires ItemsValid(items) && ItemValid(x) && FindAi(items, x.symbol).None?
    ensures ItemsValid(items + [x])
    ensures FindAi(items + [x], x.symbol).Some?
  {
    var r := items + [x];
    assert r[|items|] == x;
  }

  /** Deleting a holding keeps the ledger well formed and leaves its symbol unheld. */
  lemma RemoveKeepsValid(items: seq<AiPortfolioItem>, i: nat)
    requires ItemsValid(items) && i < |items|
    ensures ItemsValid(items[..i] + items[i + 1..])
    ensures FindAi(items[..i] + items[i + 1..], items[i].symbol).None?
    ensures forall y :: y in items && y.symbol != items[i].symbol ==> y in items[..i] + items[i + 1..]
    ensures forall y :: y in items[..i] + items[i + 1..] ==> y in items
  {
    var r := items[..i] + items[i + 1..];
    assert forall j :: 0 <= j < |r| ==> r[j] == items[if j < i then j else j + 1];
    forall y | y in items && y.symbol != items[i].symbol ensures y in r {
      var k :| 0 <= k < |items| && items[k] == y;
      assert k != i;
      if k < i { assert r[k] == y; } else { assert r[k - 1] == y; }
    }
  }

  /** A holding after `quantity` more shares were bought at `price`. */
  function Grow(it: AiPortfolioItem, quantity: int, price: real): AiPortfolioItem
    requires it.quantity + quantity > 0
  {
    var newTotal := it.totalCost + quantity as real * price;
    var newQty := it.quantity + quantity;
    it.(avgCost := newTotal / newQty as real, quantity := newQty, totalCost := newTotal)
  }

  lemma GrowKeepsLedger(items: seq<AiPortfolioItem>, i: nat, quantity: int, price: real)
    requires ItemsValid(items) && i < |items| && quantity > 0 && price > 0.0
    ensures ItemsValid(items[i := Grow(items[i], quantity, price)])
    ensures Sum(items[i := Grow(items[i], quantity, price)], CostBasis)
         == Sum(items, CostBasis) + quantity as real * price
    ensures forall y :: y in items && y.symbol != items[i].symbol ==> y in items[i := Grow(items[i], quantity, price)]
    ensures forall y :: y in items[i := Grow(items[i], quantity, price)] && y.symbol != items[i].symbol ==> y in items
  {
    var it := items[i];
    var grown := Grow(it, quantity, price);
    AverageTimesQuantity(grown.totalCost, grown.quantity);
    assert ItemValid(grown);
    UpdateKeepsValid(items, i, grown);
    SumUpdate(items, i, grown, CostBasis);
  }

  /**
   * The AI holdings after buying `quantity` at `price`: an existing holding of the symbol
   * grows, its average cost becoming the new total cost over the new quantity; otherwise a
   * new holding is appended at cost `price`.
   */
  function BuyInto(items: seq<AiPortfolioItem>, symbol: string, quantity: int, price: real, now: Instant)
    : (r: seq<AiPortfolioItem>)
    requires ItemsValid(items) && quantity > 0 && price > 0.0
    ensures ItemsValid(r)
    ensures Sum(r, CostBasis) == Sum(items, CostBasis) + quantity as real * price
    ensures FindAi(r, symbol).Some?
    ensures forall x :: x in items && x.symbol != symbol ==> x in r
    ensures forall x :: x in r && x.symbol != symbol ==> x in items
    ensures FindAi(items, symbol).Some? ==>
      var i := FindAi(items, symbol).value;
      && |r| == |items| && r == items[i := r[i]]
      && r[i].quantity == items[i].quantity + quantity
      && r[i].totalCost == items[i].totalCost + quantity as real * price
      && r[i].avgCost == r[i].totalCost / r[i].quantity as real
      && r[i].purchasedAt == items[i].purchasedAt && r[i].currentPrice == items[i].currentPrice
    ensures FindAi(items, symbol).None? ==>
      r == items + [AiPortfolioItem(symbol, quantity, price, price, quantity as real * price, now)]
  {
    match FindAi(items, symbol)
    case Some(i) =>
      GrowKeepsLedger(items, i, quantity, price);
      items[i := Grow(items[i], quantity, price)]
    case None =>
      var newItem := AiPortfolioItem(symbol, quantity, price, price, quantity as real * price, now);
      AppendKeepsValid(items, newItem);
      SumSnoc(items, newItem, CostBasis);
      items + [newItem]
  }

  /** Selling at the average cost leaves a total cost that is still the average times what is held. */
  lemma ShrunkCost(total: real, avg: real, held: int, sold: int)
    requires total == avg * held as real
    ensures total - avg * sold as real == avg * (held - sold) as real
  {
    assert (held - sold) as real == held as real - sold as real;
  }

  /** Selling a whole holding deletes it and takes its average cost times its quantity off the cost basis. */
  lemma RemoveKeepsLedger(items: seq<AiPortfolioItem>, i: nat, quantity: int)
    requires ItemsValid(items) && i < |items| && quantity == items[i].quantity
    ensures ItemsValid(items[..i] + items[i + 1..])
    ensures FindAi(items[..i] + items[i + 1..], items[i].symbol).None?
    ensures Sum(items[..i] + items[i + 1..], CostBasis) == Sum(items, CostBasis) - items[i].avgCost * quantity as real
    ensures forall y :: y in items && y.symbol != items[i].symbol ==> y in items[..i] + items[i + 1..]
    ensures forall y :: y in items[..i] + items[i + 1..] ==> y in items
  {
    assert ItemValid(items[i]);
    assert CostBasis(items[i]) == items[i].avgCost * quantity as real;
    RemoveKeepsValid(items, i);
    SumRemove(items, i, CostBasis);
  }

  /** A holding after `quantity` of its shares were sold: the average cost stays. */
  function Shrink(it: AiPortfolioItem, quantity: int): AiPortfolioItem {
    it.(quantity := it.quantity - quantity, totalCost := it.totalCost - it.avgCost * quantity as real)
  }

  /** Selling part of a holding keeps the ledger well formed and takes its average cost times the quantity off the cost basis. */
  lemma ShrinkKeepsLedger(items: seq<AiPortfolioItem>, i: nat, quantity: int)
    requires ItemsValid(items) && i < |items| && 0 < quantity < items[i].quantity
    ensures ItemsValid(items[i := Shrink(items[i], quantity)])
    ensures Sum(items[i := Shrink(items[i], quantity)], CostBasis)
         == Sum(items, CostBasis) - items[i].avgCost * quantity as real
    ensures forall y :: y in items && y.symbol != items[i].symbol ==> y in items[i := Shrink(items[i], quantity)]
    ensures forall y :: y in items[i := Shrink(items[i], quantity)] && y.symbol != items[i].symbol ==> y in items
  {
    var it := items[i];
    assert ItemValid(it);
    var smaller := Shrink(it, quantity);
    ShrunkCost(it.totalCost, it.avgCost, it.quantity, quantity);
    UpdateKeepsValid(items, i, smaller);
    SumUpdate(items, i, smaller, CostBasis);
  }

  /**
   * The AI holdings after selling `quantity` of the holding at index `i`: the holding is
   * deleted when the whole quantity goes, otherwise its quantity and total cost shrink and
   * its average cost stays.
   */
  function SellFrom(items: seq<AiPortfolioItem>, i: nat, quantity: int): (r: seq<AiPortfolioItem>)
    requires ItemsValid(items) && i < |items| && 0 < quantity <= items[i].quantity
    ensures ItemsValid(r)
    ensures Sum(r, CostBasis) == Sum(items, CostBasis) - items[i].avgCost * quantity as real
    ensures forall x :: x in items && x.symbol != items[i].symbol ==> x in r
    ensures forall x :: x in r && x.symbol != items[i].symbol ==> x in items
    ensures quantity == items[i].quantity ==>
      r == items[..i] + items[i + 1..] && FindAi(r, items[i].symbol).None?
    ensures quantity < items[i].quantity ==>
      && |r| == |items| && r == items[i := r[i]]
      && r[i].quantity == items[i].quantity - quantity
      && r[i].avgCost == items[i].avgCost
      && r[i].totalCost == items[i].totalCost - items[i].avgCost * quantity as real
      && r[i].symbol == items[i].symbol && r[i].currentPrice == items[i].currentPrice
      && r[i].purchasedAt == items[i].purchasedAt
    ensures HeldQuantity(r, items[i].symbol) == items[i].quantity - quantity
    ensures forall x :: x in r && x.symbol == items[i].symbol ==> x.currentPrice == items[i].currentPrice
  {
    var it := items[i];
    assert ItemValid(it);
    if it.quantity == quantity then
      RemoveKeepsLedger(items, i, quantity);
      NotHeld(items[..i] + items[i + 1..], it.symbol);
      items[..i] + items[i + 1..]
    else
      ShrinkKeepsLedger(items, i, quantity);
      var r := items[i := Shrink(it, quantity)];
      FindAiAt(r, i);
      assert forall x :: x in r && x.symbol == it.symbol ==> x == r[i] by {
        forall x | x in r && x.symbol == it.symbol ensures x == r[i] {
          OnlyHolding(r, x, r[i]);
        }
      }
      r
  }

  // ---------------------------------------------------------------------------
  // execute_trade

  /** A BUY moves quantity * price from cash into cost basis and leaves the replay drift alone. */
  lemma BuyKeepsBooks(row: SettingsRow, items: seq<AiPortfolioItem>, history: seq<AiTradeRecord>,
                      symbol: string, quantity: int, price: real, now: Instant, reason: string)
    requires ItemsValid(items) && quantity > 0 && price > 0.0
    ensures var record := AiTradeRecord(symbol, BUY, quantity, price, None, now, reason);
      var after := row.(aiCashBalance := row.aiCashBalance - quantity as real * price);
      && ContributedCapital(after.aiCashBalance, BuyInto(items, symbol, quantity, price, now), history + [record])
         == ContributedCapital(row.aiCashBalance, items, history)
      && Drift(after, history + [record]) == Drift(row, history)
  {
    var record := AiTradeRecord(symbol, BUY, quantity, price, None, now, reason);
    var cost := TradeValue(quantity, price);
    var after := row.(aiCashBalance := row.aiCashBalance - cost);
    var bought := BuyInto(items, symbol, quantity, price, now);
    assert Sum(bought, CostBasis) == Sum(items, CostBasis) + cost;
    assert RealisedPnl(record) == 0.0;
    SumSnoc(history, record, RealisedPnl);
    assert CashEffect(record) == -cost;
    ReplaySnoc(row.initialAiCapital, history, record);
    assert Drift(after, history + [record]) == Drift(row, history);
  }

  /**
   * A SELL adds quantity * price to cash, removes avg cost * quantity of cost basis and
   * realises the difference, and leaves the replay drift alone.
   */
  lemma SellKeepsBooks(row: SettingsRow, items: seq<AiPortfolioItem>, history: seq<AiTradeRecord>,
                       i: nat, quantity: int, price: real, now: Instant, reason: string)
    requires ItemsValid(items) && i < |items| && 0 < quantity <= items[i].quantity && price > 0.0
    ensures var pnl := SalePnl(items[i].avgCost, quantity, price);
      var record := AiTradeRecord(items[i].symbol, SELL, quantity, price, Some(pnl), now, reason);
      var after := row.(aiCashBalance := row.aiCashBalance + quantity as real * price);
      && ContributedCapital(after.aiCashBalance, SellFrom(items, i, quantity), history + [record])
         == ContributedCapital(row.aiCashBalance, items, history)
      && Drift(after, history + [record]) == Drift(row, history)
  {
    var proceeds, basis := TradeValue(quantity, price), items[i].avgCost * quantity as real;
    var pnl := SalePnl(items[i].avgCost, quantity, price);
    assert pnl == proceeds - basis;
    var record := AiTradeRecord(items[i].symbol, SELL, quantity, price, Some(pnl), now, reason);
    assert Sum(SellFrom(items, i, quantity), CostBasis) == Sum(items, CostBasis) - basis;
    SumSnoc(history, record, RealisedPnl);
    assert Sum(history + [record], RealisedPnl) == Sum(history, RealisedPnl) + pnl;
    assert CashEffect(record) == proceeds;
    ReplaySnoc(row.initialAiCapital, history, record);
    assert Replay(row.initialAiCapital, history + [record]) == Replay(row.initialAiCapital, history) + proceeds;
  }

  /** The BUY branch of `execute_trade`, once the AI cash balance covers quantity * price. */
  method ApplyBuy(db: Database, symbol: string, quantity: int, price: real, reason: string, now: Instant)
    returns (sent: seq<AiNotification>)
    requires db.settings.Some? && ItemsValid(db.aiItems)
    requires quantity > 0 && price > 0.0 && db.settings.value.aiCashBalance >= quantity as real * price
    modifies db
    ensures db.settings == Some(old(db.settings.value).(aiCashBalance := old(db.settings.value.aiCashBalance) - quantity as real * price))
    ensures db.items == old(db.items) && db.transactions == old(db.transactions) && db.alerts == old(db.alerts)
    ensures db.aiItems == BuyInto(old(db.aiItems), symbol, quantity, price, now)
    ensures db.aiHistory == old(db.aiHistory) + [AiTradeRecord(symbol, BUY, quantity, price, None, now, reason)]
    ensures sent == [AiNotification(TradeTitle, Bought(symbol, quantity, price, reason), TradeKind, now)]
    ensures db.aiNotifications == old(db.aiNotifications) + sent
    ensures ContributedCapital(db.settings.value.aiCashBalance, db.aiItems, db.aiHistory)
         == old(ContributedCapital(db.settings.value.aiCashBalance, db.aiItems, db.aiHistory))
    ensures Drift(db.settings.value, db.aiHistory) == old(Drift(db.settings.value, db.aiHistory))
  {
    var row := db.settings.value;
    var items := db.aiItems;
    var history := db.aiHistory;
    var record := AiTradeRecord(symbol, BUY, quantity, price, None, now, reason);
    var after := row.(aiCashBalance := row.aiCashBalance - quantity as real * price);
    var bought := BuyInto(items, symbol, quantity, price, now);
    BuyKeepsBooks(row, items, history, symbol, quantity, price, now, reason);
    db.settings := Some(after);
    db.aiItems := bought;
    db.aiHistory := history + [record];
    sent := [AiNotification(TradeTitle, Bought(symbol, quantity, price, reason), TradeKind, now)];
    db.aiNotifications := db.aiNotifications + sent;
  }

  /** The SELL branch of `execute_trade`, for the holding at index `i` of at least `quantity`. */
  method ApplySell(db: Database, i: nat, quantity: int, price: real, reason: string, now: Instant)
    returns (sent: seq<AiNotification>)
    requires db.settings.Some? && ItemsValid(db.aiItems)
    requires i < |db.aiItems| && 0 < quantity <= db.aiItems[i].quantity && price > 0.0
    modifies db
    ensures db.settings == Some(old(db.settings.value).(aiCashBalance := old(db.settings.value.aiCashBalance) + TradeValue(quantity, price)))
    ensures db.items == old(db.items) && db.transactions == old(db.transactions) && db.alerts == old(db.alerts)
    ensures db.aiItems == SellFrom(old(db.aiItems), i, quantity)
    ensures var pnl := SalePnl(old(db.aiItems[i].avgCost), quantity, price);
      && db.aiHistory == old(db.aiHistory) + [AiTradeRecord(old(db.aiItems[i].symbol), SELL, quantity, price, Some(pnl), now, reason)]
      && sent == [AiNotification(TradeTitle, Sold(old(db.aiItems[i].symbol), quantity, price, pnl, reason), TradeKind, now)]
    ensures db.aiNotifications == old(db.aiNotifications) + sent
    ensures ContributedCapital(db.settings.value.aiCashBalance, db.aiItems, db.aiHistory)
         == old(ContributedCapital(db.settings.value.aiCashBalance, db.aiItems, db.aiHistory))
    ensures Drift(db.settings.value, db.aiHistory) == old(Drift(db.settings.value, db.aiHistory))
  {
    var row := db.settings.value;
    var items := db.aiItems;
    var history := db.aiHistory;
    var item := items[i];
    var pnl := SalePnl(item.avgCost, quantity, price);
    var record := AiTradeRecord(item.symbol, SELL, quantity, price, Some(pnl), now, reason);
    var after := row.(aiCashBalance := row.aiCashBalance + quantity as real * price);
    var sold := SellFrom(items, i, quantity);
    SellKeepsBooks(row, items, history, i, quantity, price, now, reason);
    db.settings := Some(after);
    db.aiItems := sold;
    db.aiHistory := history + [record];
    sent := [AiNotification(TradeTitle, Sold(item.symbol, quantity, price, pnl, reason), TradeKind, now)];
    db.aiNotifications := db.aiNotifications + sent;
  }

  /**
   * `execute_trade`: a BUY the AI cash balance cannot pay for, a SELL of a symbol not held
   * or of more than is held, and any other action change nothing. A BUY pays quantity *
   * price from the cash balance into the holding; a SELL adds quantity * price to the cash
   * balance and records P&L (price - avg cost) * quantity. Each executed trade appends one
   * history entry and one notification, which is also returned for the caller's list.
   */
  method ExecuteTrade(db: Database, symbol: string, action: string, quantity: int, price: real,
                      reason: string, now: Instant) returns (sent: seq<AiNotification>)
    requires db.settings.Some? && ItemsValid(db.aiItems)
    requires quantity > 0 && price > 0.0
    modifies db
    ensures db.settings.Some? && ItemsValid(db.aiItems)
    ensures db.settings.value == old(db.settings.value).(aiCashBalance := db.settings.value.aiCashBalance)
    ensures db.items == old(db.items) && db.transactions == old(db.transactions) && db.alerts == old(db.alerts)
    ensures db.aiNotifications == old(db.aiNotifications) + sent
    ensures ContributedCapital(db.settings.value.aiCashBalance, db.aiItems, db.aiHistory)
         == old(ContributedCapital(db.settings.value.aiCashBalance, db.aiItems, db.aiHistory))
    ensures Drift(db.settings.value, db.aiHistory) == old(Drift(db.settings.value, db.aiHistory))
    ensures forall x :: x in old(db.aiItems) && x.symbol != symbol ==> x in db.aiItems
    ensures forall x :: x in db.aiItems && x.symbol != symbol ==> x in old(db.aiItems)
    ensures action == BUY && old(db.settings.value.aiCashBalance) < quantity as real * price ==>
      unchanged(db) && sent == []
    ensures action == BUY && old(db.settings.value.aiCashBalance) >= quantity as real * price ==>
      && db.settings.value.aiCashBalance == old(db.settings.value.aiCashBalance) - quantity as real * price
      && db.aiItems == BuyInto(old(db.aiItems), symbol, quantity, price, now)
      && db.aiHistory == old(db.aiHistory) + [AiTradeRecord(symbol, BUY, quantity, price, None, now, reason)]
      && sent == [AiNotification(TradeTitle, Bought(symbol, quantity, price, reason), TradeKind, now)]
    ensures action == SELL && !CanSell(old(db.aiItems), symbol, quantity) ==> unchanged(db) && sent == []
    ensures action == SELL && CanSell(old(db.aiItems), symbol, quantity) ==>
      var i := FindAi(old(db.aiItems), symbol).value;
      var pnl := SalePnl(old(db.aiItems)[i].avgCost, quantity, price);
      && db.settings.value.aiCashBalance == old(db.settings.value.aiCashBalance) + quantity as real * price
      && db.aiItems == SellFrom(old(db.aiItems), i, quantity)
      && db.aiHistory == old(db.aiHistory) + [AiTradeRecord(symbol, SELL, quantity, price, Some(pnl), now, reason)]
      && sent == [AiNotification(TradeTitle, Sold(symbol, quantity, price, pnl, reason), TradeKind, now)]
    ensures action != BUY && action != SELL ==> unchanged(db) && sent == []
  {
    sent := [];
    if action == BUY {
      if db.settings.value.aiCashBalance < quantity as real * price {
        return;  // insufficient funds
      }
      sent := ApplyBuy(db, symbol, quantity, price, reason, now);
    } else if action == SELL {
      var found := FindAi(db.aiItems, symbol);
      if found.None? || db.aiItems[found.value].quantity < quantity {
        return;  // cannot sell
      }
      assert db.aiItems[found.value].symbol == symbol;
      sent := ApplySell(db, found.value, quantity, price, reason, now);
    }
  }

  // ---------------------------------------------------------------------------
  // Position sizing (_evaluate_and_trade)

  /** Python's `int()` on a number: truncation toward zero. */
  function Trunc(x: real): (r: int)
    ensures x >= 0.0 ==> r as real <= x < r as real + 1.0
    ensures x < 0.0 ==> r as real - 1.0 < x <= r as real
  {
    if x >= 0.0 then x.Floor else -((-x).Floor)
  }

  /**
   * The number of shares `_evaluate_and_trade` buys: as many as 10% of the AI cash
   * balance pays for, and at least one.
   */
  function PositionSize(cash: real, price: real): (q: int)
    requires price > 0.0
    ensures q >= 1
    ensures q > 1 ==> q as real * price <= cash * 0.10 < (q + 1) as real * price
    ensures q == 1 ==> cash * 0.10 < 2.0 * price
  {
    var x := cash * 0.10 / price;
    var t := Trunc(x);
    assert x * price == cash * 0.10;
    ScaleLe(t as real, x, price);
    ScaleLt(x, t as real + 1.0, price);
    ScaleLt(x, 2.0, price);
    assert t > 1 ==> x >= 0.0;
    assert t > 1 ==> cash * 0.10 < (t as real + 1.0) * price;
    assert (t as real + 1.0) * price == (t + 1) as real * price;
    if t < 1 then 1 else t
  }

  lemma ScaleLe(a: real, b: real, p: real)
    requires p > 0.0
    ensures a <= b ==> a * p <= b * p
  {
  }

  lemma ScaleLt(a: real, b: real, p: real)
    requires p > 0.0
    ensures a < b ==> a * p < b * p
  {
  }

  /** The sized purchase fits the cash balance exactly when one share does. */
  lemma SizedBuyAffordable(cash: real, price: real)
    requires price > 0.0
    ensures PositionSize(cash, price) as real * price <= cash <==> price <= cash
  {
    var q := PositionSize(cash, price);
    if q > 1 {
      assert price <= q as real * price;
    }
  }

  /**
   * `_evaluate_and_trade` for its one caller, which passes the BUY action: a non-positive
   * price does nothing; otherwise the sized purchase is executed when the AI cash balance
   * covers it, and nothing happens when it does not.
   */
  method EvaluateAndTrade(db: Database, symbol: string, price: real, strategy: string, now: Instant)
    returns (sent: seq<AiNotification>)
    requires db.settings.Some? && ItemsValid(db.aiItems)
    modifies db
    ensures db.settings.Some? && ItemsValid(db.aiItems)
    ensures db.settings.value == old(db.settings.value).(aiCashBalance := db.settings.value.aiCashBalance)
    ensures db.items == old(db.items) && db.transactions == old(db.transactions) && db.alerts == old(db.alerts)
    ensures db.aiNotifications == old(db.aiNotifications) + sent
    ensures ContributedCapital(db.settings.value.aiCashBalance, db.aiItems, db.aiHistory)
         == old(ContributedCapital(db.settings.value.aiCashBalance, db.aiItems, db.aiHistory))
    ensures Drift(db.settings.value, db.aiHistory) == old(Drift(db.settings.value, db.aiHistory))
    ensures forall x :: x in old(db.aiItems) && x.symbol != symbol ==> x in db.aiItems
    ensures forall x :: x in db.aiItems && x.symbol != symbol ==> x in old(db.aiItems)
    ensures db.settings.value.aiCashBalance <= old(db.settings.value.aiCashBalance)
    ensures |old(db.aiHistory)| <= |db.aiHistory| <= |old(db.aiHistory)| + 1
    ensures db.aiHistory[..|old(db.aiHistory)|] == old(db.aiHistory)
    ensures forall k :: |old(db.aiHistory)| <= k < |db.aiHistory| ==>
      db.aiHistory[k].action == BUY && db.aiHistory[k].symbol == symbol
    ensures price <= 0.0 || price > old(db.settings.value.aiCashBalance) ==> unchanged(db) && sent == []
    ensures 0.0 < price <= old(db.settings.value.aiCashBalance) ==>
      var q := PositionSize(old(db.settings.value.aiCashBalance), price);
      && db.settings.value.aiCashBalance == old(db.settings.value.aiCashBalance) - q as real * price
      && db.aiItems == BuyInto(old(db.aiItems), symbol, q, price, now)
      && db.aiHistory == old(db.aiHistory) + [AiTradeRecord(symbol, BUY, q, price, None, now, strategy)]
      && sent == [AiNotification(TradeTitle, Bought(symbol, q, price, strategy), TradeKind, now)]
    ensures Logged(old(db.aiHistory), db.aiHistory, sent)
  {
    sent := [];
    if price <= 0.0 {
      return;
    }
    var cash := db.settings.value.aiCashBalance;
    var qty := PositionSize(cash, price);
    var cost := qty as real * price;
    SizedBuyAffordable(cash, price);
    assert cost <= cash <==> price <= cash;
    if cost <= cash {
      ghost var history := db.aiHistory;
      sent := ExecuteTrade(db, symbol, BUY, qty, price, strategy, now);
      assert db.settings.value.aiCashBalance == cash - cost;
      assert db.aiHistory == history + [AiTradeRecord(symbol, BUY, qty, price, None, now, strategy)];
      assert db.aiHistory[..|history|] == history;
    }
  }

  // ---------------------------------------------------------------------------
  // Trade notes and sized purchases

  /** The "AI Trade Executed" notification `execute_trade` sends beside the history entry `t`. */
  function TradeNote(t: AiTradeRecord): AiNotification {
    var body := if t.action == BUY then Bought(t.symbol, t.quantity, t.price, t.reason)
                else Sold(t.symbol, t.quantity, t.price, t.pnl.GetOr(0.0), t.reason);
    AiNotification(TradeTitle, body, TradeKind, t.timestamp)
  }

  /** The trade notes of `entries`, in their order. */
  function TradeNotes(entries: seq<AiTradeRecord>): seq<AiNotification> {
    if entries == [] then [] else TradeNotes(entries[..|entries| - 1]) + [TradeNote(entries[|entries| - 1])]
  }

  /** There is one trade note per entry, the note of the entry at the same place. */
  lemma {:induction false} TradeNotesEach(entries: seq<AiTradeRecord>)
    ensures |TradeNotes(entries)| == |entries|
    ensures forall j :: 0 <= j < |entries| ==> TradeNotes(entries)[j] == TradeNote(entries[j])
  {
    if entries != [] {
      TradeNotesEach(entries[..|entries| - 1]);
    }
  }

  /** The notes of two stretches of entries are the notes of the first, then of the second. */
  lemma {:induction false} TradeNotesAppend(a: seq<AiTradeRecord>, b: seq<AiTradeRecord>)
    ensures TradeNotes(a + b) == TradeNotes(a) + TradeNotes(b)
  {
    if b == [] {
      assert a + b == a;
    } else {
      assert (a + b)[..|a + b| - 1] == a + b[..|b| - 1];
      TradeNotesAppend(a, b[..|b| - 1]);
    }
  }

  /**
   * From `history0` to `history` the history only grew, and `sent` holds exactly one trade
   * note per new entry, in order: what `execute_trade` does on every trade.
   */
  predicate Logged(history0: seq<AiTradeRecord>, history: seq<AiTradeRecord>, sent: seq<AiNotification>) {
    |history0| <= |history| && history[..|history0|] == history0 && sent == TradeNotes(history[|history0|..])
  }

  /** Two stretches of trading, each sending a note per entry, send a note per entry together. */
  lemma LoggedCompose(history0: seq<AiTradeRecord>, history1: seq<AiTradeRecord>, history2: seq<AiTradeRecord>,
                      sent1: seq<AiNotification>, sent2: seq<AiNotification>)
    requires Logged(history0, history1, sent1) && Logged(history1, history2, sent2)
    ensures Logged(history0, history2, sent1 + sent2)
  {
    PrefixOfPrefix(history1, history2, |history0|);
    assert history2[|history0|..] == history1[|history0|..] + history2[|history1|..] by {
      assert history2[..|history1|] == history1;
    }
    TradeNotesAppend(history1[|history0|..], history2[|history1|..]);
  }

  /**
   * The entry `t` is a purchase `_evaluate_and_trade` makes at `price` with `cash` before it:
   * a BUY of the sized quantity at that price, made only when one share is affordable.
   */
  predicate SizedAt(t: AiTradeRecord, cash: real, price: real) {
    && t.action == BUY && t.price == price && t.pnl == None
    && 0.0 < price <= cash && t.quantity == PositionSize(cash, price)
  }

  /**
   * From `history0` and `cash0` to `history` and `cash` only sized purchases were made at
   * the quotes in `quotes`: the history only grew, each new entry is `SizedAt` the cash
   * left before it and its symbol's quote, and the cash fell by exactly what they cost.
   */
  predicate Purchases(history0: seq<AiTradeRecord>, cash0: real, history: seq<AiTradeRecord>, cash: real,
                      quotes: map<string, real>)
  {
    && |history0| <= |history| && history[..|history0|] == history0
    && cash == cash0 - Sum(history[|history0|..], Notional)
    && forall j :: |history0| <= j < |history| ==>
         SizedAt(history[j], cash0 - Sum(history[|history0|..j], Notional), Quote(quotes, history[j].symbol))
  }

  /** Within a history that extends `history1`, the entries after `history0` split at `history1`'s end. */
  lemma SumAcross(history0: seq<AiTradeRecord>, history1: seq<AiTradeRecord>, history2: seq<AiTradeRecord>, j: nat)
    requires |history0| <= |history1| <= j <= |history2| && history2[..|history1|] == history1
    ensures Sum(history2[|history0|..j], Notional)
         == Sum(history1[|history0|..], Notional) + Sum(history2[|history1|..j], Notional)
  {
    assert history2[|history0|..j] == history1[|history0|..] + history2[|history1|..j];
    SumConcat(history1[|history0|..], history2[|history1|..j], Notional);
  }

  /** The entries of `history1` are those of any history extending it, with the same cash before each. */
  lemma SizedBefore(history0: seq<AiTradeRecord>, cash0: real, history1: seq<AiTradeRecord>,
                    history2: seq<AiTradeRecord>, quotes: map<string, real>, j: nat)
    requires |history0| <= j < |history1| <= |history2| && history2[..|history1|] == history1
    requires SizedAt(history1[j], cash0 - Sum(history1[|history0|..j], Notional), Quote(quotes, history1[j].symbol))
    ensures SizedAt(history2[j], cash0 - Sum(history2[|history0|..j], Notional), Quote(quotes, history2[j].symbol))
  {
    assert history2[j] == history2[..|history1|][j];
    assert history2[|history0|..j] == history1[|history0|..j];
  }

  /** Two stretches of sized purchases, the second starting where the first ends, are one. */
  lemma PurchasesCompose(history0: seq<AiTradeRecord>, cash0: real, history1: seq<AiTradeRecord>, cash1: real,
                         history2: seq<AiTradeRecord>, cash2: real, quotes: map<string, real>)
    requires Purchases(history0, cash0, history1, cash1, quotes)
    requires Purchases(history1, cash1, history2, cash2, quotes)
    ensures Purchases(history0, cash0, history2, cash2, quotes)
  {
    PrefixOfPrefix(history1, history2, |history0|);
    SumAcross(history0, history1, history2, |history2|);
    assert history2[|history0|..|history2|] == history2[|history0|..];
    assert history2[|history1|..|history2|] == history2[|history1|..];
    forall j | |history0| <= j < |history2|
      ensures SizedAt(history2[j], cash0 - Sum(history2[|history0|..j], Notional), Quote(quotes, history2[j].symbol))
    {
      SizedAcross(history0, cash0, history1, cash1, history2, cash2, quotes, j);
    }
  }

  /** One entry of two composed stretches of sized purchases is sized at the cash left before it. */
  lemma SizedAcross(history0: seq<AiTradeRecord>, cash0: real, history1: seq<AiTradeRecord>, cash1: real,
                    history2: seq<AiTradeRecord>, cash2: real, quotes: map<string, real>, j: nat)
    requires Purchases(history0, cash0, history1, cash1, quotes)
    requires Purchases(history1, cash1, history2, cash2, quotes)
    requires |history0| <= j < |history2|
    ensures SizedAt(history2[j], cash0 - Sum(history2[|history0|..j], Notional), Quote(quotes, history2[j].symbol))
  {
    if j < |history1| {
      SizedBefore(history0, cash0, history1, history2, quotes, j);
    } else {
      SumAcross(history0, history1, history2, j);
    }
  }

  /** Appending one purchase sized at the cash and its symbol's quote is a stretch of sized purchases. */
  lemma OnePurchase(history: seq<AiTradeRecord>, cash: real, t: AiTradeRecord, quotes: map<string, real>)
    requires SizedAt(t, cash, Quote(quotes, t.symbol))
    ensures Purchases(history, cash, history + [t], cash - t.quantity as real * t.price, quotes)
  {
    var history' := history + [t];
    assert history'[..|history|] == history;
    assert history'[|history|..] == [t];
    assert Sum([t], Notional) == Notional(t) + Sum([t][1..], Notional);
    assert history'[|history|..|history|] == [];
    forall j | |history| <= j < |history'|
      ensures SizedAt(history'[j], cash - Sum(history'[|history|..j], Notional), Quote(quotes, history'[j].symbol))
    {
      assert j == |history| && history'[j] == t;
    }
  }

  /**
   * What `_evaluate_and_trade` does on `symbol` at its quote, in the terms of `Purchases`
   * and `Logged`: it changes nothing, or it appends the sized BUY and its note.
   */
  lemma Evaluated(history0: seq<AiTradeRecord>, cash0: real, quotes: map<string, real>,
                  history: seq<AiTradeRecord>, cash: real, history': seq<AiTradeRecord>, cash': real,
                  symbol: string, strategy: string, now: Instant)
    requires Purchases(history0, cash0, history, cash, quotes)
    requires var price := Quote(quotes, symbol);
      price <= 0.0 || price > cash ==> history' == history && cash' == cash
    requires var price := Quote(quotes, symbol);
      0.0 < price <= cash ==>
        var q := PositionSize(cash, price);
        cash' == cash - q as real * price && history' == history + [AiTradeRecord(symbol, BUY, q, price, None, now, strategy)]
    ensures Purchases(history0, cash0, history', cash', quotes)
  {
    var price := Quote(quotes, symbol);
    if 0.0 < price <= cash {
      var t := AiTradeRecord(symbol, BUY, PositionSize(cash, price), price, None, now, strategy);
      OnePurchase(history, cash, t, quotes);
      PurchasesCompose(history0, cash0, history, cash, history', cash', quotes);
    } else {
      assert history'[|history|..] == [];
      assert Purchases(history, cash, history', cash', quotes);
      PurchasesCompose(history0, cash0, history, cash, history', cash', quotes);
    }
  }

  // ---------------------------------------------------------------------------
  // Position decisions (_analyze_position_with_gpt)

  const LowConfidence := "LOW"
  const BuyMore := "BUY_MORE"

  /**
   * The "quantity" key of a reply: missing, present but not a number (null, text), or an
   * integer. Python's `min` and `>` raise TypeError on the second kind.
   */
  datatype Quantity = Absent | Unusable | Given(n: int)

  /** A decision as the language model returns it: every key may be missing. */
  datatype Decision = Decision(action: Option<string>, quantity: Quantity,
                               confidence: Option<string>, reason: Option<string>)

  /**
   * The position advisor: no API key configured, or a client whose answer for a symbol is
   * in `replies`; a symbol without a reply is one whose call raised.
   */
  datatype Advisor = NoClient | Client(replies: map<string, Decision>)

  /** The rate of return of a position bought at `avgCost` and now priced at `price`. */
  function ReturnRatio(avgCost: real, price: real): real
    requires avgCost > 0.0
  {
    (price - avgCost) / avgCost
  }

  /** What the fallback's take profit sells of `quantity` shares: half, at least one. */
  function TakeProfitQuantity(quantity: int): (r: int)
    ensures r >= 1
    ensures quantity >= 1 ==> r <= quantity
    ensures quantity >= 2 ==> r < quantity && 2 * r <= quantity <= 2 * r + 1
  {
    var half := Trunc(quantity as real * 0.5);
    if half < 1 then 1 else half
  }

  /**
   * The decision without a language model: sell everything below a 5% loss, sell half
   * (at least one share) above a 10% gain, hold otherwise.
   */
  function FallbackDecision(quantity: int, avgCost: real, price: real): (r: Decision)
    requires avgCost > 0.0
    ensures r.confidence == Some(LowConfidence) && r.quantity.Given? && r.action.Some?
    ensures ReturnRatio(avgCost, price) < -0.05 ==> r.action == Some(SELL) && r.quantity == Given(quantity)
    ensures ReturnRatio(avgCost, price) > 0.10 ==>
      r.action == Some(SELL) && r.quantity == Given(TakeProfitQuantity(quantity))
    ensures -0.05 <= ReturnRatio(avgCost, price) <= 0.10 ==> r.action == Some(HOLD) && r.quantity == Given(0)
    ensures quantity >= 1 && r.action == Some(SELL) ==> 1 <= r.quantity.n <= quantity
  {
    var ratio := ReturnRatio(avgCost, price);
    if ratio < -0.05 then
      Decision(Some(SELL), Given(quantity), Some(LowConfidence), Some("Fallback: Stop Loss"))
    else if ratio > 0.10 then
      Decision(Some(SELL), Given(TakeProfitQuantity(quantity)), Some(LowConfidence), Some("Fallback: Take Profit"))
    else
      Decision(Some(HOLD), Given(0), Some(LowConfidence), Some("Fallback: Within range"))
  }

  /**
   * The fallback stops out below 95% of the average cost and takes profit above 110% of
   * it; of two or more shares, only the stop loss sells them all.
   */
  lemma FallbackThresholds(quantity: int, avgCost: real, price: real)
    requires avgCost > 0.0
    ensures FallbackDecision(quantity, avgCost, price).action == Some(SELL) <==>
      price < 0.95 * avgCost || price > 1.10 * avgCost
    ensures quantity >= 2 ==>
      (FallbackDecision(quantity, avgCost, price).quantity == Given(quantity) <==> price < 0.95 * avgCost)
    ensures price < 0.95 * avgCost ==> FallbackDecision(quantity, avgCost, price).quantity == Given(quantity)
    ensures price > 1.10 * avgCost ==> FallbackDecision(quantity, avgCost, price).quantity == Given(TakeProfitQuantity(quantity))
  {
    var ratio := ReturnRatio(avgCost, price);
    assert ratio * avgCost == price - avgCost;
    assert ratio < -0.05 <==> price < 0.95 * avgCost;
    assert ratio > 0.10 <==> price > 1.10 * avgCost;
  }

  /** The reply `_analyze_position_with_gpt` falls back to when the call or its checks raise. */
  const ErrorHold := Decision(Some(HOLD), Given(0), Some(LowConfidence), Some("GPT Error. Holding position for safety."))

  /**
   * The decision for one position. Without a client it is the fallback; a failed call
   * holds; a model SELL is clamped to the held quantity (the held quantity when the model
   * names none), and holds when its quantity is not a number, since `min` raises inside
   * the try; other model answers pass through.
   */
  function AnalyzePosition(advisor: Advisor, symbol: string, quantity: int, avgCost: real, price: real): (r: Decision)
    requires avgCost > 0.0
    ensures advisor.NoClient? ==> r == FallbackDecision(quantity, avgCost, price)
    ensures advisor.Client? && symbol !in advisor.replies ==> r.action == Some(HOLD) && r.quantity == Given(0)
    ensures advisor.Client? && symbol in advisor.replies && advisor.replies[symbol].action != Some(SELL) ==>
      r == advisor.replies[symbol]
    ensures advisor.Client? && symbol in advisor.replies && advisor.replies[symbol].action == Some(SELL) ==>
      var asked := advisor.replies[symbol].quantity;
      && (asked.Unusable? ==> r.action == Some(HOLD) && r.quantity == Given(0))
      && (!asked.Unusable? ==> r == advisor.replies[symbol].(quantity := r.quantity))
      && (asked.Absent? ==> r.quantity == Given(quantity))
      && (asked.Given? && asked.n <= quantity ==> r.quantity == Given(asked.n))
      && (asked.Given? && asked.n > quantity ==> r.quantity == Given(quantity))
    ensures quantity >= 1 && r.action == Some(SELL) ==> r.quantity.Given? && r.quantity.n <= quantity
  {
    match advisor
    case NoClient => FallbackDecision(quantity, avgCost, price)
    case Client(replies) =>
      if symbol !in replies then ErrorHold
      else
        var d := replies[symbol];
        if d.action == Some(SELL) then
          match d.quantity
          case Unusable => ErrorHold
          case Absent => d.(quantity := Given(quantity))
          case Given(asked) => d.(quantity := Given(if asked < quantity then asked else quantity))
        else d
  }

  /**
   * The decision `monitor_portfolio` asks for about the holding of `symbol`. A SELL never
   * asks for more than is held.
   */
  function PositionDecision(items: seq<AiPortfolioItem>, symbol: string, advisor: Advisor, price: real): (d: Decision)
    requires ItemsValid(items) && FindAi(items, symbol).Some?
    ensures d.action == Some(SELL) ==> d.quantity.Given? && d.quantity.n <= items[FindAi(items, symbol).value].quantity
  {
    var it := items[FindAi(items, symbol).value];
    assert ItemValid(it);
    AnalyzePosition(advisor, symbol, it.quantity, it.avgCost, price)
  }

  /** The quantity `monitor_portfolio` reads from a decision, 0 when it names none. */
  function DecidedQuantity(d: Decision): int {
    if d.quantity.Given? then d.quantity.n else 0
  }

  /** A decision `monitor_portfolio` executes: a SELL of a positive quantity. */
  predicate Sells(d: Decision) {
    d.action.GetOr(HOLD) == SELL && DecidedQuantity(d) > 0
  }

  /** What monitoring sells on a decision: its quantity when it is executed, nothing otherwise. */
  function SoldQuantity(d: Decision): int {
    if Sells(d) then DecidedQuantity(d) else 0
  }

  /**
   * A decision on which `monitor_portfolio` raises: `qty > 0` is evaluated for a SELL or a
   * BUY_MORE, and raises TypeError when the quantity is not a number.
   */
  predicate Raises(d: Decision) {
    d.quantity.Unusable? && (d.action == Some(SELL) || d.action == Some(BuyMore))
  }

  /** The trade reason `monitor_portfolio` records for a model decision. */
  function DecisionReason(d: Decision): string {
    "GPT Decision (" + d.confidence.GetOr("UNKNOWN") + "): " + d.reason.GetOr("No reason provided")
  }

  // ---------------------------------------------------------------------------
  // monitor_portfolio

  function Symbols(items: seq<AiPortfolioItem>): set<string> {
    set x | x in items :: x.symbol
  }

  /** With every symbol held once, looking a holding's symbol up finds that holding. */
  lemma FindAiAt(items: seq<AiPortfolioItem>, i: nat)
    requires ItemsValid(items) && i < |items|
    ensures FindAi(items, items[i].symbol) == Some(i)
  {
  }

  /** A symbol is not held exactly when no holding carries it. */
  lemma NotHeld(items: seq<AiPortfolioItem>, symbol: string)
    ensures FindAi(items, symbol).None? <==> forall x :: x in items ==> x.symbol != symbol
  {
    if FindAi(items, symbol).Some? {
      assert items[FindAi(items, symbol).value] in items;
    }
  }

  /**
   * The holdings with the cached price of the one at `i` refreshed: validity, cost basis,
   * the holding's place and every other holding stay as they are.
   */
  function Reprice(items: seq<AiPortfolioItem>, i: nat, price: real): (r: seq<AiPortfolioItem>)
    requires ItemsValid(items) && i < |items|
    ensures |r| == |items| && r[i] == items[i].(currentPrice := price)
    ensures forall j :: 0 <= j < |items| && j != i ==> r[j] == items[j]
    ensures ItemsValid(r) && Sum(r, CostBasis) == Sum(items, CostBasis)
    ensures FindAi(r, items[i].symbol) == Some(i) && HeldQuantity(r, items[i].symbol) == items[i].quantity
    ensures forall y :: y in items && y.symbol != items[i].symbol ==> y in r
    ensures forall y :: y in r && y.symbol != items[i].symbol ==> y in items
    ensures forall y :: y in r && y.symbol == items[i].symbol ==> y.currentPrice == price
  {
    var x := items[i].(currentPrice := price);
    UpdateKeepsValid(items, i, x);
    SumUpdate(items, i, x, CostBasis);
    var r := items[i := x];
    FindAiAt(r, i);
    assert forall y :: y in r && y.symbol == x.symbol ==> y == r[i] by {
      forall y | y in r && y.symbol == x.symbol ensures y == r[i] {
        OnlyHolding(r, y, r[i]);
      }
    }
    r
  }

  /** Every holding of `after` either was in `items` or carries `symbol`: no other symbol appears. */
  lemma NoNewSymbol(items: seq<AiPortfolioItem>, after: seq<AiPortfolioItem>, symbol: string)
    requires forall x :: x in after && x.symbol != symbol ==> x in items
    ensures forall s :: s != symbol && FindAi(items, s).None? ==> FindAi(after, s).None?
  {
    forall s | s != symbol && FindAi(items, s).None? ensures FindAi(after, s).None? {
      NotHeld(items, s);
      NotHeld(after, s);
    }
  }

  /**
   * The AI holdings once the position in `symbol` has been monitored at `price`: its cached
   * price refreshed and, when the decision is a SELL of a positive quantity, that quantity
   * sold. No other holding changes and no symbol appears; without a language model a price
   * below 95% of the average cost removes the holding.
   */
  function MonitoredItems(items: seq<AiPortfolioItem>, symbol: string, advisor: Advisor, price: real)
    : (r: seq<AiPortfolioItem>)
    requires ItemsValid(items) && FindAi(items, symbol).Some? && price > 0.0
    ensures ItemsValid(r)
    ensures forall x :: x in items && x.symbol != symbol ==> x in r
    ensures forall x :: x in r && x.symbol != symbol ==> x in items
    ensures forall s :: s != symbol && FindAi(items, s).None? ==> FindAi(r, s).None?
    ensures advisor.NoClient? ==> forall x :: x in items && x.symbol == symbol && price < 0.95 * x.avgCost ==>
      FindAi(r, symbol).None?
    ensures HeldQuantity(r, symbol)
         == items[FindAi(items, symbol).value].quantity - SoldQuantity(PositionDecision(items, symbol, advisor, price))
    ensures forall x :: x in r && x.symbol == symbol ==> x.currentPrice == price
  {
    var i := FindAi(items, symbol).value;
    var d := PositionDecision(items, symbol, advisor, price);
    var repriced := Reprice(items, i, price);
    var r := if Sells(d) then SellFrom(repriced, i, DecidedQuantity(d)) else repriced;
    NoNewSymbol(items, r, symbol);
    assert forall x :: x in items && x.symbol == symbol ==> x == items[i] by {
      forall x | x in items && x.symbol == symbol ensures x == items[i] {
        var j :| 0 <= j < |items| && items[j] == x;
        FindAiAt(items, j);
      }
    }
    if advisor.NoClient? && price < 0.95 * items[i].avgCost then
      FallbackThresholds(items[i].quantity, items[i].avgCost, price);
      r
    else r
  }

  /** The decision `monitor_portfolio` asks for about the holding `h` at its quote. */
  function HoldingDecision(h: AiPortfolioItem, quotes: map<string, real>, advisor: Advisor): Decision
    requires ItemValid(h)
  {
    AnalyzePosition(advisor, h.symbol, h.quantity, h.avgCost, Quote(quotes, h.symbol))
  }

  /** Monitoring raises on the holding `h`: it is quoted and its decision makes `qty > 0` raise. */
  predicate RaisesOn(h: AiPortfolioItem, quotes: map<string, real>, advisor: Advisor)
    requires ItemValid(h)
  {
    Quote(quotes, h.symbol) > 0.0 && Raises(HoldingDecision(h, quotes, advisor))
  }

  /** Monitoring sells some of the holding `h`, and `execute_trade` commits the session. */
  predicate SellsOn(h: AiPortfolioItem, quotes: map<string, real>, advisor: Advisor)
    requires ItemValid(h)
  {
    Quote(quotes, h.symbol) > 0.0 && Sells(HoldingDecision(h, quotes, advisor))
  }

  /** A holding still held as it was is the one looking its symbol up finds, and is decided on as it is. */
  lemma StepDecision(items: seq<AiPortfolioItem>, h: AiPortfolioItem, quotes: map<string, real>, advisor: Advisor)
    requires ItemsValid(items) && h in items
    ensures FindAi(items, h.symbol).Some? && items[FindAi(items, h.symbol).value] == h
    ensures PositionDecision(items, h.symbol, advisor, Quote(quotes, h.symbol)) == HoldingDecision(h, quotes, advisor)
  {
    NotHeld(items, h.symbol);
    OnlyHolding(items, items[FindAi(items, h.symbol).value], h);
  }

  /** A step that keeps every holding of other symbols keeps the quantity held of each of them. */
  lemma OtherHeldKept(items: seq<AiPortfolioItem>, after: seq<AiPortfolioItem>, symbol: string, s: string)
    requires ItemsValid(items) && ItemsValid(after) && s != symbol
    requires forall x :: x in items && x.symbol != symbol ==> x in after
    requires forall x :: x in after && x.symbol != symbol ==> x in items
    ensures HeldQuantity(after, s) == HeldQuantity(items, s)
  {
    NotHeld(items, s);
    NotHeld(after, s);
    if FindAi(after, s).Some? {
      var y := after[FindAi(after, s).value];
      assert y in items;
      OnlyHolding(items, y, items[FindAi(items, s).value]);
    }
  }

  /**
   * The holdings once `monitor_portfolio` has passed the holdings `done` in order, starting
   * from `items`: each one with a positive quote is monitored as `MonitoredItems` says.
   * Along the loop every holding is still held when it is reached (`MonitorAllEffects`);
   * the lookup guard only keeps the definition total.
   */
  function MonitorAll(items: seq<AiPortfolioItem>, done: seq<AiPortfolioItem>, quotes: map<string, real>,
                      advisor: Advisor): (r: seq<AiPortfolioItem>)
    requires ItemsValid(items)
    ensures ItemsValid(r)
    decreases |done|
  {
    if done == [] then items
    else
      var before := MonitorAll(items, done[..|done| - 1], quotes, advisor);
      var symbol := done[|done| - 1].symbol;
      if Quote(quotes, symbol) > 0.0 && FindAi(before, symbol).Some? then
        MonitoredItems(before, symbol, advisor, Quote(quotes, symbol))
      else before
  }

  /**
   * How many of the holdings `done` had been passed at the last commit: `execute_trade`
   * commits after each sale, and monitoring commits nothing else before it ends.
   */
  function CommittedPrefix(done: seq<AiPortfolioItem>, quotes: map<string, real>, advisor: Advisor): (n: nat)
    requires forall j :: 0 <= j < |done| ==> ItemValid(done[j])
    ensures n <= |done|
    ensures n > 0 ==> SellsOn(done[n - 1], quotes, advisor)
    ensures forall j :: n <= j < |done| ==> !SellsOn(done[j], quotes, advisor)
    decreases |done|
  {
    if done == [] then 0
    else if SellsOn(done[|done| - 1], quotes, advisor) then |done|
    else CommittedPrefix(done[..|done| - 1], quotes, advisor)
  }

  /** The holdings from the `n`-th on are all still in `items`. */
  predicate Unreached(holdings: seq<AiPortfolioItem>, n: nat, items: seq<AiPortfolioItem>)
  {
    forall j :: n <= j < |holdings| ==> holdings[j] in items
  }

  /** Every quoted holding among the first `n` has had its decision's sale taken off its quantity in `items`. */
  predicate SoldUpTo(holdings: seq<AiPortfolioItem>, n: nat, quotes: map<string, real>, advisor: Advisor,
                     items: seq<AiPortfolioItem>)
    requires n <= |holdings| && forall j :: 0 <= j < |holdings| ==> ItemValid(holdings[j])
  {
    forall j :: 0 <= j < n && Quote(quotes, holdings[j].symbol) > 0.0 ==>
      HeldQuantity(items, holdings[j].symbol)
        == holdings[j].quantity - SoldQuantity(HoldingDecision(holdings[j], quotes, advisor))
  }

  /** What is left in `items` of every quoted holding among the first `n` carries its quote. */
  predicate RepricedUpTo(holdings: seq<AiPortfolioItem>, n: nat, quotes: map<string, real>, items: seq<AiPortfolioItem>)
    requires n <= |holdings|
  {
    forall j, x ::
      && 0 <= j < n && Quote(quotes, holdings[j].symbol) > 0.0
      && x in items && x.symbol == holdings[j].symbol
      ==> x.currentPrice == Quote(quotes, holdings[j].symbol)
  }

  /**
   * The `n`-th holding (counting from one), `h`, is quoted and still in `before`, and
   * monitoring it gives `after`: `after` holds what `before` holds of every other symbol.
   */
  predicate QuotedStep(holdings: seq<AiPortfolioItem>, n: nat, quotes: map<string, real>, advisor: Advisor,
                       before: seq<AiPortfolioItem>, after: seq<AiPortfolioItem>)
  {
    && ItemsValid(holdings) && 0 < n <= |holdings| && ItemsValid(before)
    && holdings[n - 1] in before && Quote(quotes, holdings[n - 1].symbol) > 0.0
    && after == MonitoredItems(before, holdings[n - 1].symbol, advisor, Quote(quotes, holdings[n - 1].symbol))
  }

  /** A quoted step keeps the holdings not reached yet. */
  lemma UnreachedStep(holdings: seq<AiPortfolioItem>, n: nat, quotes: map<string, real>, advisor: Advisor,
                      before: seq<AiPortfolioItem>, after: seq<AiPortfolioItem>)
    requires QuotedStep(holdings, n, quotes, advisor, before, after) && Unreached(holdings, n - 1, before)
    ensures Unreached(holdings, n, after)
  {
    forall j | n <= j < |holdings| ensures holdings[j] in after {
      assert holdings[j].symbol != holdings[n - 1].symbol;
    }
  }

  /** A quoted step takes the sale of the holding it reaches off, and no other. */
  lemma SoldStep(holdings: seq<AiPortfolioItem>, n: nat, quotes: map<string, real>, advisor: Advisor,
                 before: seq<AiPortfolioItem>, after: seq<AiPortfolioItem>)
    requires QuotedStep(holdings, n, quotes, advisor, before, after) && SoldUpTo(holdings, n - 1, quotes, advisor, before)
    ensures SoldUpTo(holdings, n, quotes, advisor, after)
  {
    var h := holdings[n - 1];
    StepDecision(before, h, quotes, advisor);
    forall j | 0 <= j < n - 1 && Quote(quotes, holdings[j].symbol) > 0.0
      ensures HeldQuantity(after, holdings[j].symbol) == holdings[j].quantity - SoldQuantity(HoldingDecision(holdings[j], quotes, advisor))
    {
      assert holdings[j].symbol != h.symbol;
      OtherHeldKept(before, after, h.symbol, holdings[j].symbol);
    }
  }

  /** A quoted step reprices the holding it reaches, and no other. */
  lemma RepricedStep(holdings: seq<AiPortfolioItem>, n: nat, quotes: map<string, real>, advisor: Advisor,
                     before: seq<AiPortfolioItem>, after: seq<AiPortfolioItem>)
    requires QuotedStep(holdings, n, quotes, advisor, before, after) && RepricedUpTo(holdings, n - 1, quotes, before)
    ensures RepricedUpTo(holdings, n, quotes, after)
  {
    var h := holdings[n - 1];
    forall j, x | 0 <= j < n - 1 && Quote(quotes, holdings[j].symbol) > 0.0 && x in after && x.symbol == holdings[j].symbol
      ensures x.currentPrice == Quote(quotes, holdings[j].symbol)
    {
      assert holdings[j].symbol != h.symbol;
      assert x in before;
    }
  }

  /** Passing the `n`-th holding (counting from one) carries the effects of monitoring on. */
  lemma EffectsStep(holdings: seq<AiPortfolioItem>, n: nat, quotes: map<string, real>, advisor: Advisor,
                    before: seq<AiPortfolioItem>, after: seq<AiPortfolioItem>)
    requires ItemsValid(holdings) && 0 < n <= |holdings|
    requires before == MonitorAll(holdings, holdings[..n - 1], quotes, advisor)
    requires after == MonitorAll(holdings, holdings[..n], quotes, advisor)
    requires Unreached(holdings, n - 1, before)
    requires SoldUpTo(holdings, n - 1, quotes, advisor, before) && RepricedUpTo(holdings, n - 1, quotes, before)
    ensures Unreached(holdings, n, after)
    ensures SoldUpTo(holdings, n, quotes, advisor, after) && RepricedUpTo(holdings, n, quotes, after)
  {
    MonitorAllLast(holdings, n, quotes, advisor);
    var h := holdings[n - 1];
    if Quote(quotes, h.symbol) <= 0.0 {
      return;
    }
    assert h in before;
    StepDecision(before, h, quotes, advisor);
    QuotedEffects(holdings, n, quotes, advisor, before, after);
  }

  /** The fold over the first `n` holdings is the fold over the first `n - 1`, then one step. */
  lemma MonitorAllLast(holdings: seq<AiPortfolioItem>, n: nat, quotes: map<string, real>, advisor: Advisor)
    requires ItemsValid(holdings) && 0 < n <= |holdings|
    ensures var before := MonitorAll(holdings, holdings[..n - 1], quotes, advisor);
      var symbol := holdings[n - 1].symbol;
      MonitorAll(holdings, holdings[..n], quotes, advisor)
        == if Quote(quotes, symbol) > 0.0 && FindAi(before, symbol).Some?
           then MonitoredItems(before, symbol, advisor, Quote(quotes, symbol))
           else before
  {
    assert holdings[..n][..n - 1] == holdings[..n - 1];
  }

  /** A quoted step carries the three effects of monitoring on. */
  lemma QuotedEffects(holdings: seq<AiPortfolioItem>, n: nat, quotes: map<string, real>, advisor: Advisor,
                      before: seq<AiPortfolioItem>, after: seq<AiPortfolioItem>)
    requires QuotedStep(holdings, n, quotes, advisor, before, after)
    requires Unreached(holdings, n - 1, before)
    requires SoldUpTo(holdings, n - 1, quotes, advisor, before) && RepricedUpTo(holdings, n - 1, quotes, before)
    ensures Unreached(holdings, n, after)
    ensures SoldUpTo(holdings, n, quotes, advisor, after) && RepricedUpTo(holdings, n, quotes, after)
  {
    UnreachedStep(holdings, n, quotes, advisor, before, after);
    SoldStep(holdings, n, quotes, advisor, before, after);
    RepricedStep(holdings, n, quotes, advisor, before, after);
  }

  /**
   * What monitoring the first `n` of `holdings` leaves: the holdings not reached yet are
   * untouched; every quoted holding passed has its decision's sale taken off its quantity
   * and, where some of it is still held, its cached price refreshed.
   */
  lemma {:induction false} MonitorAllEffects(holdings: seq<AiPortfolioItem>, n: nat, quotes: map<string, real>,
                                             advisor: Advisor)
    requires ItemsValid(holdings) && n <= |holdings|
    ensures forall j :: n <= j < |holdings| ==> holdings[j] in MonitorAll(holdings, holdings[..n], quotes, advisor)
    ensures forall j :: 0 <= j < n && Quote(quotes, holdings[j].symbol) > 0.0 ==>
      HeldQuantity(MonitorAll(holdings, holdings[..n], quotes, advisor), holdings[j].symbol)
        == holdings[j].quantity - SoldQuantity(HoldingDecision(holdings[j], quotes, advisor))
    ensures forall j, x ::
      && 0 <= j < n && Quote(quotes, holdings[j].symbol) > 0.0
      && x in MonitorAll(holdings, holdings[..n], quotes, advisor) && x.symbol == holdings[j].symbol
      ==> x.currentPrice == Quote(quotes, holdings[j].symbol)
    decreases n
  {
    var after := MonitorAll(holdings, holdings[..n], quotes, advisor);
    if n == 0 {
      assert holdings[..0] == [];
      assert Unreached(holdings, 0, after);
      return;
    }
    MonitorAllEffects(holdings, n - 1, quotes, advisor);
    var before := MonitorAll(holdings, holdings[..n - 1], quotes, advisor);
    assert Unreached(holdings, n - 1, before);
    assert SoldUpTo(holdings, n - 1, quotes, advisor, before) && RepricedUpTo(holdings, n - 1, quotes, before);
    EffectsStep(holdings, n, quotes, advisor, before, after);
  }

  /**
   * What `monitor_portfolio` knows of the holdings after `k` of the original `holdings`:
   * those not reached yet are still held, no symbol outside `holdings` is held, holdings
   * without a positive quote stay, and without a language model every holding reached and
   * quoted below 95% of its average cost is gone.
   */
  predicate MonitoredUpTo(holdings: seq<AiPortfolioItem>, k: nat, quotes: map<string, real>, advisor: Advisor,
                          items: seq<AiPortfolioItem>)
  {
    && k <= |holdings|
    && (forall j :: k <= j < |holdings| ==> holdings[j] in items)
    && (forall x :: x in items ==> x.symbol in Symbols(holdings))
    && (forall x :: x in holdings && Quote(quotes, x.symbol) <= 0.0 ==> x in items)
    && (advisor.NoClient? ==> forall j :: 0 <= j < k && 0.0 < Quote(quotes, holdings[j].symbol) < 0.95 * holdings[j].avgCost ==>
          FindAi(items, holdings[j].symbol).None?)
  }

  /** Before the first holding is reached, the holdings are the original ones. */
  lemma MonitoredNothing(holdings: seq<AiPortfolioItem>, quotes: map<string, real>, advisor: Advisor)
    ensures MonitoredUpTo(holdings, 0, quotes, advisor, holdings)
  {
    forall x | x in holdings ensures x.symbol in Symbols(holdings) {
    }
  }

  /**
   * Once every holding is passed: no symbol outside `holdings` is held, those without a
   * positive quote stay, and without a language model those quoted below 95% of their
   * average cost are gone.
   */
  lemma MonitoredAll(holdings: seq<AiPortfolioItem>, quotes: map<string, real>, advisor: Advisor,
                     items: seq<AiPortfolioItem>)
    requires MonitoredUpTo(holdings, |holdings|, quotes, advisor, items)
    ensures forall x :: x in items ==> x.symbol in Symbols(holdings)
    ensures forall x :: x in holdings && Quote(quotes, x.symbol) <= 0.0 ==> x in items
    ensures advisor.NoClient? ==> forall x :: x in holdings && 0.0 < Quote(quotes, x.symbol) < 0.95 * x.avgCost ==>
      FindAi(items, x.symbol).None?
  {
    if advisor.NoClient? {
      forall x | x in holdings && 0.0 < Quote(quotes, x.symbol) < 0.95 * x.avgCost ensures FindAi(items, x.symbol).None? {
        var j :| 0 <= j < |holdings| && holdings[j] == x;
      }
    }
  }

  /**
   * Passing the next holding carries `MonitoredUpTo` one step on: skipped when it has no
   * positive quote, monitored otherwise.
   */
  lemma MonitorStepKeeps(holdings: seq<AiPortfolioItem>, k: nat, quotes: map<string, real>, advisor: Advisor,
                         items: seq<AiPortfolioItem>)
    requires ItemsValid(holdings) && ItemsValid(items) && k < |holdings|
    requires MonitoredUpTo(holdings, k, quotes, advisor, items)
    ensures Quote(quotes, holdings[k].symbol) <= 0.0 ==> MonitoredUpTo(holdings, k + 1, quotes, advisor, items)
    ensures Quote(quotes, holdings[k].symbol) > 0.0 ==>
      && FindAi(items, holdings[k].symbol).Some?
      && MonitoredUpTo(holdings, k + 1, quotes, advisor,
                       MonitoredItems(items, holdings[k].symbol, advisor, Quote(quotes, holdings[k].symbol)))
  {
    if Quote(quotes, holdings[k].symbol) <= 0.0 {
      return;
    }
    var symbol, price := holdings[k].symbol, Quote(quotes, holdings[k].symbol);
    assert holdings[k] in items;
    NotHeld(items, symbol);
    var after := MonitoredItems(items, symbol, advisor, price);
    forall j | k < j < |holdings| ensures holdings[j] in after {
      assert holdings[j].symbol != symbol;
    }
    forall x | x in holdings && Quote(quotes, x.symbol) <= 0.0 ensures x in after {
      assert x in items;
    }
    forall x | x in after ensures x.symbol in Symbols(holdings) {
      if x.symbol != symbol {
        assert x in items;
      } else {
        assert holdings[k] in holdings;
      }
    }
    if advisor.NoClient? {
      forall j | 0 <= j <= k && 0.0 < Quote(quotes, holdings[j].symbol) < 0.95 * holdings[j].avgCost
        ensures FindAi(after, holdings[j].symbol).None?
      {
        if j < k {
          assert holdings[j].symbol != symbol;
        }
      }
    }
  }

  /**
   * One position of `monitor_portfolio`, priced positively: refresh its cached price, ask
   * for a decision and execute a SELL of a positive quantity, which the decision never
   * makes larger than the holding. Any other decision (HOLD, BUY_MORE, a SELL of nothing)
   * leaves only the refreshed price behind. `raised` says that the decision's quantity is
   * not a number where `qty > 0` reads it, which raises in the source. Without a language
   * model a price below 95% of the average cost sells the whole holding.
   */
  method MonitorPosition(db: Database, symbol: string, price: real, advisor: Advisor, now: Instant)
    returns (sent: seq<AiNotification>, raised: bool)
    requires db.settings.Some? && ItemsValid(db.aiItems) && FindAi(db.aiItems, symbol).Some? && price > 0.0
    modifies db
    ensures db.settings.Some? && ItemsValid(db.aiItems)
    ensures db.settings.value == old(db.settings.value).(aiCashBalance := db.settings.value.aiCashBalance)
    ensures db.settings.value.aiCashBalance >= old(db.settings.value.aiCashBalance)
    ensures db.items == old(db.items) && db.transactions == old(db.transactions) && db.alerts == old(db.alerts)
    ensures db.aiNotifications == old(db.aiNotifications) + sent
    ensures ContributedCapital(db.settings.value.aiCashBalance, db.aiItems, db.aiHistory)
         == old(ContributedCapital(db.settings.value.aiCashBalance, db.aiItems, db.aiHistory))
    ensures Drift(db.settings.value, db.aiHistory) == old(Drift(db.settings.value, db.aiHistory))
    ensures |old(db.aiHistory)| <= |db.aiHistory| <= |old(db.aiHistory)| + 1
    ensures db.aiHistory[..|old(db.aiHistory)|] == old(db.aiHistory)
    ensures forall k :: |old(db.aiHistory)| <= k < |db.aiHistory| ==>
      db.aiHistory[k].action == SELL && db.aiHistory[k].symbol == symbol
    ensures forall x :: x in old(db.aiItems) && x.symbol != symbol ==> x in db.aiItems
    ensures forall x :: x in db.aiItems && x.symbol != symbol ==> x in old(db.aiItems)
    ensures var i := old(FindAi(db.aiItems, symbol)).value;
      var d := old(PositionDecision(db.aiItems, symbol, advisor, price));
      var q := DecidedQuantity(d);
      Sells(d) ==>
        && 0 < q <= old(db.aiItems)[i].quantity
        && db.settings == Some(old(db.settings.value).(aiCashBalance := old(db.settings.value.aiCashBalance) + TradeValue(q, price)))
        && db.aiItems == SellFrom(Reprice(old(db.aiItems), i, price), i, q)
        && db.aiHistory == old(db.aiHistory)
           + [AiTradeRecord(symbol, SELL, q, price, Some(SalePnl(old(db.aiItems)[i].avgCost, q, price)), now, DecisionReason(d))]
        && sent == [AiNotification(TradeTitle, Sold(symbol, q, price, SalePnl(old(db.aiItems)[i].avgCost, q, price), DecisionReason(d)),
                                   TradeKind, now)]
    ensures var i := old(FindAi(db.aiItems, symbol)).value;
      var d := old(PositionDecision(db.aiItems, symbol, advisor, price));
      !Sells(d) ==>
        && db.settings == old(db.settings) && db.aiItems == Reprice(old(db.aiItems), i, price)
        && db.aiHistory == old(db.aiHistory) && sent == []
    ensures forall s :: s != symbol && FindAi(old(db.aiItems), s).None? ==> FindAi(db.aiItems, s).None?
    ensures advisor.NoClient? ==> forall x :: x in old(db.aiItems) && x.symbol == symbol && price < 0.95 * x.avgCost ==>
      FindAi(db.aiItems, symbol).None?
    ensures db.aiItems == MonitoredItems(old(db.aiItems), symbol, advisor, price)
    ensures raised <==> Raises(old(PositionDecision(db.aiItems, symbol, advisor, price)))
    ensures Logged(old(db.aiHistory), db.aiHistory, sent)
  {
    var i := FindAi(db.aiItems, symbol).value;
    var decision := PositionDecision(db.aiItems, symbol, advisor, price);
    ghost var after := MonitoredItems(db.aiItems, symbol, advisor, price);
    db.aiItems := Reprice(db.aiItems, i, price);
    ghost var history := db.aiHistory;
    var q := DecidedQuantity(decision);
    raised := Raises(decision);
    if Sells(decision) {
      // execute_trade finds the holding, which covers q, and takes its SELL branch
      sent := ApplySell(db, i, q, price, DecisionReason(decision), now);
    } else {
      sent := [];
    }
    assert db.aiItems == after;
    assert db.aiHistory[..|history|] == history;
  }

  /**
   * The session's view after `k` of `holdings` were monitored without a raise: `items` is
   * the fold so far, and `committed` the fold up to the last sale, which `execute_trade`
   * committed.
   */
  predicate CommittedUpTo(holdings: seq<AiPortfolioItem>, k: nat, quotes: map<string, real>, advisor: Advisor,
                          items: seq<AiPortfolioItem>, committed: seq<AiPortfolioItem>)
  {
    && ItemsValid(holdings) && k <= |holdings|
    && items == MonitorAll(holdings, holdings[..k], quotes, advisor)
    && (forall j :: 0 <= j < k ==> !RaisesOn(holdings[j], quotes, advisor))
    && committed == MonitorAll(holdings, holdings[..CommittedPrefix(holdings[..k], quotes, advisor)], quotes, advisor)
    && MonitoredUpTo(holdings, CommittedPrefix(holdings[..k], quotes, advisor), quotes, advisor, committed)
  }

  /** Passing an unquoted holding keeps `CommittedUpTo`: nothing is monitored, nothing committed. */
  lemma CommitSkip(holdings: seq<AiPortfolioItem>, k: nat, quotes: map<string, real>, advisor: Advisor,
                   items: seq<AiPortfolioItem>, committed: seq<AiPortfolioItem>)
    requires k < |holdings| && Quote(quotes, holdings[k].symbol) <= 0.0
    requires CommittedUpTo(holdings, k, quotes, advisor, items, committed)
    ensures CommittedUpTo(holdings, k + 1, quotes, advisor, items, committed)
  {
    assert holdings[..k + 1][..k] == holdings[..k];
    assert holdings[..k + 1][k] == holdings[k];
  }

  /**
   * Passing a quoted holding that does not raise carries `CommittedUpTo` on to what
   * monitoring it leaves; a sale moves the commit point up to it.
   */
  lemma CommitStep(holdings: seq<AiPortfolioItem>, k: nat, quotes: map<string, real>, advisor: Advisor,
                   items: seq<AiPortfolioItem>, committed: seq<AiPortfolioItem>)
    requires k < |holdings| && Quote(quotes, holdings[k].symbol) > 0.0
    requires CommittedUpTo(holdings, k, quotes, advisor, items, committed)
    requires FindAi(items, holdings[k].symbol).Some? && !RaisesOn(holdings[k], quotes, advisor)
    requires MonitoredUpTo(holdings, k + 1, quotes, advisor,
                           MonitoredItems(items, holdings[k].symbol, advisor, Quote(quotes, holdings[k].symbol)))
    ensures var after := MonitoredItems(items, holdings[k].symbol, advisor, Quote(quotes, holdings[k].symbol));
      CommittedUpTo(holdings, k + 1, quotes, advisor, after, if SellsOn(holdings[k], quotes, advisor) then after else committed)
  {
    var after := MonitoredItems(items, holdings[k].symbol, advisor, Quote(quotes, holdings[k].symbol));
    assert holdings[..k + 1][..k] == holdings[..k];
    assert holdings[..k + 1][k] == holdings[k];
    assert MonitorAll(holdings, holdings[..k + 1], quotes, advisor) == after;
  }

  /**
   * `items` is what monitoring `holdings` left: every quoted holding has lost what its
   * decision sells, and whatever is left of it carries the quoted price.
   */
  predicate SalesApplied(holdings: seq<AiPortfolioItem>, quotes: map<string, real>, advisor: Advisor,
                         items: seq<AiPortfolioItem>)
    requires ItemsValid(holdings)
  {
    && (forall j :: 0 <= j < |holdings| && Quote(quotes, holdings[j].symbol) > 0.0 ==>
          HeldQuantity(items, holdings[j].symbol)
            == holdings[j].quantity - SoldQuantity(HoldingDecision(holdings[j], quotes, advisor)))
    && (forall j, x ::
          && 0 <= j < |holdings| && Quote(quotes, holdings[j].symbol) > 0.0
          && x in items && x.symbol == holdings[j].symbol
          ==> x.currentPrice == Quote(quotes, holdings[j].symbol))
  }

  /**
   * `items` is what the rule-based fallback leaves of `holdings`: a holding quoted below 95%
   * of its average cost is gone (the stop loss) and one quoted above 110% of it has lost
   * `TakeProfitQuantity` shares (the take profit).
   */
  predicate FallbackApplied(holdings: seq<AiPortfolioItem>, quotes: map<string, real>, items: seq<AiPortfolioItem>)
  {
    && (forall j :: 0 <= j < |holdings| && 0.0 < Quote(quotes, holdings[j].symbol) < 0.95 * holdings[j].avgCost ==>
          FindAi(items, holdings[j].symbol).None?)
    && (forall j :: 0 <= j < |holdings| && Quote(quotes, holdings[j].symbol) > 1.10 * holdings[j].avgCost ==>
          HeldQuantity(items, holdings[j].symbol) == holdings[j].quantity - TakeProfitQuantity(holdings[j].quantity))
  }

  /**
   * Monitoring every holding applies each quoted one's decision. Without a language model
   * nothing raises and the fallback's stop loss and take profit are what happens.
   */
  lemma MonitorAllDone(holdings: seq<AiPortfolioItem>, quotes: map<string, real>, advisor: Advisor)
    requires ItemsValid(holdings)
    ensures SalesApplied(holdings, quotes, advisor, MonitorAll(holdings, holdings, quotes, advisor))
    ensures advisor.NoClient? ==> forall j :: 0 <= j < |holdings| ==> !RaisesOn(holdings[j], quotes, advisor)
    ensures advisor.NoClient? ==> FallbackApplied(holdings, quotes, MonitorAll(holdings, holdings, quotes, advisor))
  {
    assert holdings[..|holdings|] == holdings;
    MonitorAllEffects(holdings, |holdings|, quotes, advisor);
    var r := MonitorAll(holdings, holdings, quotes, advisor);
    if advisor.NoClient? {
      forall j | 0 <= j < |holdings| && 0.0 < Quote(quotes, holdings[j].symbol) < 0.95 * holdings[j].avgCost
        ensures FindAi(r, holdings[j].symbol).None?
      {
        assert ItemValid(holdings[j]);
        FallbackThresholds(holdings[j].quantity, holdings[j].avgCost, Quote(quotes, holdings[j].symbol));
        assert HeldQuantity(r, holdings[j].symbol) == 0;
      }
      forall j | 0 <= j < |holdings| && Quote(quotes, holdings[j].symbol) > 1.10 * holdings[j].avgCost
        ensures HeldQuantity(r, holdings[j].symbol) == holdings[j].quantity - TakeProfitQuantity(holdings[j].quantity)
      {
        assert ItemValid(holdings[j]);
        FallbackThresholds(holdings[j].quantity, holdings[j].avgCost, Quote(quotes, holdings[j].symbol));
      }
    }
  }

  /**
   * How `monitor_portfolio` over `holdings` ends, `failedAt` naming the holding it raised
   * on: without a raise every holding is monitored in turn; otherwise it stops at the first
   * holding whose decision raises, and the failed request's session drops what was not
   * committed, which leaves the holdings as the last sale committed them.
   */
  predicate MonitorOutcome(holdings: seq<AiPortfolioItem>, quotes: map<string, real>, advisor: Advisor,
                           failedAt: Option<nat>, items: seq<AiPortfolioItem>)
    requires ItemsValid(holdings)
  {
    && (failedAt.None? <==> forall j :: 0 <= j < |holdings| ==> !RaisesOn(holdings[j], quotes, advisor))
    && (failedAt.None? ==> items == MonitorAll(holdings, holdings, quotes, advisor))
    && (failedAt.Some? ==>
          && failedAt.value < |holdings| && RaisesOn(holdings[failedAt.value], quotes, advisor)
          && (forall j :: 0 <= j < failedAt.value ==> !RaisesOn(holdings[j], quotes, advisor))
          && items == MonitorAll(holdings, holdings[..CommittedPrefix(holdings[..failedAt.value], quotes, advisor)],
                                 quotes, advisor))
  }

  /**
   * The AI books while monitoring runs, from `row0`, `items0` and `history0` at its start:
   * the settings row changed in its cash only; the history grown by SELL entries only,
   * whose proceeds are exactly the cash gained; the contributed capital and the replay
   * drift as they were.
   */
  predicate SalesBooked(row0: SettingsRow, items0: seq<AiPortfolioItem>, history0: seq<AiTradeRecord>,
                        row: SettingsRow, items: seq<AiPortfolioItem>, history: seq<AiTradeRecord>)
  {
    && row == row0.(aiCashBalance := row.aiCashBalance)
    && |history0| <= |history| && history[..|history0|] == history0
    && (forall j :: |history0| <= j < |history| ==> history[j].action == SELL)
    && row.aiCashBalance == row0.aiCashBalance + Sum(history[|history0|..], Notional)
    && ContributedCapital(row.aiCashBalance, items, history) == ContributedCapital(row0.aiCashBalance, items0, history0)
    && Drift(row, history) == Drift(row0, history0)
  }

  /**
   * The request fails once the `k`-th holding raises, and its session drops what was not
   * committed: the holdings go back to those last committed, which cost what the current
   * ones do, so the books stay `SalesBooked`; they are the outcome `MonitorOutcome` names,
   * and they keep the unquoted holdings and add no symbol.
   */
  method RollBack(db: Database, holdings: seq<AiPortfolioItem>, k: nat, quotes: map<string, real>, advisor: Advisor,
                  row0: SettingsRow, history0: seq<AiTradeRecord>, ghost items: seq<AiPortfolioItem>,
                  committed: seq<AiPortfolioItem>)
    requires db.settings.Some?
    requires k < |holdings| && CommittedUpTo(holdings, k, quotes, advisor, items, committed)
    requires RaisesOn(holdings[k], quotes, advisor)
    requires SalesBooked(row0, holdings, history0, db.settings.value, db.aiItems, db.aiHistory)
    requires Sum(committed, CostBasis) == Sum(db.aiItems, CostBasis)
    modifies db
    ensures db.settings == old(db.settings) && db.aiHistory == old(db.aiHistory)
    ensures db.aiNotifications == old(db.aiNotifications)
    ensures db.items == old(db.items) && db.transactions == old(db.transactions) && db.alerts == old(db.alerts)
    ensures db.aiItems == committed && ItemsValid(db.aiItems)
    ensures SalesBooked(row0, holdings, history0, db.settings.value, db.aiItems, db.aiHistory)
    ensures MonitorOutcome(holdings, quotes, advisor, Some(k), db.aiItems)
    ensures forall x :: x in db.aiItems ==> x.symbol in Symbols(holdings)
    ensures forall x :: x in holdings && Quote(quotes, x.symbol) <= 0.0 ==> x in db.aiItems
  {
    assert SalesBooked(row0, holdings, history0, db.settings.value, committed, db.aiHistory);
    assert MonitorOutcome(holdings, quotes, advisor, Some(k), committed);
    db.aiItems := committed;
  }

  /** Once every holding is passed without a raise, the holdings are what `MonitorAll` says. */
  lemma MonitorFinished(holdings: seq<AiPortfolioItem>, quotes: map<string, real>, advisor: Advisor,
                        items: seq<AiPortfolioItem>, committed: seq<AiPortfolioItem>)
    requires MonitoredUpTo(holdings, |holdings|, quotes, advisor, items)
    requires CommittedUpTo(holdings, |holdings|, quotes, advisor, items, committed)
    ensures MonitorOutcome(holdings, quotes, advisor, None, items)
    ensures SalesApplied(holdings, quotes, advisor, items)
    ensures advisor.NoClient? ==> FallbackApplied(holdings, quotes, items)
    ensures forall x :: x in items ==> x.symbol in Symbols(holdings)
    ensures forall x :: x in holdings && Quote(quotes, x.symbol) <= 0.0 ==> x in items
  {
    assert holdings[..|holdings|] == holdings;
    MonitoredAll(holdings, quotes, advisor, items);
    MonitorAllDone(holdings, quotes, advisor);
  }

  /**
   * Passing the `k`-th holding, which is quoted and does not raise, carries the loop's
   * facts on to `after`; the holdings are committed anew exactly when it sells.
   */
  lemma Passed(holdings: seq<AiPortfolioItem>, k: nat, quotes: map<string, real>, advisor: Advisor,
               items: seq<AiPortfolioItem>, committed: seq<AiPortfolioItem>, after: seq<AiPortfolioItem>)
    requires ItemsValid(holdings) && ItemsValid(items)
    requires k < |holdings| && Quote(quotes, holdings[k].symbol) > 0.0 && !RaisesOn(holdings[k], quotes, advisor)
    requires MonitoredUpTo(holdings, k, quotes, advisor, items)
    requires CommittedUpTo(holdings, k, quotes, advisor, items, committed)
    requires Sum(committed, CostBasis) == Sum(items, CostBasis)
    requires holdings[k] in items
    requires after == MonitoredItems(items, holdings[k].symbol, advisor, Quote(quotes, holdings[k].symbol))
    requires !SellsOn(holdings[k], quotes, advisor) ==> Sum(after, CostBasis) == Sum(items, CostBasis)
    ensures MonitoredUpTo(holdings, k + 1, quotes, advisor, after)
    ensures var next := if SellsOn(holdings[k], quotes, advisor) then after else committed;
      CommittedUpTo(holdings, k + 1, quotes, advisor, after, next) && Sum(next, CostBasis) == Sum(after, CostBasis)
  {
    MonitorStepKeeps(holdings, k, quotes, advisor, items);
    CommitStep(holdings, k, quotes, advisor, items, committed);
  }

  /**
   * The SELL entry `execute_trade` books when monitoring sells some of the holding `h`:
   * what its decision sells, at its quote, with the gain over its average cost.
   */
  function SaleRecord(h: AiPortfolioItem, quotes: map<string, real>, advisor: Advisor, now: Instant): AiTradeRecord
    requires ItemValid(h)
  {
    var d := HoldingDecision(h, quotes, advisor);
    var q := SoldQuantity(d);
    var price := Quote(quotes, h.symbol);
    AiTradeRecord(h.symbol, SELL, q, price, Some(SalePnl(h.avgCost, q, price)), now, DecisionReason(d))
  }

  /**
   * The history entries monitoring books while it passes the first `k` of `holdings`, in
   * order: one `SaleRecord` per holding it sells some of.
   */
  function SaleRecords(holdings: seq<AiPortfolioItem>, k: nat, quotes: map<string, real>, advisor: Advisor,
                       now: Instant): seq<AiTradeRecord>
    requires ItemsValid(holdings) && k <= |holdings|
  {
    if k == 0 then []
    else
      SaleRecords(holdings, k - 1, quotes, advisor, now)
      + (if SellsOn(holdings[k - 1], quotes, advisor) then [SaleRecord(holdings[k - 1], quotes, advisor, now)] else [])
  }

  /**
   * What monitoring books: at most one entry per holding passed, each a SELL of a
   * positive quantity at a positive price, of one of those holdings' symbols.
   */
  lemma {:induction false} SalesAreSells(holdings: seq<AiPortfolioItem>, k: nat, quotes: map<string, real>,
                                         advisor: Advisor, now: Instant)
    requires ItemsValid(holdings) && k <= |holdings|
    ensures var r := SaleRecords(holdings, k, quotes, advisor, now);
      && |r| <= k
      && forall j :: 0 <= j < |r| ==>
           && r[j].action == SELL && r[j].quantity > 0 && r[j].price > 0.0 && r[j].timestamp == now
           && exists i :: 0 <= i < k && r[j].symbol == holdings[i].symbol
  {
    if k > 0 {
      SalesAreSells(holdings, k - 1, quotes, advisor, now);
    }
  }

  /**
   * The history and the notes once monitoring passed the first `k` of `holdings`, from
   * `history0`: the history grew by exactly their `SaleRecords`, each with its trade note.
   */
  predicate SalesLogged(holdings: seq<AiPortfolioItem>, k: nat, quotes: map<string, real>, advisor: Advisor,
                        now: Instant, history0: seq<AiTradeRecord>, history: seq<AiTradeRecord>,
                        sent: seq<AiNotification>)
  {
    && ItemsValid(holdings) && k <= |holdings|
    && history == history0 + SaleRecords(holdings, k, quotes, advisor, now)
    && sent == TradeNotes(SaleRecords(holdings, k, quotes, advisor, now))
  }

  /** The sales booked so far are logged: one trade note per new history entry. */
  lemma SalesAreLogged(holdings: seq<AiPortfolioItem>, k: nat, quotes: map<string, real>, advisor: Advisor,
                       now: Instant, history0: seq<AiTradeRecord>, history: seq<AiTradeRecord>,
                       sent: seq<AiNotification>)
    requires SalesLogged(holdings, k, quotes, advisor, now, history0, history, sent)
    ensures Logged(history0, history, sent)
    ensures history[|history0|..] == SaleRecords(holdings, k, quotes, advisor, now)
  {
    assert history[|history0|..] == SaleRecords(holdings, k, quotes, advisor, now);
  }

  /** Passing a holding without a positive quote books nothing. */
  lemma SaleSkip(holdings: seq<AiPortfolioItem>, k: nat, quotes: map<string, real>, advisor: Advisor,
                 now: Instant, history0: seq<AiTradeRecord>, history: seq<AiTradeRecord>, sent: seq<AiNotification>)
    requires k < |holdings| && Quote(quotes, holdings[k].symbol) <= 0.0
    requires SalesLogged(holdings, k, quotes, advisor, now, history0, history, sent)
    ensures SalesLogged(holdings, k + 1, quotes, advisor, now, history0, history, sent)
  {
    var before := SaleRecords(holdings, k, quotes, advisor, now);
    assert !SellsOn(holdings[k], quotes, advisor);
    assert SaleRecords(holdings, k + 1, quotes, advisor, now) == before + [];
    assert before + [] == before;
  }

  /**
   * Monitoring the `k`-th holding books its sale, if it sells, with its note; a holding
   * whose decision raises sells nothing, so the loop stopping there has booked the first
   * `k` only.
   */
  lemma SaleStep(holdings: seq<AiPortfolioItem>, k: nat, quotes: map<string, real>, advisor: Advisor,
                 now: Instant, history0: seq<AiTradeRecord>, history: seq<AiTradeRecord>, sent: seq<AiNotification>,
                 history': seq<AiTradeRecord>, more: seq<AiNotification>)
    requires k < |holdings| && SalesLogged(holdings, k, quotes, advisor, now, history0, history, sent)
    requires history' == history +
      (if SellsOn(holdings[k], quotes, advisor) then [SaleRecord(holdings[k], quotes, advisor, now)] else [])
    requires Logged(history, history', more)
    ensures SalesLogged(holdings, k + 1, quotes, advisor, now, history0, history', sent + more)
    ensures RaisesOn(holdings[k], quotes, advisor) ==>
      SalesLogged(holdings, k, quotes, advisor, now, history0, history', sent + more)
  {
    var step := if SellsOn(holdings[k], quotes, advisor) then [SaleRecord(holdings[k], quotes, advisor, now)] else [];
    assert history'[|history|..] == step;
    TradeNotesAppend(SaleRecords(holdings, k, quotes, advisor, now), step);
  }

  /**
   * What the `monitor_portfolio` loop knows once it passed the first `k` of `holdings`
   * without a raise, started from the settings row `row0` and the history `history0`:
   * the books are `SalesBooked`, the holdings `items` are the fold so far
   * (`MonitoredUpTo`, `CommittedUpTo`, with `committed` those last committed, of the same
   * cost), and the history and the notes `sent` are `SalesLogged`.
   */
  predicate MonitorLoop(holdings: seq<AiPortfolioItem>, k: nat, quotes: map<string, real>, advisor: Advisor,
                        now: Instant, row0: SettingsRow, history0: seq<AiTradeRecord>, row: SettingsRow,
                        items: seq<AiPortfolioItem>, history: seq<AiTradeRecord>, committed: seq<AiPortfolioItem>,
                        sent: seq<AiNotification>)
  {
    && ItemsValid(holdings) && ItemsValid(items) && k <= |holdings|
    && SalesBooked(row0, holdings, history0, row, items, history)
    && MonitoredUpTo(holdings, k, quotes, advisor, items)
    && CommittedUpTo(holdings, k, quotes, advisor, items, committed)
    && Sum(committed, CostBasis) == Sum(items, CostBasis)
    && SalesLogged(holdings, k, quotes, advisor, now, history0, history, sent)
  }

  /** Passing a holding without a positive quote keeps every fact of the loop: nothing happens. */
  lemma PassUnquoted(holdings: seq<AiPortfolioItem>, k: nat, quotes: map<string, real>, advisor: Advisor,
                     now: Instant, row0: SettingsRow, history0: seq<AiTradeRecord>, row: SettingsRow,
                     items: seq<AiPortfolioItem>, history: seq<AiTradeRecord>, committed: seq<AiPortfolioItem>,
                     sent: seq<AiNotification>)
    requires k < |holdings| && Quote(quotes, holdings[k].symbol) <= 0.0
    requires MonitorLoop(holdings, k, quotes, advisor, now, row0, history0, row, items, history, committed, sent)
    ensures MonitorLoop(holdings, k + 1, quotes, advisor, now, row0, history0, row, items, history, committed, sent)
  {
    MonitorStepKeeps(holdings, k, quotes, advisor, items);
    CommitSkip(holdings, k, quotes, advisor, items, committed);
    SaleSkip(holdings, k, quotes, advisor, now, history0, history, sent);
  }

  /**
   * `MonitorPosition` on the `k`-th holding of the `monitor_portfolio` loop, which is
   * quoted, seen from the loop: the holdings change as `MonitoredItems` says, a
   * notification is sent exactly when the decision sells, and the books stay
   * `SalesBooked`.
   */
  method MonitorBooked(db: Database, holdings: seq<AiPortfolioItem>, k: nat, quotes: map<string, real>,
                       advisor: Advisor, now: Instant, row0: SettingsRow, history0: seq<AiTradeRecord>)
    returns (more: seq<AiNotification>, raised: bool)
    requires db.settings.Some? && ItemsValid(db.aiItems) && ItemsValid(holdings)
    requires k < |holdings| && Quote(quotes, holdings[k].symbol) > 0.0 && holdings[k] in db.aiItems
    requires SalesBooked(row0, holdings, history0, db.settings.value, db.aiItems, db.aiHistory)
    modifies db
    ensures db.settings.Some? && ItemsValid(db.aiItems)
    ensures db.items == old(db.items) && db.transactions == old(db.transactions) && db.alerts == old(db.alerts)
    ensures db.aiNotifications == old(db.aiNotifications) + more
    ensures SalesBooked(row0, holdings, history0, db.settings.value, db.aiItems, db.aiHistory)
    ensures db.aiItems == MonitoredItems(old(db.aiItems), holdings[k].symbol, advisor, Quote(quotes, holdings[k].symbol))
    ensures raised <==> RaisesOn(holdings[k], quotes, advisor)
    ensures |more| > 0 <==> SellsOn(holdings[k], quotes, advisor)
    ensures !SellsOn(holdings[k], quotes, advisor) ==> Sum(db.aiItems, CostBasis) == old(Sum(db.aiItems, CostBasis))
    ensures db.aiHistory == old(db.aiHistory) +
      (if SellsOn(holdings[k], quotes, advisor) then [SaleRecord(holdings[k], quotes, advisor, now)] else [])
    ensures Logged(old(db.aiHistory), db.aiHistory, more)
  {
    StepDecision(db.aiItems, holdings[k], quotes, advisor);
    ghost var before := db.aiHistory;
    more, raised := MonitorPosition(db, holdings[k].symbol, Quote(quotes, holdings[k].symbol), advisor, now);
    PrefixOfPrefix(before, db.aiHistory, |history0|);
    if |more| > 0 {
      SumSuffixSnoc(before, db.aiHistory[|before|], |history0|, Notional);
    }
  }

  /**
   * The `k`-th holding of the `monitor_portfolio` loop, which is quoted: monitor it with
   * `MonitorBooked` and carry the loop's facts on. `raised` says its decision raises, and
   * then the holdings are rolled back to those last committed; otherwise `next` is the
   * committed holdings once it is passed.
   */
  method MonitorNext(db: Database, holdings: seq<AiPortfolioItem>, k: nat, quotes: map<string, real>, advisor: Advisor,
                     now: Instant, row0: SettingsRow, history0: seq<AiTradeRecord>, committed: seq<AiPortfolioItem>,
                     ghost sent0: seq<AiNotification>)
    returns (more: seq<AiNotification>, raised: bool, next: seq<AiPortfolioItem>)
    requires db.settings.Some? && k < |holdings| && Quote(quotes, holdings[k].symbol) > 0.0
    requires MonitorLoop(holdings, k, quotes, advisor, now, row0, history0, db.settings.value, db.aiItems, db.aiHistory,
                         committed, sent0)
    modifies db
    ensures db.settings.Some? && ItemsValid(db.aiItems)
    ensures db.items == old(db.items) && db.transactions == old(db.transactions) && db.alerts == old(db.alerts)
    ensures db.aiNotifications == old(db.aiNotifications) + more
    ensures raised <==> RaisesOn(holdings[k], quotes, advisor)
    ensures raised ==>
      && advisor.Client?
      && MonitorOutcome(holdings, quotes, advisor, Some(k), db.aiItems)
      && (forall x :: x in db.aiItems ==> x.symbol in Symbols(holdings))
      && (forall x :: x in holdings && Quote(quotes, x.symbol) <= 0.0 ==> x in db.aiItems)
      && SalesBooked(row0, holdings, history0, db.settings.value, db.aiItems, db.aiHistory)
      && SalesLogged(holdings, k, quotes, advisor, now, history0, db.aiHistory, sent0 + more)
    ensures !raised ==>
      MonitorLoop(holdings, k + 1, quotes, advisor, now, row0, history0, db.settings.value, db.aiItems, db.aiHistory,
                  next, sent0 + more)
  {
    assert holdings[k] in db.aiItems by {
      MonitorStepKeeps(holdings, k, quotes, advisor, db.aiItems);
    }
    ghost var itemsBefore := db.aiItems;
    ghost var history := db.aiHistory;
    more, raised := MonitorBooked(db, holdings, k, quotes, advisor, now, row0, history0);
    SaleStep(holdings, k, quotes, advisor, now, history0, history, sent0, db.aiHistory, more);
    next := committed;
    if raised {
      RollBack(db, holdings, k, quotes, advisor, row0, history0, itemsBefore, committed);  // `qty > 0` raised
    } else {
      Passed(holdings, k, quotes, advisor, itemsBefore, committed, db.aiItems);
      if |more| > 0 {
        next := db.aiItems;  // execute_trade committed the sale
      }
    }
  }

  /**
   * `monitor_portfolio`: every holding with a positive quote goes through
   * `MonitorPosition`, in order, and the holdings end as `MonitorAll` says: each quoted
   * holding loses what its decision sells and carries its new price (`SalesApplied`).
   * Monitoring only sells: it opens no position, every history entry it adds is a SELL,
   * and the AI cash balance grows by exactly what those entries earn (`SalesBooked`).
   * Holdings without a positive quote are left as they are. Without a language model
   * nothing raises and the fallback's stop loss and take profit are applied
   * (`FallbackApplied`). A decision that raises stops the loop (`MonitorOutcome`).
   */
  method MonitorPortfolio(db: Database, quotes: map<string, real>, advisor: Advisor, now: Instant)
    returns (sent: seq<AiNotification>, failedAt: Option<nat>)
    requires db.settings.Some? && ItemsValid(db.aiItems)
    modifies db
    ensures db.settings.Some? && ItemsValid(db.aiItems)
    ensures db.items == old(db.items) && db.transactions == old(db.transactions) && db.alerts == old(db.alerts)
    ensures db.aiNotifications == old(db.aiNotifications) + sent
    ensures SalesBooked(old(db.settings.value), old(db.aiItems), old(db.aiHistory), db.settings.value, db.aiItems, db.aiHistory)
    ensures forall x :: x in db.aiItems ==> x.symbol in Symbols(old(db.aiItems))
    ensures forall x :: x in old(db.aiItems) && Quote(quotes, x.symbol) <= 0.0 ==> x in db.aiItems
    ensures MonitorOutcome(old(db.aiItems), quotes, advisor, failedAt, db.aiItems)
    ensures failedAt.None? ==> SalesApplied(old(db.aiItems), quotes, advisor, db.aiItems)
    ensures advisor.NoClient? ==> failedAt.None? && FallbackApplied(old(db.aiItems), quotes, db.aiItems)
    ensures SalesLogged(old(db.aiItems), if failedAt.Some? then failedAt.value else |old(db.aiItems)|, quotes, advisor,
                        now, old(db.aiHistory), db.aiHistory, sent)
  {
    var holdings := db.aiItems;
    var history0 := db.aiHistory;
    var row0 := db.settings.value;
    var committed := holdings;  // the holdings as the session last committed them
    sent := [];
    failedAt := None;
    MonitoredNothing(holdings, quotes, advisor);
    assert holdings[..0] == [];
    assert history0[|history0|..] == [];
    assert SalesLogged(holdings, 0, quotes, advisor, now, history0, db.aiHistory, sent);
    for k := 0 to |holdings|
      invariant db.settings.Some?
      invariant db.items == old(db.items) && db.transactions == old(db.transactions) && db.alerts == old(db.alerts)
      invariant db.aiNotifications == old(db.aiNotifications) + sent
      invariant MonitorLoop(holdings, k, quotes, advisor, now, row0, history0, db.settings.value, db.aiItems,
                            db.aiHistory, committed, sent)
    {
      if Quote(quotes, holdings[k].symbol) <= 0.0 {
        PassUnquoted(holdings, k, quotes, advisor, now, row0, history0, db.settings.value, db.aiItems, db.aiHistory,
                     committed, sent);
        continue;  // invalid price
      }
      var more, raised, next := MonitorNext(db, holdings, k, quotes, advisor, now, row0, history0, committed, sent);
      AppendTwice(old(db.aiNotifications), sent, more);
      sent := sent + more;
      if raised {
        failedAt := Some(k);
        return;
      }
      committed := next;
    }
    MonitorFinished(holdings, quotes, advisor, db.aiItems, committed);
  }

  // ---------------------------------------------------------------------------
  // Candidate scan (run_trading_cycle, _scan_market_candidates)

  /** The blue chips `_scan_market_candidates` always adds. */
  const BlueChips: set<string> := {"OGDC", "PPL", "TRG", "LUCK", "ENGRO"}

  function SymbolSet(s: seq<string>): set<string> {
    set x | x in s
  }

  lemma {:induction false} SymbolSetSize(s: seq<string>)
    ensures |SymbolSet(s)| <= |s|
  {
    if |s| > 0 {
      SymbolSetSize(s[1..]);
      assert SymbolSet(s) == {s[0]} + SymbolSet(s[1..]);
    }
  }

  /**
   * The candidates of one cycle: the top gainers and losers of the market summary (none
   * when the summary is unavailable) and the blue chips; at most 15 symbols.
   */
  function ScanMarketCandidates(summary: MarketData.MarketSummary): (r: set<string>)
    ensures BlueChips <= r
    ensures forall c :: c in r ==>
      (c in BlueChips || (summary.Summary? && (c in summary.topGainers || c in summary.topLosers)))
    ensures summary.Summary? ==> forall c :: c in summary.topGainers || c in summary.topLosers ==> c in r
    ensures MarketData.SummaryBounded(summary) ==> |r| <= |BlueChips| + 2 * MarketData.TopCount
  {
    match summary
    case Summary(_, _, _, _, _, _, gainers, losers) =>
      SymbolSetSize(gainers);
      SymbolSetSize(losers);
      BlueChips + SymbolSet(gainers) + SymbolSet(losers)
    case Unavailable(_, _) =>
      BlueChips
  }

  /** The trade reason of a news-driven purchase; a missing reason reads "None" as in Python. */
  function NewsReason(signal: NewsSignal): string {
    "News Sentiment: " + signal.reason.GetOr("None")
  }

  /** Whether an analysed news item is a BUY signal naming `candidate`. */
  predicate IsBuyFor(signal: NewsSignal, candidate: string) {
    signal.signal == Some(BUY) && signal.symbol == Some(candidate)
  }

  /** Whether the news fetched for `candidate` holds a BUY signal naming it. */
  predicate BuySignalled(news: map<string, seq<NewsSignal>>, candidate: string) {
    candidate in news && exists j :: 0 <= j < |news[candidate]| && IsBuyFor(news[candidate][j], candidate)
  }

  /**
   * What the news loop for `candidate` knows about the holdings `items`, the cash left and
   * the history, given whether a BUY signal was met (`signalled`): the history only grew,
   * by BUYs of the candidate and only once a signal was met; no other holding changed; and
   * after a signal at a positive price the candidate is held unless the price is more than
   * the cash.
   */
  predicate SignalsHandled(items0: seq<AiPortfolioItem>, history0: seq<AiTradeRecord>, candidate: string,
                           signalled: bool, price: real,
                           items: seq<AiPortfolioItem>, cash: real, history: seq<AiTradeRecord>)
  {
    && |history0| <= |history| && history[..|history0|] == history0
    && (forall j :: |history0| <= j < |history| ==> history[j].action == BUY && history[j].symbol == candidate)
    && (forall x :: x in items0 && x.symbol != candidate ==> x in items)
    && (forall x :: x in items && x.symbol != candidate ==> x in items0)
    && (signalled && price > 0.0 ==> FindAi(items, candidate).Some? || price > cash)
    && (|history| > |history0| ==> signalled)
  }

  /**
   * A BUY signal keeps what the news loop knows, given what the sized purchase promises:
   * it buys the candidate or changes nothing, and at a positive price the cash covers it
   * buys.
   */
  lemma SignalStep(items0: seq<AiPortfolioItem>, history0: seq<AiTradeRecord>, candidate: string,
                   signalled: bool, price: real,
                   items: seq<AiPortfolioItem>, cash: real, history: seq<AiTradeRecord>,
                   items': seq<AiPortfolioItem>, cash': real, history': seq<AiTradeRecord>)
    requires SignalsHandled(items0, history0, candidate, signalled, price, items, cash, history)
    requires |history| <= |history'| && history'[..|history|] == history
    requires forall j :: |history| <= j < |history'| ==> history'[j].action == BUY && history'[j].symbol == candidate
    requires forall x :: x in items && x.symbol != candidate ==> x in items'
    requires forall x :: x in items' && x.symbol != candidate ==> x in items
    requires price <= 0.0 || price > cash ==> items' == items && cash' == cash && history' == history
    requires 0.0 < price <= cash ==> FindAi(items', candidate).Some?
    ensures SignalsHandled(items0, history0, candidate, true, price, items', cash', history')
  {
    PrefixOfPrefix(history, history', |history0|);
    forall j | |history0| <= j < |history'|
      ensures history'[j].action == BUY && history'[j].symbol == candidate
    {
      if j < |history| {
        assert history'[j] == history'[..|history|][j];
      }
    }
  }

  /**
   * One BUY signal of the news loop for `candidate`: `_evaluate_and_trade` at the
   * candidate's quote, seen from the loop, which started from `items0`, `history0` and
   * `cash0` and has sent `sent0` so far. It keeps what the loop knows, its purchases
   * sized, and one trade note per new entry.
   */
  method TradeOnNews(db: Database, candidate: string, quotes: map<string, real>, reason: string, now: Instant,
                     ghost items0: seq<AiPortfolioItem>, ghost history0: seq<AiTradeRecord>, ghost cash0: real,
                     ghost signalled: bool, ghost sent0: seq<AiNotification>)
    returns (more: seq<AiNotification>)
    requires db.settings.Some? && ItemsValid(db.aiItems)
    requires SignalsHandled(items0, history0, candidate, signalled, Quote(quotes, candidate),
                            db.aiItems, db.settings.value.aiCashBalance, db.aiHistory)
    requires Purchases(history0, cash0, db.aiHistory, db.settings.value.aiCashBalance, quotes)
    requires Logged(history0, db.aiHistory, sent0)
    modifies db
    ensures db.settings.Some? && ItemsValid(db.aiItems)
    ensures db.settings.value == old(db.settings.value).(aiCashBalance := db.settings.value.aiCashBalance)
    ensures db.settings.value.aiCashBalance <= old(db.settings.value.aiCashBalance)
    ensures db.items == old(db.items) && db.transactions == old(db.transactions) && db.alerts == old(db.alerts)
    ensures db.aiNotifications == old(db.aiNotifications) + more
    ensures ContributedCapital(db.settings.value.aiCashBalance, db.aiItems, db.aiHistory)
         == old(ContributedCapital(db.settings.value.aiCashBalance, db.aiItems, db.aiHistory))
    ensures Drift(db.settings.value, db.aiHistory) == old(Drift(db.settings.value, db.aiHistory))
    ensures SignalsHandled(items0, history0, candidate, true, Quote(quotes, candidate),
                           db.aiItems, db.settings.value.aiCashBalance, db.aiHistory)
    ensures Purchases(history0, cash0, db.aiHistory, db.settings.value.aiCashBalance, quotes)
    ensures Logged(history0, db.aiHistory, sent0 + more)
  {
    ghost var history := db.aiHistory;
    ghost var items := db.aiItems;
    ghost var cash := db.settings.value.aiCashBalance;
    more := EvaluateAndTrade(db, candidate, Quote(quotes, candidate), reason, now);
    Evaluated(history0, cash0, quotes, history, cash, db.aiHistory, db.settings.value.aiCashBalance,
              candidate, reason, now);
    LoggedCompose(history0, history, db.aiHistory, sent0, more);
    SignalStep(items0, history0, candidate, signalled, Quote(quotes, candidate), items, cash, history,
               db.aiItems, db.settings.value.aiCashBalance, db.aiHistory);
  }

  /**
   * The news loop for one candidate not held at the start: every BUY signal for the
   * candidate triggers a sized purchase, so several signals buy several times. After a
   * BUY signal at a positive price the candidate is held, unless that price is more than
   * the cash left; without one nothing is bought.
   */
  method BuyOnSignals(db: Database, candidate: string, signals: seq<NewsSignal>, quotes: map<string, real>,
                      now: Instant) returns (sent: seq<AiNotification>)
    requires db.settings.Some? && ItemsValid(db.aiItems)
    modifies db
    ensures db.settings.Some? && ItemsValid(db.aiItems)
    ensures db.settings.value == old(db.settings.value).(aiCashBalance := db.settings.value.aiCashBalance)
    ensures db.settings.value.aiCashBalance <= old(db.settings.value.aiCashBalance)
    ensures db.items == old(db.items) && db.transactions == old(db.transactions) && db.alerts == old(db.alerts)
    ensures db.aiNotifications == old(db.aiNotifications) + sent
    ensures ContributedCapital(db.settings.value.aiCashBalance, db.aiItems, db.aiHistory)
         == old(ContributedCapital(db.settings.value.aiCashBalance, db.aiItems, db.aiHistory))
    ensures Drift(db.settings.value, db.aiHistory) == old(Drift(db.settings.value, db.aiHistory))
    ensures |old(db.aiHistory)| <= |db.aiHistory| && db.aiHistory[..|old(db.aiHistory)|] == old(db.aiHistory)
    ensures forall k :: |old(db.aiHistory)| <= k < |db.aiHistory| ==>
      db.aiHistory[k].action == BUY && db.aiHistory[k].symbol == candidate
    ensures forall x :: x in old(db.aiItems) && x.symbol != candidate ==> x in db.aiItems
    ensures forall x :: x in db.aiItems && x.symbol != candidate ==> x in old(db.aiItems)
    ensures (exists j :: 0 <= j < |signals| && IsBuyFor(signals[j], candidate)) && Quote(quotes, candidate) > 0.0 ==>
      FindAi(db.aiItems, candidate).Some? || Quote(quotes, candidate) > db.settings.value.aiCashBalance
    ensures |db.aiHistory| > |old(db.aiHistory)| ==> exists j :: 0 <= j < |signals| && IsBuyFor(signals[j], candidate)
    ensures Purchases(old(db.aiHistory), old(db.settings.value.aiCashBalance), db.aiHistory,
                      db.settings.value.aiCashBalance, quotes)
    ensures Logged(old(db.aiHistory), db.aiHistory, sent)
  {
    var history0 := db.aiHistory;
    var row0 := db.settings.value;
    ghost var capital := ContributedCapital(row0.aiCashBalance, db.aiItems, history0);
    ghost var drift := Drift(row0, history0);
    sent := [];
    ghost var signalled := false;
    var price := Quote(quotes, candidate);
    assert history0[|history0|..] == [];
    for k := 0 to |signals|
      invariant db.settings.Some? && ItemsValid(db.aiItems)
      invariant db.settings.value == row0.(aiCashBalance := db.settings.value.aiCashBalance)
      invariant db.settings.value.aiCashBalance <= row0.aiCashBalance
      invariant db.items == old(db.items) && db.transactions == old(db.transactions) && db.alerts == old(db.alerts)
      invariant db.aiNotifications == old(db.aiNotifications) + sent
      invariant ContributedCapital(db.settings.value.aiCashBalance, db.aiItems, db.aiHistory) == capital
      invariant Drift(db.settings.value, db.aiHistory) == drift
      invariant signalled <==> exists j :: 0 <= j < k && IsBuyFor(signals[j], candidate)
      invariant SignalsHandled(old(db.aiItems), history0, candidate, signalled, price,
                               db.aiItems, db.settings.value.aiCashBalance, db.aiHistory)
      invariant Purchases(history0, row0.aiCashBalance, db.aiHistory, db.settings.value.aiCashBalance, quotes)
      invariant Logged(history0, db.aiHistory, sent)
    {
      var signal := signals[k];
      if IsBuyFor(signal, candidate) {
        var more := TradeOnNews(db, candidate, quotes, NewsReason(signal), now,
                                old(db.aiItems), history0, row0.aiCashBalance, signalled, sent);
        AppendTwice(old(db.aiNotifications), sent, more);
        sent := sent + more;
        signalled := true;
      }
    }
  }

  /**
   * What the candidate scan knows once the candidates in `done` are handled, about the
   * holdings `items`, the cash left and the history: the history only grew, by BUYs of
   * candidates not held at the start whose news signalled BUY; no holding of the start is
   * gone and every new one is a candidate; every handled candidate with a BUY signal and
   * a positive quote is held unless its quote is more than the cash.
   */
  predicate ScannedSoFar(held0: seq<AiPortfolioItem>, history0: seq<AiTradeRecord>, candidates: set<string>,
                         done: set<string>, news: map<string, seq<NewsSignal>>, quotes: map<string, real>,
                         items: seq<AiPortfolioItem>, cash: real, history: seq<AiTradeRecord>)
  {
    && |history0| <= |history| && history[..|history0|] == history0
    && (forall j :: |history0| <= j < |history| ==>
          history[j].action == BUY && history[j].symbol in candidates - Symbols(held0)
          && BuySignalled(news, history[j].symbol))
    && (forall x :: x in held0 ==> x in items)
    && (forall x :: x in items ==> x in held0 || x.symbol in candidates)
    && (forall c :: c in done && BuySignalled(news, c) && Quote(quotes, c) > 0.0 ==>
          FindAi(items, c).Some? || Quote(quotes, c) > cash)
  }

  /** Before any candidate is handled the scan knows the starting state. */
  lemma ScannedNothing(held0: seq<AiPortfolioItem>, history0: seq<AiTradeRecord>, candidates: set<string>,
                       news: map<string, seq<NewsSignal>>, quotes: map<string, real>, cash: real)
    ensures ScannedSoFar(held0, history0, candidates, {}, news, quotes, held0, cash, history0)
  {
  }

  /** A candidate already held is skipped, and counts as handled. */
  lemma ScanSkips(held0: seq<AiPortfolioItem>, history0: seq<AiTradeRecord>, candidates: set<string>,
                  done: set<string>, news: map<string, seq<NewsSignal>>, quotes: map<string, real>,
                  items: seq<AiPortfolioItem>, cash: real, history: seq<AiTradeRecord>, candidate: string)
    requires ScannedSoFar(held0, history0, candidates, done, news, quotes, items, cash, history)
    requires FindAi(items, candidate).Some?
    ensures ScannedSoFar(held0, history0, candidates, done + {candidate}, news, quotes, items, cash, history)
  {
  }

  /**
   * Buying on the news of a candidate not held keeps what the scan knows, given what
   * the news loop promises: the cash only falls, the history grows by BUYs of the
   * candidate and only after a BUY signal, no other holding changes, and a BUY signal
   * at a positive quote leaves the candidate held unless the quote is more than the cash.
   */
  lemma ScanStep(held0: seq<AiPortfolioItem>, history0: seq<AiTradeRecord>, candidates: set<string>,
                 done: set<string>, news: map<string, seq<NewsSignal>>, quotes: map<string, real>,
                 items: seq<AiPortfolioItem>, cash: real, history: seq<AiTradeRecord>, candidate: string,
                 items': seq<AiPortfolioItem>, cash': real, history': seq<AiTradeRecord>)
    requires ScannedSoFar(held0, history0, candidates, done, news, quotes, items, cash, history)
    requires candidate in candidates && FindAi(items, candidate).None?
    requires cash' <= cash
    requires |history| <= |history'| && history'[..|history|] == history
    requires forall k :: |history| <= k < |history'| ==>
      history'[k].action == BUY && history'[k].symbol == candidate
    requires |history'| > |history| ==> BuySignalled(news, candidate)
    requires forall x :: x in items && x.symbol != candidate ==> x in items'
    requires forall x :: x in items' && x.symbol != candidate ==> x in items
    requires BuySignalled(news, candidate) && Quote(quotes, candidate) > 0.0 ==>
      FindAi(items', candidate).Some? || Quote(quotes, candidate) > cash'
    ensures ScannedSoFar(held0, history0, candidates, done + {candidate}, news, quotes, items', cash', history')
  {
    NotHeld(items, candidate);
    PrefixOfPrefix(history, history', |history0|);
    assert candidate !in Symbols(held0);
    forall j | |history0| <= j < |history'|
      ensures history'[j].action == BUY && history'[j].symbol in candidates - Symbols(held0)
      ensures BuySignalled(news, history'[j].symbol)
    {
      if j < |history| {
        assert history'[j] == history'[..|history|][j];
      }
    }
    forall c | c in done + {candidate} && BuySignalled(news, c) && Quote(quotes, c) > 0.0
      ensures FindAi(items', c).Some? || Quote(quotes, c) > cash'
    {
      if c != candidate && FindAi(items, c).Some? {
        assert items[FindAi(items, c).value] in items';
        NotHeld(items', c);
      }
    }
  }

  /**
   * One candidate of the scan, not held: buy it on its news, seen from the scan, which
   * started from `held0`, `history0` and `cash0`, has handled `done` and has sent `sent0`
   * so far. It keeps what the scan knows, its purchases sized, and one trade note per
   * new entry.
   */
  method ScanCandidate(db: Database, candidate: string, news: map<string, seq<NewsSignal>>, quotes: map<string, real>,
                       now: Instant, ghost held0: seq<AiPortfolioItem>, ghost history0: seq<AiTradeRecord>,
                       ghost cash0: real, ghost candidates: set<string>, ghost done: set<string>,
                       ghost sent0: seq<AiNotification>)
    returns (more: seq<AiNotification>)
    requires db.settings.Some? && ItemsValid(db.aiItems)
    requires candidate in candidates && FindAi(db.aiItems, candidate).None?
    requires ScannedSoFar(held0, history0, candidates, done, news, quotes,
                          db.aiItems, db.settings.value.aiCashBalance, db.aiHistory)
    requires Purchases(history0, cash0, db.aiHistory, db.settings.value.aiCashBalance, quotes)
    requires Logged(history0, db.aiHistory, sent0)
    modifies db
    ensures db.settings.Some? && ItemsValid(db.aiItems)
    ensures db.settings.value == old(db.settings.value).(aiCashBalance := db.settings.value.aiCashBalance)
    ensures db.settings.value.aiCashBalance <= old(db.settings.value.aiCashBalance)
    ensures db.items == old(db.items) && db.transactions == old(db.transactions) && db.alerts == old(db.alerts)
    ensures db.aiNotifications == old(db.aiNotifications) + more
    ensures ContributedCapital(db.settings.value.aiCashBalance, db.aiItems, db.aiHistory)
         == old(ContributedCapital(db.settings.value.aiCashBalance, db.aiItems, db.aiHistory))
    ensures Drift(db.settings.value, db.aiHistory) == old(Drift(db.settings.value, db.aiHistory))
    ensures ScannedSoFar(held0, history0, candidates, done + {candidate}, news, quotes,
                         db.aiItems, db.settings.value.aiCashBalance, db.aiHistory)
    ensures Purchases(history0, cash0, db.aiHistory, db.settings.value.aiCashBalance, quotes)
    ensures Logged(history0, db.aiHistory, sent0 + more)
  {
    var signals := if candidate in news then news[candidate] else [];
    ghost var history := db.aiHistory;
    ghost var items := db.aiItems;
    ghost var cash := db.settings.value.aiCashBalance;
    more := BuyOnSignals(db, candidate, signals, quotes, now);
    PurchasesCompose(history0, cash0, history, cash, db.aiHistory, db.settings.value.aiCashBalance, quotes);
    LoggedCompose(history0, history, db.aiHistory, sent0, more);
    ScanStep(held0, history0, candidates, done, news, quotes, items, cash, history, candidate,
             db.aiItems, db.settings.value.aiCashBalance, db.aiHistory);
  }

  /**
   * The candidate loop of `run_trading_cycle`, over the candidates in whatever order the
   * set yields them: a candidate already held is skipped; the others are bought on their
   * BUY signals. The scan never touches a position held before it and opens positions
   * only in candidates; every history entry it adds is a BUY of a candidate whose news
   * signalled BUY. Every candidate with such a signal and a positive quote is held
   * afterwards, unless its quote is more than the cash left.
   */
  method ScanCandidates(db: Database, candidates: set<string>, news: map<string, seq<NewsSignal>>,
                        quotes: map<string, real>, now: Instant) returns (sent: seq<AiNotification>)
    requires db.settings.Some? && ItemsValid(db.aiItems)
    modifies db
    ensures db.settings.Some? && ItemsValid(db.aiItems)
    ensures db.settings.value == old(db.settings.value).(aiCashBalance := db.settings.value.aiCashBalance)
    ensures db.settings.value.aiCashBalance <= old(db.settings.value.aiCashBalance)
    ensures db.items == old(db.items) && db.transactions == old(db.transactions) && db.alerts == old(db.alerts)
    ensures db.aiNotifications == old(db.aiNotifications) + sent
    ensures ContributedCapital(db.settings.value.aiCashBalance, db.aiItems, db.aiHistory)
         == old(ContributedCapital(db.settings.value.aiCashBalance, db.aiItems, db.aiHistory))
    ensures Drift(db.settings.value, db.aiHistory) == old(Drift(db.settings.value, db.aiHistory))
    ensures |old(db.aiHistory)| <= |db.aiHistory| && db.aiHistory[..|old(db.aiHistory)|] == old(db.aiHistory)
    ensures forall k :: |old(db.aiHistory)| <= k < |db.aiHistory| ==>
      db.aiHistory[k].action == BUY && db.aiHistory[k].symbol in candidates - Symbols(old(db.aiItems))
    ensures forall x :: x in old(db.aiItems) ==> x in db.aiItems
    ensures forall x :: x in db.aiItems ==> x in old(db.aiItems) || x.symbol in candidates
    ensures forall k :: |old(db.aiHistory)| <= k < |db.aiHistory| ==> BuySignalled(news, db.aiHistory[k].symbol)
    ensures forall c :: c in candidates && BuySignalled(news, c) && Quote(quotes, c) > 0.0 ==>
      FindAi(db.aiItems, c).Some? || Quote(quotes, c) > db.settings.value.aiCashBalance
    ensures Purchases(old(db.aiHistory), old(db.settings.value.aiCashBalance), db.aiHistory,
                      db.settings.value.aiCashBalance, quotes)
    ensures Logged(old(db.aiHistory), db.aiHistory, sent)
  {
    var history0 := db.aiHistory;
    var held0 := db.aiItems;
    var row0 := db.settings.value;
    ghost var capital := ContributedCapital(row0.aiCashBalance, held0, history0);
    ghost var drift := Drift(row0, history0);
    var remaining := candidates;
    sent := [];
    ScannedNothing(held0, history0, candidates, news, quotes, row0.aiCashBalance);
    assert history0[|history0|..] == [];
    while remaining != {}
      invariant remaining <= candidates
      invariant db.settings.Some? && ItemsValid(db.aiItems)
      invariant db.settings.value == row0.(aiCashBalance := db.settings.value.aiCashBalance)
      invariant db.settings.value.aiCashBalance <= row0.aiCashBalance
      invariant db.items == old(db.items) && db.transactions == old(db.transactions) && db.alerts == old(db.alerts)
      invariant db.aiNotifications == old(db.aiNotifications) + sent
      invariant ContributedCapital(db.settings.value.aiCashBalance, db.aiItems, db.aiHistory) == capital
      invariant Drift(db.settings.value, db.aiHistory) == drift
      invariant ScannedSoFar(held0, history0, candidates, candidates - remaining, news, quotes,
                             db.aiItems, db.settings.value.aiCashBalance, db.aiHistory)
      invariant Purchases(history0, row0.aiCashBalance, db.aiHistory, db.settings.value.aiCashBalance, quotes)
      invariant Logged(history0, db.aiHistory, sent)
      decreases |remaining|
    {
      var candidate :| candidate in remaining;
      ghost var done := candidates - remaining;
      remaining := remaining - {candidate};
      assert candidates - remaining == done + {candidate};
      if FindAi(db.aiItems, candidate).Some? {
        ScanSkips(held0, history0, candidates, done, news, quotes,
                  db.aiItems, db.settings.value.aiCashBalance, db.aiHistory, candidate);
        continue;  // already held
      }
      var more := ScanCandidate(db, candidate, news, quotes, now, held0, history0, row0.aiCashBalance,
                                candidates, done, sent);
      AppendTwice(old(db.aiNotifications), sent, more);
      sent := sent + more;
    }
  }

  // ---------------------------------------------------------------------------
  // run_trading_cycle

  /**
   * The history and the cash after a cycle that did not raise, from `history0` and
   * `cash0` with the holdings `items0`: first the `SaleRecords` of monitoring, then only
   * sized purchases, starting from the cash those sales left.
   */
  predicate CycleBooked(items0: seq<AiPortfolioItem>, history0: seq<AiTradeRecord>, cash0: real,
                        quotes: map<string, real>, advisor: Advisor, now: Instant,
                        history: seq<AiTradeRecord>, cash: real)
    requires ItemsValid(items0)
  {
    var sales := SaleRecords(items0, |items0|, quotes, advisor, now);
    var monitored := history0 + sales;
    && |monitored| <= |history| && history[..|monitored|] == monitored
    && Purchases(monitored, cash0 + Sum(sales, Notional), history, cash, quotes)
  }

  /** A full monitoring, which books its `SaleRecords`, followed by sized purchases, is `CycleBooked`. */
  lemma CycleBookedAfterScan(items0: seq<AiPortfolioItem>, history0: seq<AiTradeRecord>, cash0: real,
                             quotes: map<string, real>, advisor: Advisor, now: Instant,
                             history1: seq<AiTradeRecord>, cash1: real, history: seq<AiTradeRecord>, cash: real)
    requires ItemsValid(items0)
    requires history1 == history0 + SaleRecords(items0, |items0|, quotes, advisor, now)
    requires cash1 == cash0 + Sum(SaleRecords(items0, |items0|, quotes, advisor, now), Notional)
    requires Purchases(history1, cash1, history, cash, quotes)
    ensures CycleBooked(items0, history0, cash0, quotes, advisor, now, history, cash)
  {
  }

  /**
   * The trading part of `run_trading_cycle`, inside the trading window: monitor the
   * holdings, then, unless monitoring raised, scan the market candidates. The settings
   * row keeps all but its cash; every new history entry comes with its trade note;
   * monitoring books exactly its `SaleRecords` and the scan only sized purchases.
   */
  method MonitorThenScan(db: Database, quotes: map<string, real>, advisor: Advisor,
                         summary: MarketData.MarketSummary, news: map<string, seq<NewsSignal>>, now: Instant)
    returns (notifications: seq<AiNotification>, failedAt: Option<nat>)
    requires db.settings.Some? && ItemsValid(db.aiItems)
    modifies db
    ensures db.settings.Some? && ItemsValid(db.aiItems)
    ensures db.settings.value == old(db.settings.value).(aiCashBalance := db.settings.value.aiCashBalance)
    ensures db.items == old(db.items) && db.transactions == old(db.transactions) && db.alerts == old(db.alerts)
    ensures db.aiNotifications == old(db.aiNotifications) + notifications
    ensures ContributedCapital(db.settings.value.aiCashBalance, db.aiItems, db.aiHistory)
         == old(ContributedCapital(db.settings.value.aiCashBalance, db.aiItems, db.aiHistory))
    ensures Drift(db.settings.value, db.aiHistory) == old(Drift(db.settings.value, db.aiHistory))
    ensures forall x :: x in db.aiItems ==>
      x.symbol in Symbols(old(db.aiItems)) || x.symbol in ScanMarketCandidates(summary)
    ensures failedAt.None? <==> forall j :: 0 <= j < |old(db.aiItems)| ==> !RaisesOn(old(db.aiItems)[j], quotes, advisor)
    ensures failedAt.Some? ==> MonitorOutcome(old(db.aiItems), quotes, advisor, failedAt, db.aiItems)
    ensures failedAt.None? ==>
      && (forall x :: x in MonitorAll(old(db.aiItems), old(db.aiItems), quotes, advisor) ==> x in db.aiItems)
      && (forall x :: x in db.aiItems ==>
            x in MonitorAll(old(db.aiItems), old(db.aiItems), quotes, advisor) || x.symbol in ScanMarketCandidates(summary))
    ensures failedAt.None? ==>
      forall c :: c in ScanMarketCandidates(summary) && BuySignalled(news, c) && Quote(quotes, c) > 0.0 ==>
        FindAi(db.aiItems, c).Some? || Quote(quotes, c) > db.settings.value.aiCashBalance
    ensures Logged(old(db.aiHistory), db.aiHistory, notifications)
    ensures failedAt.Some? ==>
      db.aiHistory == old(db.aiHistory) + SaleRecords(old(db.aiItems), failedAt.value, quotes, advisor, now)
    ensures failedAt.None? ==>
      CycleBooked(old(db.aiItems), old(db.aiHistory), old(db.settings.value.aiCashBalance), quotes, advisor, now,
                  db.aiHistory, db.settings.value.aiCashBalance)
  {
    var held0 := db.aiItems;
    notifications, failedAt := MonitorPortfolio(db, quotes, advisor, now);
    SalesAreLogged(held0, if failedAt.Some? then failedAt.value else |held0|, quotes, advisor, now,
                   old(db.aiHistory), db.aiHistory, notifications);
    if failedAt.Some? {
      return;  // the exception leaves run_trading_cycle before the scan
    }
    ghost var afterMonitor := db.aiItems;
    ghost var history1 := db.aiHistory;
    ghost var cash1 := db.settings.value.aiCashBalance;
    assert cash1 == old(db.settings.value.aiCashBalance) + Sum(SaleRecords(held0, |held0|, quotes, advisor, now), Notional);
    var more := ScanCandidates(db, ScanMarketCandidates(summary), news, quotes, now);
    CycleBookedAfterScan(held0, old(db.aiHistory), old(db.settings.value.aiCashBalance), quotes, advisor, now,
                         history1, cash1, db.aiHistory, db.settings.value.aiCashBalance);
    AppendTwice(old(db.aiNotifications), notifications, more);
    LoggedCompose(old(db.aiHistory), history1, db.aiHistory, notifications, more);
    notifications := notifications + more;
    forall x | x in db.aiItems
      ensures x.symbol in Symbols(held0) || x.symbol in ScanMarketCandidates(summary)
    {
      if x in afterMonitor {
        assert x.symbol in Symbols(held0);
      }
    }
  }

  /**
   * `run_trading_cycle` at wall-clock time `clock` ("HH:MM"): the settings row is created
   * when missing; outside the trading window nothing else changes and no notification is
   * produced; inside it the holdings are monitored and then the market candidates scanned.
   * When monitoring raises (`failedAt`), the exception leaves the cycle before the scan and
   * the holdings are as `MonitorOutcome` says. Otherwise every holding monitoring leaves is
   * still held and every other holding is a market candidate. Trades keep the contributed
   * capital and the replay drift; every position held after the cycle was held before it
   * or is a market candidate, and after a full scan every candidate whose news signalled
   * BUY at a positive quote is held unless the quote is more than the cash left.
   */
  method RunTradingCycle(db: Database, clock: string, quotes: map<string, real>, advisor: Advisor,
                         summary: MarketData.MarketSummary, news: map<string, seq<NewsSignal>>, now: Instant)
    returns (notifications: seq<AiNotification>, failedAt: Option<nat>)
    requires ItemsValid(db.aiItems)
    modifies db
    ensures db.settings.Some? && ItemsValid(db.aiItems)
    ensures db.settings.value == RowOrDefault(old(db.settings)).(aiCashBalance := db.settings.value.aiCashBalance)
    ensures db.items == old(db.items) && db.transactions == old(db.transactions) && db.alerts == old(db.alerts)
    ensures db.aiNotifications == old(db.aiNotifications) + notifications
    ensures ContributedCapital(db.settings.value.aiCashBalance, db.aiItems, db.aiHistory)
         == ContributedCapital(RowOrDefault(old(db.settings)).aiCashBalance, old(db.aiItems), old(db.aiHistory))
    ensures Drift(db.settings.value, db.aiHistory) == Drift(RowOrDefault(old(db.settings)), old(db.aiHistory))
    ensures |old(db.aiHistory)| <= |db.aiHistory| && db.aiHistory[..|old(db.aiHistory)|] == old(db.aiHistory)
    ensures forall x :: x in db.aiItems ==>
      x.symbol in Symbols(old(db.aiItems)) || x.symbol in ScanMarketCandidates(summary)
    ensures var row := RowOrDefault(old(db.settings));
      !TradingHours.WithinHours(clock, row.tradingStartTime, row.tradingEndTime) ==>
        && notifications == [] && failedAt.None? && db.settings == Some(row)
        && db.aiItems == old(db.aiItems) && db.aiHistory == old(db.aiHistory)
        && db.aiNotifications == old(db.aiNotifications)
    ensures var row := RowOrDefault(old(db.settings));
      TradingHours.WithinHours(clock, row.tradingStartTime, row.tradingEndTime) ==>
        (failedAt.None? <==> forall j :: 0 <= j < |old(db.aiItems)| ==> !RaisesOn(old(db.aiItems)[j], quotes, advisor))
    ensures failedAt.Some? ==> MonitorOutcome(old(db.aiItems), quotes, advisor, failedAt, db.aiItems)
    ensures var row := RowOrDefault(old(db.settings));
      TradingHours.WithinHours(clock, row.tradingStartTime, row.tradingEndTime) && failedAt.None? ==>
        && (forall x :: x in MonitorAll(old(db.aiItems), old(db.aiItems), quotes, advisor) ==> x in db.aiItems)
        && (forall x :: x in db.aiItems ==>
              x in MonitorAll(old(db.aiItems), old(db.aiItems), quotes, advisor) || x.symbol in ScanMarketCandidates(summary))
    ensures var row := RowOrDefault(old(db.settings));
      TradingHours.WithinHours(clock, row.tradingStartTime, row.tradingEndTime) && failedAt.None? ==>
        forall c :: c in ScanMarketCandidates(summary) && BuySignalled(news, c) && Quote(quotes, c) > 0.0 ==>
          FindAi(db.aiItems, c).Some? || Quote(quotes, c) > db.settings.value.aiCashBalance
    ensures Logged(old(db.aiHistory), db.aiHistory, notifications)
    ensures failedAt.Some? ==>
      db.aiHistory == old(db.aiHistory) + SaleRecords(old(db.aiItems), failedAt.value, quotes, advisor, now)
    ensures var row := RowOrDefault(old(db.settings));
      TradingHours.WithinHours(clock, row.tradingStartTime, row.tradingEndTime) && failedAt.None? ==>
        CycleBooked(old(db.aiItems), old(db.aiHistory), row.aiCashBalance, quotes, advisor, now,
                    db.aiHistory, db.settings.value.aiCashBalance)
  {
    if db.settings.None? {
      db.settings := Some(DefaultSettings);
    }
    var row := db.settings.value;
    if !TradingHours.WithinHours(clock, row.tradingStartTime, row.tradingEndTime) {
      assert db.aiHistory[|db.aiHistory|..] == [];
      return [], None;
    }
    ghost var held0, history0 := db.aiItems, db.aiHistory;
    assert row == RowOrDefault(old(db.settings)) && held0 == old(db.aiItems) && history0 == old(db.aiHistory);
    notifications, failedAt := MonitorThenScan(db, quotes, advisor, summary, news, now);
  }

}
