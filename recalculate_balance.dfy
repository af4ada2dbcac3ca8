/**
 * Rebuilding the AI cash balance from the trade history
 * (backend/recalculate_balance.py): start from the initial AI capital, replay
 * every history entry in order, and overwrite the stored balance when it is
 * more than 0.01 away from the replayed one.
 */
module Recalculate {
  import opened Wrappers
  import opened Seqs
  import opened Models

  /** The stored balance is overwritten only when it is further than this from the replayed one. */
  const Tolerance: real := 0.01

  function Abs(x: real): real {
    if x < 0.0 then -x else x
  }

  /** The cash a trade of `quantity` shares at `price` moves: quantity * price. */
  function TradeValue(quantity: int, price: real): (v: real)
    ensures quantity > 0 && price > 0.0 ==> v > 0.0
  {
    quantity as real * price
  }

  /** quantity * price of an entry: what a BUY costs and a SELL earns. */
  function Notional(t: AiTradeRecord): real {
    TradeValue(t.quantity, t.price)
  }

  /** The amount of a DEPOSIT or WITHDRAW entry, which is kept in its price column. */
  function Amount(t: AiTradeRecord): real {
    t.price
  }

  /** What replaying one history entry does to the cash balance. */
  function CashEffect(t: AiTradeRecord): real {
    if t.action == BUY then -Notional(t)
    else if t.action == SELL then Notional(t)
    else if t.action == DEPOSIT then Amount(t)
    else if t.action == WITHDRAW then -Amount(t)
    else 0.0
  }

  /** The balance reached by replaying `trades` in order from `start`. */
  function Replay(start: real, trades: seq<AiTradeRecord>): real
    decreases |trades|
  {
    if |trades| == 0 then start else Replay(start + CashEffect(trades[0]), trades[1..])
  }

  function IsAction(action: string): AiTradeRecord -> bool {
    (t: AiTradeRecord) => t.action == action
  }

  /** An entry whose action is one of the four that move cash. */
  predicate MovesCash(t: AiTradeRecord) {
    t.action in {BUY, SELL, DEPOSIT, WITHDRAW}
  }

  /** Replaying a history in two parts is replaying the second part from where the first one ends. */
  lemma {:induction false} ReplayAppend(start: real, a: seq<AiTradeRecord>, b: seq<AiTradeRecord>)
    ensures Replay(start, a + b) == Replay(Replay(start, a), b)
    decreases |a|
  {
    if |a| > 0 {
      assert (a + b)[0] == a[0] && (a + b)[1..] == a[1..] + b;
      ReplayAppend(start + CashEffect(a[0]), a[1..], b);
    } else {
      assert a + b == b;
    }
  }

  /** Appending one entry to the history moves the replayed balance by that entry's effect. */
  lemma ReplaySnoc(start: real, trades: seq<AiTradeRecord>, t: AiTradeRecord)
    ensures Replay(start, trades + [t]) == Replay(start, trades) + CashEffect(t)
  {
    ReplayAppend(start, trades, [t]);
    assert [t][1..] == [];
  }

  /** Peeling the first entry off a filtered sum. */
  lemma SumFilterStep(trades: seq<AiTradeRecord>, p: AiTradeRecord -> bool, f: AiTradeRecord -> real)
    requires |trades| > 0
    ensures Sum(Filter(trades, p), f) ==
      (if p(trades[0]) then f(trades[0]) else 0.0) + Sum(Filter(trades[1..], p), f)
  {
    if p(trades[0]) {
      var rest := Filter(trades[1..], p);
      assert Filter(trades, p) == [trades[0]] + rest;
      assert ([trades[0]] + rest)[1..] == rest;
    }
  }

  /**
   * The replayed balance is the start, minus every BUY's quantity * price, plus every
   * SELL's, plus every DEPOSIT amount, minus every WITHDRAW amount.
   */
  lemma {:induction false} ReplayDecomposition(start: real, trades: seq<AiTradeRecord>)
    ensures Replay(start, trades) ==
      start
      - Sum(Filter(trades, IsAction(BUY)), Notional)
      + Sum(Filter(trades, IsAction(SELL)), Notional)
      + Sum(Filter(trades, IsAction(DEPOSIT)), Amount)
      - Sum(Filter(trades, IsAction(WITHDRAW)), Amount)
    decreases |trades|
  {
    if |trades| > 0 {
      var t, rest := trades[0], trades[1..];
      assert Replay(start, trades) == Replay(start + CashEffect(t), rest);
      ReplayDecomposition(start + CashEffect(t), rest);
      SumFilterStep(trades, IsAction(BUY), Notional);
      SumFilterStep(trades, IsAction(SELL), Notional);
      SumFilterStep(trades, IsAction(DEPOSIT), Amount);
      SumFilterStep(trades, IsAction(WITHDRAW), Amount);
      var b, s := Sum(Filter(rest, IsAction(BUY)), Notional), Sum(Filter(rest, IsAction(SELL)), Notional);
      var d, w := Sum(Filter(rest, IsAction(DEPOSIT)), Amount), Sum(Filter(rest, IsAction(WITHDRAW)), Amount);
      assert Replay(start + CashEffect(t), rest) == start + CashEffect(t) - b + s + d - w;
    }
  }

  /** Entries with any other action leave the replayed balance as it is. */
  lemma ReplayIgnoresOtherActions(start: real, trades: seq<AiTradeRecord>)
    ensures Replay(start, trades) == Replay(start, Filter(trades, MovesCash))
  {
    var kept := Filter(trades, MovesCash);
    ReplayDecomposition(start, trades);
    ReplayDecomposition(start, kept);
    FilterNested(trades, MovesCash, IsAction(BUY));
    FilterNested(trades, MovesCash, IsAction(SELL));
    FilterNested(trades, MovesCash, IsAction(DEPOSIT));
    FilterNested(trades, MovesCash, IsAction(WITHDRAW));
  }

  /** The loop of `recalculate_ai_balance`: replay every history entry in order. */
  method ComputeBalance(initial: real, trades: seq<AiTradeRecord>) returns (balance: real)
    ensures balance == Replay(initial, trades)
  {
    balance := initial;
    for i := 0 to |trades|
      invariant balance == Replay(initial, trades[..i])
    {
      var t := trades[i];
      var totalValue := t.quantity as real * t.price;
      if t.action == BUY {
        balance := balance - totalValue;
      } else if t.action == SELL {
        balance := balance + totalValue;
      } else if t.action == DEPOSIT {
        balance := balance + t.price;
      } else if t.action == WITHDRAW {
        balance := balance - t.price;
      }
      assert trades[..i + 1] == trades[..i] + [t];
      ReplaySnoc(initial, trades[..i], t);
    }
    assert trades[..|trades|] == trades;
  }

  /**
   * The settings row a recalculation leaves behind: the stored (or default) row, with its AI
   * cash replaced by the replayed balance when the two are more than the tolerance apart.
   */
  function Recalculated(settings: Option<SettingsRow>, history: seq<AiTradeRecord>): SettingsRow {
    var before := RowOrDefault(settings);
    var computed := Replay(before.initialAiCapital, history);
    if Abs(before.aiCashBalance - computed) > Tolerance then before.(aiCashBalance := computed) else before
  }

  /**
   * Recalculating twice over the same history is recalculating once: after the first run the
   * stored balance is within the tolerance of the replay, so the second run overwrites nothing.
   */
  lemma RecalculateTwice(settings: Option<SettingsRow>, history: seq<AiTradeRecord>)
    ensures var once := Recalculated(settings, history);
      Abs(once.aiCashBalance - Replay(once.initialAiCapital, history)) <= Tolerance
    ensures Recalculated(Some(Recalculated(settings, history)), history) == Recalculated(settings, history)
  {
  }

  /**
   * `recalculate_ai_balance`: get or create the settings row, replay the history from the
   * initial AI capital, and overwrite the AI cash balance only when it is off by more than
   * the tolerance. Returns the replayed balance.
   */
  method RecalculateAiBalance(db: Database) returns (computed: real)
    modifies db
    ensures computed == Replay(RowOrDefault(old(db.settings)).initialAiCapital, old(db.aiHistory))
    ensures db.settings.Some?
    ensures Abs(db.settings.value.aiCashBalance - computed) <= Tolerance
    ensures var before := RowOrDefault(old(db.settings));
      db.settings.value == (if Abs(before.aiCashBalance - computed) > Tolerance
                            then before.(aiCashBalance := computed) else before)
    ensures db.settings == Some(Recalculated(old(db.settings), old(db.aiHistory)))
    ensures db.items == old(db.items) && db.transactions == old(db.transactions)
    ensures db.aiItems == old(db.aiItems) && db.aiHistory == old(db.aiHistory)
    ensures db.aiNotifications == old(db.aiNotifications) && db.alerts == old(db.alerts)
  {
    var row := RowOrDefault(db.settings);
    db.settings := Some(row);
    computed := ComputeBalance(row.initialAiCapital, db.aiHistory);
    if Abs(row.aiCashBalance - computed) > Tolerance {
      db.settings := Some(row.(aiCashBalance := computed));
    }
  }
}
