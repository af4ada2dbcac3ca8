/**
 * The daily trade budget (backend/budget_engine.py): the configured daily limit plus the
 * rolled-over share of the previous day's unused budget, the date of the last budget
 * query, and the end-of-day carryover. Days are UTC calendar days.
 */
module Budget {
  import opened Wrappers
  import opened Models

  const SecondsPerDay := 86400

  /** The UTC calendar day of an instant (days since the epoch, rounding down). */
  function DayOf(t: Instant): int {
    t / SecondsPerDay
  }

  /** The budget a settings row grants: the daily limit plus the rolled-over share of the carryover. */
  function BudgetOf(row: SettingsRow): real {
    row.dailyTradeBudget + row.unusedBudgetCarryover * row.rolloverPercent
  }

  /** No budget has been asked for yet on the UTC day of `now`. */
  predicate IsNewDay(row: SettingsRow, now: Instant) {
    row.lastRunDate.None? || DayOf(row.lastRunDate.value) != DayOf(now)
  }

  /**
   * The settings row after the budget is asked for at `now`: the first query of a day
   * stamps the row with `now`; any later query that day leaves every field as it is.
   */
  function AfterBudgetQuery(row: SettingsRow, now: Instant): (r: SettingsRow)
    ensures IsNewDay(row, now) ==> r == row.(lastRunDate := Some(now))
    ensures !IsNewDay(row, now) ==> r == row
    ensures forall later: Instant :: DayOf(later) == DayOf(now) ==> !IsNewDay(r, later)
    ensures BudgetOf(r) == BudgetOf(row)
  {
    if IsNewDay(row, now) then row.(lastRunDate := Some(now)) else row
  }

  /** What is left of `budget` after spending `used`, never below zero (`max(0, budget - used)`). */
  function Carryover(budget: real, used: real): (c: real)
    ensures c >= 0.0 && c >= budget - used
    ensures c == 0.0 || c == budget - used
    ensures c == 0.0 <==> used >= budget
  {
    if budget - used > 0.0 then budget - used else 0.0
  }

  /** The settings row after the end of a day on which `used` was spent. */
  function AfterEndOfDay(row: SettingsRow, used: real, now: Instant): (r: SettingsRow)
    ensures r.unusedBudgetCarryover >= 0.0
    ensures used >= BudgetOf(row) ==> BudgetOf(r) == row.dailyTradeBudget
    ensures r.(unusedBudgetCarryover := row.unusedBudgetCarryover) == AfterBudgetQuery(row, now)
  {
    AfterBudgetQuery(row, now).(unusedBudgetCarryover := Carryover(BudgetOf(row), used))
  }

  /**
   * Two queries on the same day give the same budget, and the second changes nothing.
   */
  lemma SameDayQueriesAgree(row: SettingsRow, now: Instant, later: Instant)
    requires DayOf(later) == DayOf(now)
    ensures AfterBudgetQuery(AfterBudgetQuery(row, now), later) == AfterBudgetQuery(row, now)
    ensures BudgetOf(AfterBudgetQuery(row, now)) == BudgetOf(row)
  {
    assert !IsNewDay(AfterBudgetQuery(row, now), later);
  }

  /**
   * With a rollover share in [0, 1) and a non-negative daily limit, a budget no larger
   * than `daily / (1 - rollover)` stays within that bound after any day of non-negative
   * spending: the rollover cannot make the budget grow without limit.
   */
  lemma BudgetStaysBounded(row: SettingsRow, used: real, now: Instant)
    requires 0.0 <= row.rolloverPercent < 1.0 && row.dailyTradeBudget >= 0.0 && used >= 0.0
    requires BudgetOf(row) * (1.0 - row.rolloverPercent) <= row.dailyTradeBudget
    ensures var next := AfterEndOfDay(row, used, now);
      BudgetOf(next) * (1.0 - next.rolloverPercent) <= next.dailyTradeBudget
  {
    var next := AfterEndOfDay(row, used, now);
    var c := next.unusedBudgetCarryover;
    assert c == 0.0 || c <= BudgetOf(row);
    BoundStep(row.dailyTradeBudget, row.rolloverPercent, BudgetOf(row), c);
  }

  /** The arithmetic of one day: rolling over at most the bounded budget keeps the bound. */
  lemma BoundStep(daily: real, rho: real, b: real, c: real)
    requires 0.0 <= rho < 1.0 && daily >= 0.0 && c >= 0.0
    requires b * (1.0 - rho) <= daily
    requires c == 0.0 || c <= b
    ensures (daily + c * rho) * (1.0 - rho) <= daily
  {
    var k := 1.0 - rho;
    assert (daily + c * rho) * k == daily * k + rho * (c * k);
    if c == 0.0 {
      assert rho * (c * k) == 0.0;
      NonNegProduct(daily, rho);
    } else {
      NonNegProduct(b - c, k);
      assert c * k <= b * k;
      NonNegProduct(rho, b * k - c * k);
      assert rho * (c * k) <= rho * (b * k);
      NonNegProduct(rho, daily - b * k);
      assert rho * (b * k) <= rho * daily;
    }
  }

  lemma NonNegProduct(x: real, y: real)
    requires x >= 0.0 && y >= 0.0
    ensures x * y >= 0.0
  {
  }

  /** A budget engine works on the settings row of one database. */
  class BudgetEngine {
    const db: Database

    /** Creates the default settings row when the database has none. */
    constructor (db: Database)
      modifies db
      ensures this.db == db
      ensures db.settings == Some(RowOrDefault(old(db.settings)))
      ensures db.items == old(db.items) && db.transactions == old(db.transactions)
      ensures db.aiItems == old(db.aiItems) && db.aiHistory == old(db.aiHistory)
      ensures db.aiNotifications == old(db.aiNotifications) && db.alerts == old(db.alerts)
    {
      this.db := db;
      new;
      if db.settings.None? {
        db.settings := Some(DefaultSettings);
      }
    }

    /**
     * `get_daily_budget`: the budget of the current row on both branches; the first query
     * of a UTC day records `now` as the last run date.
     */
    method GetDailyBudget(now: Instant) returns (budget: real)
      requires db.settings.Some?
      modifies db
      ensures budget == BudgetOf(old(db.settings.value))
      ensures db.settings == Some(AfterBudgetQuery(old(db.settings.value), now))
      ensures db.items == old(db.items) && db.transactions == old(db.transactions)
      ensures db.aiItems == old(db.aiItems) && db.aiHistory == old(db.aiHistory)
      ensures db.aiNotifications == old(db.aiNotifications) && db.alerts == old(db.alerts)
    {
      var row := db.settings.value;
      var lastRun := if row.lastRunDate.Some? then Some(DayOf(row.lastRunDate.value)) else None;
      if lastRun != Some(DayOf(now)) {
        var rolloverAmount := row.unusedBudgetCarryover * row.rolloverPercent;
        budget := row.dailyTradeBudget + rolloverAmount;
        db.settings := Some(row.(lastRunDate := Some(now)));
      } else {
        var rolloverAmount := row.unusedBudgetCarryover * row.rolloverPercent;
        budget := row.dailyTradeBudget + rolloverAmount;
      }
    }

    /**
     * `update_end_of_day`: asks for the day's budget (which may stamp the row) and stores
     * what was not spent of it as the carryover, never below zero.
     */
    method UpdateEndOfDay(used: real, now: Instant)
      requires db.settings.Some?
      modifies db
      ensures db.settings == Some(AfterEndOfDay(old(db.settings.value), used, now))
      ensures db.settings.value.unusedBudgetCarryover >= 0.0
      ensures db.items == old(db.items) && db.transactions == old(db.transactions)
      ensures db.aiItems == old(db.aiItems) && db.aiHistory == old(db.aiHistory)
      ensures db.aiNotifications == old(db.aiNotifications) && db.alerts == old(db.alerts)
    {
      var dailyLimit := GetDailyBudget(now);
      var unused := if dailyLimit - used > 0.0 then dailyLimit - used else 0.0;
      db.settings := Some(db.settings.value.(unusedBudgetCarryover := unused));
    }
  }

  /**
   * A caller that asks an engine for the budget twice on the same UTC day receives the same
   * amount both times, and the second query leaves the settings as the first left them.
   */
  method QueryTwiceSameDay(engine: BudgetEngine, now: Instant, later: Instant)
    returns (first: real, second: real)
    requires engine.db.settings.Some?
    requires DayOf(later) == DayOf(now)
    modifies engine.db
    ensures first == second
    ensures engine.db.settings == Some(AfterBudgetQuery(old(engine.db.settings.value), now))
  {
    first := engine.GetDailyBudget(now);
    var between := engine.db.settings;
    second := engine.GetDailyBudget(later);
    assert engine.db.settings == between;
  }
}
