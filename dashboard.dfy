/**
 * The two list filters of the AI dashboard (frontend/src/components/AIStockDashboard.jsx):
 * the activity-log time filter over notifications, the P&L filter over trades, and the
 * reading of the custom day count from its input box.
 *
 * Times are milliseconds since the Unix epoch. The backend sends notification stamps as
 * UTC date-times without a zone suffix; `stamp` below is the instant that text denotes
 * when read as UTC. The browser's zone is a fixed offset `offset` (local = UTC + offset).
 */
module Dashboard {
  import opened Wrappers
  import opened Seqs
  import opened Models
  import TradingHours
  import Agent
  import MarketData

  const DayMs := 86400000

  /** A notification as the dashboard receives it. */
  datatype ActivityEntry = ActivityEntry(title: string, message: string, kind: string, stamp: int)

  /** The local calendar day of an instant (days since the epoch in the browser's zone). */
  function LocalDay(t: int, offset: int): int {
    (t + offset) / DayMs
  }

  /**
   * The largest distance from the epoch a JavaScript `Date` can hold, in milliseconds
   * (100,000,000 days); moving a date past it makes it an Invalid Date.
   */
  const MaxTime := 8_640_000_000_000_000

  /**
   * Whether an entry at `t` is no older than `days` days before `now`. The window start is
   * `now` moved back with `setDate`; when that lands outside the `Date` range the start is
   * an Invalid Date, every comparison with it is false, and nothing is kept.
   */
  predicate WithinDays(days: int, now: int, t: int) {
    var start := now - days * DayMs;
    -MaxTime <= start <= MaxTime && t >= start
  }

  /**
   * Whether the activity filter `filter` keeps an entry whose parsed time is `t`:
   * "all" keeps everything; "today" keeps entries on now's local calendar day; "week",
   * "month" and "custom" keep entries no older than 7, 30 and `customDays` days; any other
   * value keeps everything.
   */
  predicate Keep(filter: string, customDays: int, now: int, offset: int, t: int) {
    if filter == "all" then true
    else if filter == "today" then LocalDay(t, offset) == LocalDay(now, offset)
    else if filter == "week" then WithinDays(7, now, t)
    else if filter == "month" then WithinDays(30, now, t)
    else if filter == "custom" then WithinDays(customDays, now, t)
    else true
  }

  /** Whether the filter as written keeps `n`: its stamp is parsed `offset` too early. */
  predicate KeepAsWritten(filter: string, customDays: int, now: int, offset: int, n: ActivityEntry) {
    Keep(filter, customDays, now, offset, n.stamp - offset)
  }

  /**
   * The activity filter as written: each stamp is parsed without its zone, so the browser
   * reads the UTC text as local time and the parsed instant is `offset` too early.
   */
  function FilterAsWritten(notes: seq<ActivityEntry>, filter: string, customDays: int, now: int, offset: int)
    : (r: seq<ActivityEntry>)
    ensures IsSubsequence(r, notes)
    ensures forall i :: 0 <= i < |r| ==> KeepAsWritten(filter, customDays, now, offset, r[i])
    ensures forall i :: 0 <= i < |notes| && KeepAsWritten(filter, customDays, now, offset, notes[i]) ==> notes[i] in r
    ensures forall n :: multiset(r)[n] ==
                        if KeepAsWritten(filter, customDays, now, offset, n) then multiset(notes)[n] else 0
  {
    FilterCounts(notes, (n: ActivityEntry) => KeepAsWritten(filter, customDays, now, offset, n));
    Filter(notes, (n: ActivityEntry) => KeepAsWritten(filter, customDays, now, offset, n))
  }

  /**
   * The activity filter with each stamp read as the UTC instant it denotes, as the list
   * itself displays it: an order-preserving selection of exactly the entries `Keep` accepts.
   */
  function FilterNotifications(notes: seq<ActivityEntry>, filter: string, customDays: int, now: int, offset: int)
    : (r: seq<ActivityEntry>)
    ensures IsSubsequence(r, notes)
    ensures forall i :: 0 <= i < |r| ==> Keep(filter, customDays, now, offset, r[i].stamp)
    ensures forall i :: 0 <= i < |notes| && Keep(filter, customDays, now, offset, notes[i].stamp) ==> notes[i] in r
    ensures forall n :: multiset(r)[n] ==
                        if Keep(filter, customDays, now, offset, n.stamp) then multiset(notes)[n] else 0
  {
    FilterCounts(notes, (n: ActivityEntry) => Keep(filter, customDays, now, offset, n.stamp));
    Filter(notes, (n: ActivityEntry) => Keep(filter, customDays, now, offset, n.stamp))
  }

  /** The "all" filter, and any value the filter does not recognise, returns the log unchanged. */
  lemma AllKeepsEverything(notes: seq<ActivityEntry>, filter: string, customDays: int, now: int, offset: int)
    requires filter == "all" || filter !in {"today", "week", "month", "custom"}
    ensures FilterNotifications(notes, filter, customDays, now, offset) == notes
  {
    FilterKeepsAll(notes, (n: ActivityEntry) => Keep(filter, customDays, now, offset, n.stamp));
  }

  /**
   * At the same moment the last week's entries are among the last month's, which are among
   * all entries, for any clock at least 30 days inside the `Date` range.
   */
  lemma WeekWithinMonthWithinAll(notes: seq<ActivityEntry>, customDays: int, now: int, offset: int)
    requires now - 30 * DayMs >= -MaxTime
    ensures IsSubsequence(FilterNotifications(notes, "week", customDays, now, offset),
                          FilterNotifications(notes, "month", customDays, now, offset))
    ensures IsSubsequence(FilterNotifications(notes, "month", customDays, now, offset),
                          FilterNotifications(notes, "all", customDays, now, offset))
  {
    var week := (n: ActivityEntry) => Keep("week", customDays, now, offset, n.stamp);
    var month := (n: ActivityEntry) => Keep("month", customDays, now, offset, n.stamp);
    var all := (n: ActivityEntry) => Keep("all", customDays, now, offset, n.stamp);
    FilterMonotone(notes, week, month);
    FilterMonotone(notes, month, all);
  }

  /**
   * A custom window of `fewer` days selects within a custom window of `more` days, as long
   * as the longer window still starts inside the `Date` range.
   */
  lemma CustomWindowsNest(notes: seq<ActivityEntry>, fewer: int, more: int, now: int, offset: int)
    requires fewer <= more && now - more * DayMs >= -MaxTime
    ensures IsSubsequence(FilterNotifications(notes, "custom", fewer, now, offset),
                          FilterNotifications(notes, "custom", more, now, offset))
  {
    var small := (n: ActivityEntry) => Keep("custom", fewer, now, offset, n.stamp);
    var large := (n: ActivityEntry) => Keep("custom", more, now, offset, n.stamp);
    forall n: ActivityEntry | small(n) ensures large(n) {
      assert fewer * DayMs <= more * DayMs;
    }
    FilterMonotone(notes, small, large);
  }

  /** A custom window reaching back past the start of the `Date` range keeps nothing at all. */
  lemma CustomWindowPastRangeKeepsNothing(notes: seq<ActivityEntry>, days: int, now: int, offset: int)
    requires now - days * DayMs < -MaxTime
    ensures FilterNotifications(notes, "custom", days, now, offset) == []
  {
  }

  /**
   * With the clock 20000 days after the epoch, a custom count of 100030000 (which the day
   * box's `max` of 365 does not stop being typed) empties the log that a 365-day window
   * shows in full: a larger count does not always keep more.
   */
  lemma HugeCustomCountEmptiesLog()
    ensures var now := 20000 * DayMs;
      var note := ActivityEntry("Trade", "", "TRADE", now - 1000);
      && FilterNotifications([note], "custom", 365, now, KarachiOffset) == [note]
      && FilterNotifications([note], "custom", 100030000, now, KarachiOffset) == []
  {
    var now := 20000 * DayMs;
    var note := ActivityEntry("Trade", "", "TRADE", now - 1000);
    CustomWindowPastRangeKeepsNothing([note], 100030000, now, KarachiOffset);
    assert [note][1..] == [];
  }

  /** The day box reads the typed text "100030000" as that count. */
  lemma HugeCountIsRead()
    ensures CustomDays("100030000") == 100030000
  {
    assert Decimal(1) == "1";
    assert Decimal(10) == "10";
    assert Decimal(100) == "100";
    assert Decimal(1000) == "1000";
    assert Decimal(10003) == "10003";
    assert Decimal(100030) == "100030";
    assert Decimal(1000300) == "1000300";
    assert Decimal(10003000) == "10003000";
    assert Decimal(100030000) + "" == "100030000";
    ReadsBackDecimal(100030000, "");
  }

  /** Pakistan Standard Time, five hours ahead of UTC, the zone the dashboard displays. */
  const KarachiOffset := 5 * 3600000

  /**
   * A notification stamped one second before `now`, at 23:00 UTC, seen from UTC+5 (04:00
   * local on the next day): the filter as written drops it from "today", while reading the
   * stamp as UTC keeps it.
   */
  lemma TodayDropsFreshNoteAsWritten()
    ensures var now := 20000 * DayMs + 23 * 3600000;
      var note := ActivityEntry("Trade", "", "TRADE", now - 1000);
      && FilterAsWritten([note], "today", 3, now, KarachiOffset) == []
      && FilterNotifications([note], "today", 3, now, KarachiOffset) == [note]
  {
    var now := 20000 * DayMs + 23 * 3600000;
    var note := ActivityEntry("Trade", "", "TRADE", now - 1000);
    assert LocalDay(note.stamp - KarachiOffset, KarachiOffset) == 20000;
    assert LocalDay(now, KarachiOffset) == 20001;
    assert LocalDay(note.stamp, KarachiOffset) == 20001;
    assert [note][1..] == [];
  }

  // ---------------------------------------------------------------------------
  // Trades with a realised P&L

  /** `pnlTrades`: the trades carrying a P&L (the sells), in their original order. */
  function PnlTrades(trades: seq<AiTradeRecord>): (r: seq<AiTradeRecord>)
    ensures IsSubsequence(r, trades)
    ensures forall i :: 0 <= i < |r| ==> r[i].pnl.Some?
    ensures forall i :: 0 <= i < |trades| && trades[i].pnl.Some? ==> trades[i] in r
    ensures forall t :: multiset(r)[t] == if t.pnl.Some? then multiset(trades)[t] else 0
  {
    FilterCounts(trades, (t: AiTradeRecord) => t.pnl.Some?);
    Filter(trades, (t: AiTradeRecord) => t.pnl.Some?)
  }

  /** Leaving out the trades without a P&L loses none of the realised P&L. */
  lemma {:induction false} PnlTradesKeepRealised(trades: seq<AiTradeRecord>)
    ensures Sum(PnlTrades(trades), Agent.RealisedPnl) == Sum(trades, Agent.RealisedPnl)
  {
    if |trades| > 0 {
      PnlTradesKeepRealised(trades[1..]);
      if trades[0].pnl.Some? {
        assert PnlTrades(trades) == [trades[0]] + PnlTrades(trades[1..]);
        assert ([trades[0]] + PnlTrades(trades[1..]))[1..] == PnlTrades(trades[1..]);
      } else {
        assert PnlTrades(trades) == PnlTrades(trades[1..]);
      }
    }
  }

  // ---------------------------------------------------------------------------
  // The custom day count

  /** The longest prefix of `s` made of decimal digits. */
  function LeadingDigits(s: string): (d: string)
    ensures d <= s
    ensures forall i :: 0 <= i < |d| ==> TradingHours.IsDigit(d[i])
    ensures |d| < |s| ==> !TradingHours.IsDigit(s[|d|])
  {
    if |s| == 0 || !TradingHours.IsDigit(s[0]) then [] else [s[0]] + LeadingDigits(s[1..])
  }

  /** The value of a string of decimal digits, most significant first. */
  function DigitsValue(d: string): (v: nat)
    requires forall i :: 0 <= i < |d| ==> TradingHours.IsDigit(d[i])
  {
    if |d| == 0 then 0
    else DigitsValue(d[..|d| - 1]) * 10 + TradingHours.DigitValue(d[|d| - 1])
  }

  /**
   * The characters JavaScript skips before a number: ECMAScript's white space (tab,
   * vertical tab, form feed, space, no-break space, byte order mark and the Unicode space
   * separators) and its line terminators.
   */
  predicate IsJsSpace(c: char) {
    || '\t' <= c <= '\r' || c == ' '
    || c == '\U{A0}' || c == '\U{1680}'
    || '\U{2000}' <= c <= '\U{200A}'
    || c == '\U{2028}' || c == '\U{2029}' || c == '\U{202F}' || c == '\U{205F}' || c == '\U{3000}'
    || c == '\U{FEFF}'
  }

  /** `s` with its leading JavaScript white space removed. */
  function TrimStart(s: string): (r: string)
    ensures |r| <= |s| && r == s[|s| - |r|..]
    ensures |r| > 0 ==> !IsJsSpace(r[0])
    ensures forall i :: 0 <= i < |s| - |r| ==> IsJsSpace(s[i])
  {
    if |s| > 0 && IsJsSpace(s[0]) then TrimStart(s[1..]) else s
  }

  /**
   * JavaScript's `parseInt(s)` in base 10: after leading white space an optional sign and
   * then as many digits as follow; no digit at all gives NaN (`None`).
   */
  function ParseInt(s: string): Option<int> {
    ParseSigned(TrimStart(s))
  }

  /** `parseInt` once the leading whitespace is gone: an optional sign, then the digits. */
  function ParseSigned(t: string): Option<int> {
    if |t| > 0 && t[0] == '-' then
      match ParseDigits(t[1..])
      case None => None
      case Some(v) => Some(0 - v)
    else if |t| > 0 && t[0] == '+' then ParseDigits(t[1..])
    else ParseDigits(t)
  }

  /** The value of the digits `s` starts with; `None` when it starts with none. */
  function ParseDigits(s: string): Option<int> {
    var digits := LeadingDigits(s);
    if |digits| == 0 then None else Some(DigitsValue(digits))
  }

  /**
   * `parseInt(value) || 1`: a missing number (NaN) and zero both become 1; every other
   * value, negative ones included, is taken as it is.
   */
  function CustomDays(s: string): (days: int)
    ensures days != 0
    ensures ParseInt(s).None? ==> days == 1
    ensures ParseInt(s) == Some(0) ==> days == 1
    ensures ParseInt(s).Some? && ParseInt(s).value != 0 ==> days == ParseInt(s).value
  {
    match ParseInt(s)
    case None => 1
    case Some(n) => if n == 0 then 1 else n
  }

  /** The decimal digits of a natural number, without leading zeros. */
  function Decimal(n: nat): (d: string)
    ensures |d| > 0
    ensures forall i :: 0 <= i < |d| ==> TradingHours.IsDigit(d[i])
  {
    if n < 10 then ['0' + n as char]
    else Decimal(n / 10) + ['0' + (n % 10) as char]
  }

  lemma {:induction false} DecimalValue(n: nat)
    ensures DigitsValue(Decimal(n)) == n
  {
    if n >= 10 {
      DecimalValue(n / 10);
      var d := Decimal(n);
      assert d[..|d| - 1] == Decimal(n / 10);
    }
  }

  lemma {:induction false} AllDigitsLead(d: string, rest: string)
    requires forall i :: 0 <= i < |d| ==> TradingHours.IsDigit(d[i])
    requires |rest| == 0 || !TradingHours.IsDigit(rest[0])
    ensures LeadingDigits(d + rest) == d
  {
    if |d| > 0 {
      AllDigitsLead(d[1..], rest);
      assert (d + rest)[1..] == d[1..] + rest;
      assert d == [d[0]] + d[1..];
    }
  }

  /** A digit string, followed by anything that is not a digit, is read as its value. */
  lemma DigitsReadBack(d: string, rest: string)
    requires |d| > 0 && forall i :: 0 <= i < |d| ==> TradingHours.IsDigit(d[i])
    requires |rest| == 0 || !TradingHours.IsDigit(rest[0])
    ensures ParseDigits(d + rest) == Some(DigitsValue(d) as int)
  {
    AllDigitsLead(d, rest);
  }

  /** Text that does not start with whitespace is left as it is by the whitespace strip. */
  lemma NoLeadingSpace(t: string)
    requires |t| > 0 && !IsJsSpace(t[0])
    ensures TrimStart(t) == t
  {
  }

  /**
   * A day count typed as its decimal digits, followed by anything that is not a digit, is
   * read back as that number; 0 becomes 1.
   */
  lemma ReadsBackDecimal(n: nat, rest: string)
    requires |rest| == 0 || !TradingHours.IsDigit(rest[0])
    ensures ParseInt(Decimal(n) + rest) == Some(n)
    ensures CustomDays(Decimal(n) + rest) == if n == 0 then 1 else n
  {
    var d := Decimal(n);
    var t := d + rest;
    DigitsReadBack(d, rest);
    DecimalValue(n);
    assert t[0] == d[0] && TradingHours.IsDigit(t[0]);
    NoLeadingSpace(t);
    assert ParseSigned(t) == ParseDigits(t);
  }

  /**
   * An empty value, which is what the number box reports for an empty or unparsable
   * entry, gives 1; so does text without digits, which only `parseInt` itself sees.
   */
  lemma NoNumberGivesOne()
    ensures CustomDays("") == 1
    ensures CustomDays("abc") == 1
  {
    assert TrimStart("abc") == "abc";
  }

  /** A leading minus sign negates whatever the digits after it read as. */
  lemma MinusNegates(u: string)
    ensures ParseSigned(['-'] + u) == if ParseDigits(u).Some? then Some(0 - ParseDigits(u).value) else None
  {
    assert (['-'] + u)[1..] == u;
  }

  /**
   * A negative count ("-3", or "-3.5", which the number box also reports) is taken as it
   * is, not raised to 1.
   */
  lemma NegativeCountKept(n: nat, rest: string)
    requires n > 0
    requires |rest| == 0 || !TradingHours.IsDigit(rest[0])
    ensures ParseInt(['-'] + Decimal(n) + rest) == Some(0 - n)
    ensures CustomDays(['-'] + Decimal(n) + rest) == 0 - n
  {
    var d := Decimal(n);
    DigitsReadBack(d, rest);
    DecimalValue(n);
    MinusNegates(d + rest);
    assert ['-'] + d + rest == ['-'] + (d + rest);
    NoLeadingSpace(['-'] + d + rest);
  }

  /**
   * Of `parseInt` itself: a leading blank does not change what is read. The number box
   * never reports such text; the lemma fixes the parser the day count goes through.
   */
  lemma LeadingBlankIgnored(s: string)
    ensures ParseInt([' '] + s) == ParseInt(s)
  {
    assert ([' '] + s)[1..] == s;
  }

  /**
   * Of `parseInt` itself: an information separator before the digits stops it, although
   * Python's `strip` counts it as white space, so the two languages' white space differ.
   * The number box never reports such text.
   */
  lemma SeparatorStopsParseInt()
    ensures MarketData.IsSpace('\U{1C}') && !IsJsSpace('\U{1C}')
    ensures ParseInt("\U{1C}5") == None
  {
    var s := "\U{1C}5";
    assert TrimStart(s) == s;
    assert LeadingDigits(s) == [];
  }

  /** A negative custom count opens a window that starts in the future: only entries stamped after `now` pass. */
  lemma NegativeCustomDaysLooksAhead(notes: seq<ActivityEntry>, days: int, now: int, offset: int, i: nat)
    requires days < 0 && i < |notes| && notes[i].stamp <= now
    ensures notes[i] !in FilterNotifications(notes, "custom", days, now, offset)
  {
    assert days * DayMs <= -DayMs;
    assert !Keep("custom", days, now, offset, notes[i].stamp);
  }
}
