/**
 * The trading-hours gate shared by the trading cycle (backend/autonomous_agent.py)
 * and the news analysis route (backend/main.py): the current time, formatted as
 * "HH:MM", must lie between the configured start and end times, compared as strings.
 */
module TradingHours {
  import opened Wrappers

  const DefaultStart := "09:30"
  const DefaultEnd := "15:30"

  /** Python's `value or default` on an optional string: None and "" both give the default. */
  function OrDefault(value: Option<string>, default: string): string
  {
    if value.Some? && value.value != "" then value.value else default
  }

  /** Python's `a <= b` on strings: lexicographic by character code. */
  predicate StrLe(a: string, b: string)
    decreases |a|
  {
    if |a| == 0 then true
    else if |b| == 0 then false
    else if a[0] != b[0] then a[0] < b[0]
    else StrLe(a[1..], b[1..])
  }

  /** `start_time <= now <= end_time` with the defaults filled in. */
  predicate WithinHours(clock: string, start: Option<string>, end: Option<string>)
  {
    StrLe(OrDefault(start, DefaultStart), clock) && StrLe(clock, OrDefault(end, DefaultEnd))
  }

  predicate IsDigit(c: char) {
    '0' <= c <= '9'
  }

  function DigitValue(c: char): int
    requires IsDigit(c)
  {
    c as int - '0' as int
  }

  /** A time of day as `strftime("%H:%M")` writes it: two-digit hour, colon, minute 00..59. */
  predicate IsClock(s: string) {
    |s| == 5 && IsDigit(s[0]) && IsDigit(s[1]) && s[2] == ':' && '0' <= s[3] <= '5' && IsDigit(s[4])
  }

  /** Minutes since midnight of a clock string. */
  function Minutes(s: string): int
    requires IsClock(s)
  {
    (DigitValue(s[0]) * 10 + DigitValue(s[1])) * 60 + DigitValue(s[3]) * 10 + DigitValue(s[4])
  }

  /** For clock strings, comparing as strings is comparing the times of day. */
  lemma {:induction false} StrLeIsTimeOrder(a: string, b: string)
    requires IsClock(a) && IsClock(b)
    ensures StrLe(a, b) <==> Minutes(a) <= Minutes(b)
  {
    if a[0] != b[0] {
      assert StrLe(a, b) == (a[0] < b[0]);
    } else {
      assert StrLe(a, b) == StrLe(a[1..], b[1..]);
      var a1, b1 := a[1..], b[1..];
      if a1[0] != b1[0] {
        assert StrLe(a1, b1) == (a1[0] < b1[0]);
      } else {
        var a2, b2 := a1[1..], b1[1..];
        assert StrLe(a1, b1) == StrLe(a2, b2);
        assert a2[0] == ':' == b2[0];
        var a3, b3 := a2[1..], b2[1..];
        assert StrLe(a2, b2) == StrLe(a3, b3);
        if a3[0] != b3[0] {
          assert StrLe(a3, b3) == (a3[0] < b3[0]);
        } else {
          var a4, b4 := a3[1..], b3[1..];
          assert StrLe(a3, b3) == StrLe(a4, b4);
          if a4[0] != b4[0] {
            assert StrLe(a4, b4) == (a4[0] < b4[0]);
          } else {
            assert StrLe(a4, b4) == StrLe(a4[1..], b4[1..]);
            assert |a4[1..]| == 0;
          }
        }
      }
    }
  }

  /**
   * With the times missing or empty (both fall back to the defaults), trading runs from
   * 09:30 to 15:30 inclusive.
   */
  lemma DefaultWindow(clock: string, start: Option<string>, end: Option<string>)
    requires IsClock(clock)
    requires start == None || start == Some("")
    requires end == None || end == Some("")
    ensures WithinHours(clock, start, end) <==> 570 <= Minutes(clock) <= 930
  {
    assert IsClock(DefaultStart) && Minutes(DefaultStart) == 570;
    assert IsClock(DefaultEnd) && Minutes(DefaultEnd) == 930;
    StrLeIsTimeOrder(DefaultStart, clock);
    StrLeIsTimeOrder(clock, DefaultEnd);
  }

  /** With both times configured as clocks, trading runs from the start to the end inclusive. */
  lemma ConfiguredWindow(clock: string, start: string, end: string)
    requires IsClock(clock) && IsClock(start) && IsClock(end)
    ensures WithinHours(clock, Some(start), Some(end)) <==> Minutes(start) <= Minutes(clock) <= Minutes(end)
  {
    StrLeIsTimeOrder(start, clock);
    StrLeIsTimeOrder(clock, end);
  }
}
