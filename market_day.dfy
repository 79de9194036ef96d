/**
 * check_market_day.py: whether a date is a trading day of the Korean stock
 * market, and the exit status the script reports it with. A date is its
 * proleptic Gregorian ordinal (`date.toordinal()`, day 1 being Monday
 * 0001-01-01); the holiday calendar is an input.
 */
module MarketDay {

  /** `date.weekday()`: Monday is 0, Sunday is 6. */
  function Weekday(day: int): (w: int)
    ensures 0 <= w < 7
  {
    (day - 1) % 7
  }

  /** The same weekday comes back every seven days. */
  lemma WeekdayPeriodic(day: int, k: int)
    ensures Weekday(day + 7 * k) == Weekday(day)
  {
  }

  /** `is_market_day`: neither a Saturday or Sunday nor a holiday. */
  predicate IsMarketDay(day: int, holidays: set<int>)
  {
    if Weekday(day) >= 5 then false
    else if day in holidays then false
    else true
  }

  /** A date is a trading day exactly when it falls from Monday to Friday and is not a holiday. */
  lemma MarketDayIff(day: int, holidays: set<int>)
    ensures IsMarketDay(day, holidays) <==> Weekday(day) < 5 && day !in holidays
  {
  }

  /** The script's exit status: 0 on a trading day, 1 otherwise. */
  function ExitCode(day: int, holidays: set<int>): (code: int)
    ensures code == 0 <==> IsMarketDay(day, holidays)
    ensures code == 0 || code == 1
  {
    if IsMarketDay(day, holidays) then 0 else 1
  }

  /** The number of trading days among `n` consecutive dates from `day`. */
  function MarketDays(day: int, n: nat, holidays: set<int>): (c: nat)
    ensures c <= n
    decreases n
  {
    if n == 0 then 0 else One(day, holidays) + MarketDays(day + 1, n - 1, holidays)
  }

  /** Consecutive dates run through the weekdays in turn. */
  lemma NextWeekday(day: int)
    ensures Weekday(day + 1) == (Weekday(day) + 1) % 7
  {
  }

  /** One if the date is a trading day, else zero. */
  function One(day: int, holidays: set<int>): nat
  {
    if IsMarketDay(day, holidays) then 1 else 0
  }

  /** Seven dates, one by one. */
  lemma WeekUnrolled(day: int, holidays: set<int>)
    ensures MarketDays(day, 7, holidays) == One(day, holidays) + One(day + 1, holidays) + One(day + 2, holidays)
      + One(day + 3, holidays) + One(day + 4, holidays) + One(day + 5, holidays) + One(day + 6, holidays)
  {
    assert MarketDays(day + 6, 1, holidays) == One(day + 6, holidays);
    assert MarketDays(day + 5, 2, holidays) == One(day + 5, holidays) + MarketDays(day + 6, 1, holidays);
    assert MarketDays(day + 4, 3, holidays) == One(day + 4, holidays) + MarketDays(day + 5, 2, holidays);
    assert MarketDays(day + 3, 4, holidays) == One(day + 3, holidays) + MarketDays(day + 4, 3, holidays);
    assert MarketDays(day + 2, 5, holidays) == One(day + 2, holidays) + MarketDays(day + 3, 4, holidays);
    assert MarketDays(day + 1, 6, holidays) == One(day + 1, holidays) + MarketDays(day + 2, 5, holidays);
  }

  /** Every run of seven consecutive dates holds a Saturday and a Sunday, so at most five trading days, whatever the holidays. */
  lemma {:induction false} AtMostFivePerWeek(day: int, holidays: set<int>)
    ensures MarketDays(day, 7, holidays) <= 5
  {
    WeekUnrolled(day, holidays);
    NextWeekday(day);
    NextWeekday(day + 1);
    NextWeekday(day + 2);
    NextWeekday(day + 3);
    NextWeekday(day + 4);
    NextWeekday(day + 5);
  }

  /** Without holidays a week has exactly five trading days. */
  lemma {:induction false} FivePerWeekWithoutHolidays(day: int)
    ensures MarketDays(day, 7, {}) == 5
  {
    WeekUnrolled(day, {});
    NextWeekday(day);
    NextWeekday(day + 1);
    NextWeekday(day + 2);
    NextWeekday(day + 3);
    NextWeekday(day + 4);
    NextWeekday(day + 5);
  }
}
