/**
 * The market-hours rule of main.py: from a Thai-local (UTC+7) timestamp to
 * whether the association market is open, with a status message. The clock
 * read is not part of the rule; the timestamp is a parameter.
 */
module Market {

  /** A time of day as Python's `datetime.time` holds it, microseconds included. */
  datatype TimeOfDay = TimeOfDay(hour: int, minute: int, second: int, micro: int) {
    predicate Valid() {
      0 <= hour < 24 && 0 <= minute < 60 && 0 <= second < 60 && 0 <= micro < 1_000_000
    }
  }

  /** `now.weekday()` (Monday is 0, Sunday is 6) together with `now.time()`. */
  datatype Timestamp = Timestamp(weekday: int, time: TimeOfDay) {
    predicate Valid() {
      0 <= weekday <= 6 && time.Valid()
    }
  }

  const Saturday := 5
  const Sunday := 6

  /** The window's inclusive bounds, `datetime.time(9, 0, 10)` and `datetime.time(17, 30, 10)`. */
  const OpensAt := TimeOfDay(9, 0, 10, 0)
  const ClosesAt := TimeOfDay(17, 30, 10, 0)

  const LabelOpen := "Open"
  const LabelSunday := "Closed (Sunday)"
  const LabelOutsideHours := "Closed (Outside Hours)"

  /** The pair `(is_open, status_msg)` that `is_market_open` returns. */
  datatype MarketDecision = MarketDecision(open: bool, status: string)

  /** Python's ordering of `datetime.time` values: lexicographic on (hour, minute, second, microsecond). */
  predicate TimeLe(a: TimeOfDay, b: TimeOfDay) {
    || a.hour < b.hour
    || (a.hour == b.hour && a.minute < b.minute)
    || (a.hour == b.hour && a.minute == b.minute && a.second < b.second)
    || (a.hour == b.hour && a.minute == b.minute && a.second == b.second && a.micro <= b.micro)
  }

  /** Microseconds since midnight: the reference measure the time ordering is checked against. */
  function Micros(t: TimeOfDay): int {
    ((t.hour * 60 + t.minute) * 60 + t.second) * 1_000_000 + t.micro
  }

  /** `is_market_open`: closed all Sunday; every other day, Saturday included, open inside the window. */
  function IsMarketOpen(now: Timestamp): (r: MarketDecision)
    ensures r.open <==> r.status == LabelOpen
    ensures now.weekday == Sunday ==> r == MarketDecision(false, LabelSunday)
    ensures now.weekday != Sunday ==> r.status != LabelSunday
  {
    if now.weekday == Sunday then MarketDecision(false, LabelSunday)
    else if TimeLe(OpensAt, now.time) && TimeLe(now.time, ClosesAt) then MarketDecision(true, LabelOpen)
    else MarketDecision(false, LabelOutsideHours)
  }

  /** On valid times Python's lexicographic comparison agrees with comparing microseconds since midnight. */
  lemma TimeLeMicros(a: TimeOfDay, b: TimeOfDay)
    requires a.Valid() && b.Valid()
    ensures TimeLe(a, b) <==> Micros(a) <= Micros(b)
  {
    var sa := (a.minute * 60 + a.second) * 1_000_000 + a.micro;
    var sb := (b.minute * 60 + b.second) * 1_000_000 + b.micro;
    assert Micros(a) == a.hour * 3_600_000_000 + sa;
    assert Micros(b) == b.hour * 3_600_000_000 + sb;
    assert 0 <= sa < 3_600_000_000 && 0 <= sb < 3_600_000_000;
  }

  /**
   * On every day but Sunday the market is open exactly when the time of day lies
   * between 09:00:10.000000 (32 410 s after midnight) and 17:30:10.000000
   * (63 010 s after midnight), both inclusive; otherwise the status says
   * "outside hours".
   */
  lemma MarketHours(now: Timestamp)
    requires now.Valid() && now.weekday != Sunday
    ensures IsMarketOpen(now).open <==> 32_410_000_000 <= Micros(now.time) <= 63_010_000_000
    ensures !IsMarketOpen(now).open ==> IsMarketOpen(now).status == LabelOutsideHours
  {
    TimeLeMicros(OpensAt, now.time);
    TimeLeMicros(now.time, ClosesAt);
  }

  /** Saturday is treated exactly like Monday to Friday. */
  lemma SaturdayLikeWeekday(now: Timestamp, day: int)
    requires now.weekday == Saturday && 0 <= day < Saturday
    ensures IsMarketOpen(now) == IsMarketOpen(now.(weekday := day))
  {
  }

  /** Both bounds are inclusive to the microsecond. */
  lemma MarketBoundaries(day: int)
    requires 0 <= day <= Saturday
    ensures !IsMarketOpen(Timestamp(day, TimeOfDay(9, 0, 9, 999_999))).open
    ensures IsMarketOpen(Timestamp(day, TimeOfDay(9, 0, 10, 0))).open
    ensures IsMarketOpen(Timestamp(day, TimeOfDay(17, 30, 10, 0))).open
    ensures !IsMarketOpen(Timestamp(day, TimeOfDay(17, 30, 10, 1))).open
  {
  }
}
