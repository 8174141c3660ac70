/**
 * Instants in milliseconds since 1970-01-01T00:00Z and the calendar arithmetic on them: the
 * start of a day, whole days between instants, and month addition that clamps the day to the
 * end of a shorter month. The civil conversions are the days-from-civil algorithms of the
 * proleptic Gregorian calendar.
 */
module Calendar {

  const DayMs: int := 86_400_000

  /** Days since the epoch of the day holding `t`. */
  function DayNumber(t: int): int {
    t / DayMs
  }

  /** Milliseconds since midnight. */
  function TimeOfDay(t: int): (r: int)
    ensures 0 <= r < DayMs
  {
    t % DayMs
  }

  /** `moment(t).startOf("day")`: midnight of the day holding `t`. */
  function StartOfDay(t: int): (r: int)
    ensures r <= t < r + DayMs
    ensures r == DayNumber(t) * DayMs
  {
    t - t % DayMs
  }

  /** Midnight of day `n` lies on day `n`, and a time of day added to it is recovered. */
  lemma DayOfMidnightPlus(n: int, tod: int)
    requires 0 <= tod < DayMs
    ensures DayNumber(n * DayMs + tod) == n && TimeOfDay(n * DayMs + tod) == tod
  {
    var t := n * DayMs + tod;
    var q := t / DayMs;
    var r := t % DayMs;
    assert t == q * DayMs + r;
    assert (q - n) * DayMs == tod - r;
    MultipleOfDayInsideOneDay(q - n);
  }

  lemma MultipleOfDayInsideOneDay(k: int)
    ensures -DayMs < k * DayMs < DayMs ==> k == 0
  {
    if k >= 1 {
      assert k * DayMs >= DayMs;
    } else if k <= -1 {
      assert k * DayMs <= -DayMs;
    }
  }

  /** Adding whole days moves the day number by as many and keeps the time of day. */
  lemma AddDays(t: int, days: int)
    ensures DayNumber(t + days * DayMs) == DayNumber(t) + days
    ensures TimeOfDay(t + days * DayMs) == TimeOfDay(t)
  {
    assert t == DayNumber(t) * DayMs + TimeOfDay(t);
    assert t + days * DayMs == (DayNumber(t) + days) * DayMs + TimeOfDay(t);
    DayOfMidnightPlus(DayNumber(t) + days, TimeOfDay(t));
  }

  // ---------------------------------------------------------------- the civil calendar

  datatype Civil = Civil(year: int, month: int, day: int)

  predicate IsLeapYear(y: int) {
    y % 4 == 0 && (y % 100 != 0 || y % 400 == 0)
  }

  function DaysInMonth(y: int, m: int): (r: int)
    ensures 28 <= r <= 31
  {
    if m == 2 then (if IsLeapYear(y) then 29 else 28)
    else if m == 4 || m == 6 || m == 9 || m == 11 then 30
    else 31
  }

  /** Days since the epoch of a civil date. */
  function DaysFromCivil(c: Civil): int {
    var y := if c.month <= 2 then c.year - 1 else c.year;
    var era := y / 400;
    var yoe := y - era * 400;
    var mp := if c.month > 2 then c.month - 3 else c.month + 9;
    var doy := (153 * mp + 2) / 5 + c.day - 1;
    var doe := yoe * 365 + yoe / 4 - yoe / 100 + doy;
    era * 146097 + doe - 719468
  }

  /** The civil date of a day number. */
  function CivilFromDays(n: int): Civil {
    var z := n + 719468;
    var era := z / 146097;
    var doe := z - era * 146097;
    var yoe := (doe - doe / 1460 + doe / 36524 - doe / 146096) / 365;
    var y := yoe + era * 400;
    var doy := doe - (365 * yoe + yoe / 4 - yoe / 100);
    var mp := (5 * doy + 2) / 153;
    var d := doy - (153 * mp + 2) / 5 + 1;
    var m := if mp < 10 then mp + 3 else mp - 9;
    Civil(if m <= 2 then y + 1 else y, m, d)
  }

  /** The month `n` months after `c`, the day clamped to that month's length. */
  function AddMonthsCivil(c: Civil, n: int): (r: Civil)
    requires 1 <= c.month <= 12 && 1 <= c.day
    ensures 1 <= r.month <= 12 && 1 <= r.day <= DaysInMonth(r.year, r.month)
    ensures r.year * 12 + r.month == c.year * 12 + c.month + n
    ensures r.day == (if c.day <= DaysInMonth(r.year, r.month) then c.day else DaysInMonth(r.year, r.month))
  {
    var index := c.year * 12 + (c.month - 1) + n;
    var y := index / 12;
    var m := index % 12 + 1;
    var dim := DaysInMonth(y, m);
    Civil(y, m, if c.day <= dim then c.day else dim)
  }

  /** The last day of January moves to the last day of February, 29 in a leap year and 28 otherwise. */
  lemma MonthEndIsClamped()
    ensures AddMonthsCivil(Civil(2024, 1, 31), 1) == Civil(2024, 2, 29)
    ensures AddMonthsCivil(Civil(2023, 1, 31), 1) == Civil(2023, 2, 28)
    ensures AddMonthsCivil(Civil(2023, 11, 30), 3) == Civil(2024, 2, 29)
    ensures AddMonthsCivil(Civil(2024, 2, 29), 12) == Civil(2025, 2, 28)
  {
  }

  /**
   * `moment(t).add(n, "months")`: the same time of day on the civil date `n` months later. A
   * civil date outside the calendar (which a day number never yields) is taken as the first.
   */
  function AddMonths(t: int, n: int): (r: int)
    ensures TimeOfDay(r) == TimeOfDay(t)
  {
    var c := CivilFromDays(DayNumber(t));
    var c1 := if 1 <= c.month <= 12 && 1 <= c.day then c else Civil(c.year, 1, 1);
    var days := DaysFromCivil(AddMonthsCivil(c1, n));
    DayOfMidnightPlus(days, TimeOfDay(t));
    days * DayMs + TimeOfDay(t)
  }

  lemma CivilOfDay19753()
    ensures CivilFromDays(19753) == Civil(2024, 1, 31)
  {
    var z := 19753 + 719468;
    assert z / 146097 == 5;
    var doe := z - 5 * 146097;
    assert doe == 8736;
    assert (doe - doe / 1460 + doe / 36524 - doe / 146096) / 365 == 23;
    var doy := doe - (365 * 23 + 23 / 4 - 23 / 100);
    assert doy == 336;
    assert (5 * doy + 2) / 153 == 10;
    assert doy - (153 * 10 + 2) / 5 + 1 == 31;
  }

  lemma DayOfLeapDay2024()
    ensures DaysFromCivil(Civil(2024, 2, 29)) == 19782
  {
    assert 2023 / 400 == 5;
    assert (153 * 11 + 2) / 5 == 337;
    assert 23 / 4 == 5 && 23 / 100 == 0;
  }

  /** 2024-01-31T09:30Z plus one month is 2024-02-29T09:30Z. */
  lemma AddMonthExample()
    ensures AddMonths(19753 * DayMs + 34_200_000, 1) == 19782 * DayMs + 34_200_000
  {
    DayOfMidnightPlus(19753, 34_200_000);
    CivilOfDay19753();
    DayOfLeapDay2024();
    assert AddMonthsCivil(Civil(2024, 1, 31), 1) == Civil(2024, 2, 29);
  }
}
