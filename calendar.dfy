/** Python's `datetime.date`, `datetime.time` and `datetime.datetime`
    values, as far as the library uses them. A Python date or time object is
    always valid, so the model's Date and Time are subset types of plain
    integer records. Day numbering follows CPython's proleptic Gregorian
    calendar: `toordinal()` is 1 on 0001-01-01. */
module Calendar {
  import opened Text
  import opened Runtime

  const MinYear := 1
  const MaxYear := 9999

  predicate IsLeap(y: int) {
    y % 4 == 0 && (y % 100 != 0 || y % 400 == 0)
  }

  /** Days per month of a common year, by month number (index 0 unused). */
  const DaysInMonthTable: seq<nat> := [0, 31, 28, 31, 30, 31, 30, 31, 31, 30, 31, 30, 31]

  /** Days before the first of each month in a common year. */
  const DaysBeforeMonthTable: seq<nat> := [0, 0, 31, 59, 90, 120, 151, 181, 212, 243, 273, 304, 334]

  function DaysInMonth(y: int, m: int): (n: nat)
    requires 1 <= m <= 12
    ensures 28 <= n <= 31
  {
    if m == 2 && IsLeap(y) then 29 else DaysInMonthTable[m]
  }

  function DaysInYear(y: int): nat {
    if IsLeap(y) then 366 else 365
  }

  function DaysBeforeMonth(y: int, m: int): nat
    requires 1 <= m <= 12
  {
    DaysBeforeMonthTable[m] + if m > 2 && IsLeap(y) then 1 else 0
  }

  /** CPython's closed form for the days in the years before y. */
  function DaysBeforeYear(y: int): int {
    var p := y - 1;
    p * 365 + p / 4 - p / 100 + p / 400
  }

  datatype CivilDate = CivilDate(year: int, month: int, day: int)

  predicate IsValidDate(d: CivilDate) {
    MinYear <= d.year <= MaxYear && 1 <= d.month <= 12 && 1 <= d.day <= DaysInMonth(d.year, d.month)
  }

  /** A `datetime.date`. */
  type Date = d: CivilDate | IsValidDate(d) witness CivilDate(1, 1, 1)

  datatype ClockTime = ClockTime(hour: int, minute: int, second: int, microsecond: int)

  predicate IsValidTime(t: ClockTime) {
    0 <= t.hour < 24 && 0 <= t.minute < 60 && 0 <= t.second < 60 && 0 <= t.microsecond < 1000000
  }

  /** A `datetime.time`. */
  type Time = t: ClockTime | IsValidTime(t) witness ClockTime(0, 0, 0, 0)

  /** A `datetime.datetime`. `utcOffset` is the text `%z` writes for an
      aware value (for instance "+0200"), None for a naive one; its
      time-zone meaning is not modelled. */
  datatype DateTime = DateTime(date: Date, time: Time, utcOffset: Option<string>)

  /** `date.toordinal()`. */
  function ToOrdinal(d: Date): (n: int)
    ensures n >= 1
    ensures d == CivilDate(1, 1, 1) ==> n == 1
  {
    DaysBeforeYear(d.year) + DaysBeforeMonth(d.year, d.month) + d.day
  }

  /** `date.weekday()`: Monday is 0 and Sunday is 6. */
  function Weekday(d: Date): (w: nat)
    ensures w < 7
    ensures d == CivilDate(1, 1, 1) ==> w == 0
  {
    (ToOrdinal(d) + 6) % 7
  }

  /** `date.isoformat()`: YYYY-MM-DD. */
  function IsoFormat(d: Date): (r: string)
    ensures |r| == 10 && r[4] == '-' && r[7] == '-'
    ensures AllDigits(r[..4]) && ParseDigits(r[..4]) == d.year
    ensures AllDigits(r[5..7]) && ParseDigits(r[5..7]) == d.month
    ensures AllDigits(r[8..]) && ParseDigits(r[8..]) == d.day
  {
    var y, m, dd := Pad(d.year, 4), Pad(d.month, 2), Pad(d.day, 2);
    var r := y + "-" + m + "-" + dd;
    assert r[..4] == y && r[5..7] == m && r[8..] == dd;
    r
  }

  /** The calendar day after d, the reference for what "consecutive dates"
      means. The last representable date has no successor. */
  function Next(d: Date): (e: Date)
    requires d != CivilDate(MaxYear, 12, 31)
  {
    if d.day < DaysInMonth(d.year, d.month) then CivilDate(d.year, d.month, d.day + 1)
    else if d.month < 12 then CivilDate(d.year, d.month + 1, 1)
    else CivilDate(d.year + 1, 1, 1)
  }

  /** The days of the years 1 .. y-1 added up one year at a time. */
  function DaysBeforeYearBySum(y: int): int
    decreases y
  {
    if y <= 1 then 0 else DaysBeforeYearBySum(y - 1) + DaysInYear(y - 1)
  }

  lemma MulNonnegative(x: nat, k: nat)
    ensures x * k >= 0
  {
  }

  lemma DivUnique(a: int, k: int, q: int, r: int)
    requires k > 0 && 0 <= r < k && a == q * k + r
    ensures a / k == q
  {
    var q', r' := a / k, a % k;
    assert a == q' * k + r' && 0 <= r' < k;
    var d := q - q';
    assert d * k == r' - r by {
      assert q * k - q' * k == (q - q') * k;
    }
    if d >= 1 {
      assert d * k == (d - 1) * k + k;
      MulNonnegative(d - 1, k);
    } else if d <= -1 {
      assert -d * k == (-d - 1) * k + k;
      MulNonnegative(-d - 1, k);
    }
  }

  /** Going from a to a + 1 raises a / k by one exactly when k divides a + 1. */
  lemma DivStep(a: int, k: int)
    requires a >= 0 && k > 0
    ensures (a + 1) / k - a / k == if (a + 1) % k == 0 then 1 else 0
  {
    var q, r := a / k, a % k;
    assert a == q * k + r;
    if r == k - 1 {
      DivUnique(a + 1, k, q + 1, 0);
    } else {
      DivUnique(a + 1, k, q, r + 1);
    }
  }

  lemma LeapByDivisibility(y: int)
    ensures (if y % 4 == 0 then 1 else 0) - (if y % 100 == 0 then 1 else 0) + (if y % 400 == 0 then 1 else 0)
            == DaysInYear(y) - 365
  {
    if y % 400 == 0 {
      DivUnique(y, 100, 4 * (y / 400), 0);
      DivUnique(y, 4, 100 * (y / 400), 0);
    } else if y % 100 == 0 {
      DivUnique(y, 4, 25 * (y / 100), 0);
    }
  }

  /** CPython's closed form counts the same days as adding up the lengths of
      the years one by one. */
  lemma {:induction false} DaysBeforeYearIsSum(y: int)
    requires y >= 1
    ensures DaysBeforeYear(y) == DaysBeforeYearBySum(y)
  {
    if y > 1 {
      DaysBeforeYearIsSum(y - 1);
      var a := y - 2;
      DivStep(a, 4);
      DivStep(a, 100);
      DivStep(a, 400);
      LeapByDivisibility(y - 1);
      ClosedFormStep(a);
    }
  }

  /** How the closed form grows from one year to the next. */
  lemma ClosedFormStep(a: int)
    requires a >= 0
    ensures DaysBeforeYear(a + 2) - DaysBeforeYear(a + 1)
            == 365 + ((a + 1) / 4 - a / 4) - ((a + 1) / 100 - a / 100) + ((a + 1) / 400 - a / 400)
  {
    assert (a + 1) * 365 == a * 365 + 365;
  }

  /** A year's days start right after the days of the years before it. */
  lemma DaysBeforeYearStep(y: int)
    requires y >= 1
    ensures DaysBeforeYear(y + 1) == DaysBeforeYear(y) + DaysInYear(y)
  {
    DaysBeforeYearIsSum(y);
    DaysBeforeYearIsSum(y + 1);
  }

  /** A month's days start right after the days of the months before it. */
  lemma DaysBeforeMonthStep(y: int, m: int)
    requires 1 <= m < 12
    ensures DaysBeforeMonth(y, m + 1) == DaysBeforeMonth(y, m) + DaysInMonth(y, m)
  {
  }

  /** December's days close the year. */
  lemma DecemberEndsYear(y: int)
    ensures DaysBeforeMonth(y, 12) + DaysInMonth(y, 12) == DaysInYear(y)
  {
  }

  /** Each calendar day is one ordinal after the day before it. */
  lemma OrdinalOfNext(d: Date)
    requires d != CivilDate(MaxYear, 12, 31)
    ensures ToOrdinal(Next(d)) == ToOrdinal(d) + 1
  {
    var y, m := d.year, d.month;
    if d.day < DaysInMonth(y, m) {
      assert Next(d) == CivilDate(y, m, d.day + 1);
    } else if m < 12 {
      assert Next(d) == CivilDate(y, m + 1, 1);
      DaysBeforeMonthStep(y, m);
    } else {
      assert Next(d) == CivilDate(y + 1, 1, 1);
      DaysBeforeYearStep(y);
      DecemberEndsYear(y);
    }
  }

  lemma ModSevenStep(a: int)
    ensures (a + 1) % 7 == (a % 7 + 1) % 7
  {
    var q := a / 7;
    assert a == 7 * q + a % 7;
    if a % 7 == 6 {
      DivUnique(a + 1, 7, q + 1, 0);
    } else {
      DivUnique(a + 1, 7, q, a % 7 + 1);
    }
  }

  /** Consecutive days have consecutive weekdays, Sunday wrapping to Monday. */
  lemma WeekdayOfNext(d: Date)
    requires d != CivilDate(MaxYear, 12, 31)
    ensures Weekday(Next(d)) == (Weekday(d) + 1) % 7
  {
    var n := ToOrdinal(d);
    OrdinalOfNext(d);
    assert Weekday(Next(d)) == (n + 1 + 6) % 7;
    assert Weekday(d) == (n + 6) % 7;
    ModSevenStep(n + 6);
  }
}
