/** The proleptic Gregorian calendar as Python's `datetime` counts it: dates
    from 0001-01-01 to 9999-12-31, each with an ordinal day number (0001-01-01
    is day 1), and instants as whole microseconds since 1970-01-01T00:00:00Z
    seen through a fixed UTC offset. */
module Calendar {

  datatype Date = Date(year: int, month: int, day: int)

  const MaxYear := 9999
  /** Ordinal of 9999-12-31, the last day `datetime` can represent. */
  const MaxOrdinal := 3652059
  /** Ordinal of 1970-01-01, the Unix epoch. */
  const EpochOrdinal := 719163

  const MicrosPerSecond := 1_000_000
  const MicrosPerHour := 3_600_000_000
  const MicrosPerDay := 86_400_000_000

  predicate IsLeap(y: int) {
    y % 4 == 0 && (y % 100 != 0 || y % 400 == 0)
  }

  function DaysInYear(y: int): int {
    if IsLeap(y) then 366 else 365
  }

  function DaysInMonth(y: int, m: int): int
    requires 1 <= m <= 12
  {
    if m == 2 then (if IsLeap(y) then 29 else 28)
    else if m == 4 || m == 6 || m == 9 || m == 11 then 30
    else 31
  }

  /** A date `datetime.date` accepts. */
  predicate ValidDate(d: Date) {
    1 <= d.year <= MaxYear && 1 <= d.month <= 12 && 1 <= d.day <= DaysInMonth(d.year, d.month)
  }

  /** Days in the years before year `y`, in Python's closed form. */
  function DaysBeforeYear(y: int): int
    requires y >= 1
  {
    var k := y - 1;
    365 * k + k / 4 - k / 100 + k / 400
  }

  /** Days in the months of year `y` before month `m` (m = 13 gives the whole year). */
  function DaysBeforeMonth(y: int, m: int): int
    requires 1 <= m <= 13
  {
    if m == 1 then 0 else DaysBeforeMonth(y, m - 1) + DaysInMonth(y, m - 1)
  }

  /** `date.toordinal()`. */
  function Ordinal(d: Date): (n: int)
    requires ValidDate(d)
    ensures 1 <= n <= MaxOrdinal
  {
    assert DaysBeforeYear(MaxYear + 1) == MaxOrdinal;
    MonthsFillYear(d.year, d.month);
    DaysBeforeYearMonotone(d.year + 1, MaxYear + 1);
    DaysBeforeYearStep(d.year);
    DaysBeforeYear(d.year) + DaysBeforeMonth(d.year, d.month) + d.day
  }

  /** `date.fromordinal(n)`: the date whose ordinal is `n`. */
  function FromOrdinal(n: int): (d: Date)
    requires 1 <= n <= MaxOrdinal
    ensures ValidDate(d) && Ordinal(d) == n
  {
    var y := YearOf(n, 1);
    if y > MaxYear then
      DaysBeforeYearMonotone(MaxYear + 1, y);
      assert false; Date(1, 1, 1)
    else
      var doy := n - DaysBeforeYear(y);
      DaysBeforeYearStep(y);
      MonthsFillYear(y, 12);
      var m := MonthOf(y, doy, 1);
      Date(y, m, doy - DaysBeforeMonth(y, m))
  }

  /** The year, searched upward from `y`, whose days contain ordinal `n`. */
  function YearOf(n: int, y: int): (r: int)
    requires y >= 1 && DaysBeforeYear(y) < n
    ensures y <= r && DaysBeforeYear(r) < n <= DaysBeforeYear(r + 1)
    decreases n - DaysBeforeYear(y)
  {
    DaysBeforeYearStep(y);
    if n <= DaysBeforeYear(y + 1) then y else YearOf(n, y + 1)
  }

  /** The month, searched upward from `m`, that holds day `doy` of year `y`. */
  function MonthOf(y: int, doy: int, m: int): (r: int)
    requires 1 <= m <= 12 && DaysBeforeMonth(y, m) < doy <= DaysInYear(y)
    ensures m <= r <= 12 && DaysBeforeMonth(y, r) < doy <= DaysBeforeMonth(y, r) + DaysInMonth(y, r)
    decreases 12 - m
  {
    MonthsFillYear(y, 12);
    if m == 12 || doy <= DaysBeforeMonth(y, m + 1) then m else MonthOf(y, doy, m + 1)
  }

  lemma DivStep4(k: int)
    requires k >= 0
    ensures (k + 1) / 4 == k / 4 + (if (k + 1) % 4 == 0 then 1 else 0)
  {
  }

  lemma DivStep100(k: int)
    requires k >= 0
    ensures (k + 1) / 100 == k / 100 + (if (k + 1) % 100 == 0 then 1 else 0)
  {
  }

  lemma DivStep400(k: int)
    requires k >= 0
    ensures (k + 1) / 400 == k / 400 + (if (k + 1) % 400 == 0 then 1 else 0)
  {
  }

  /** Each year adds its own length to the count of days before it. */
  lemma DaysBeforeYearStep(y: int)
    requires y >= 1
    ensures DaysBeforeYear(y + 1) == DaysBeforeYear(y) + DaysInYear(y)
  {
    var k := y - 1;
    DivStep4(k);
    DivStep100(k);
    DivStep400(k);
    CenturiesAreLeapYears(y);
    assert DaysBeforeYear(y + 1) == 365 * (k + 1) + (k + 1) / 4 - (k + 1) / 100 + (k + 1) / 400;
  }

  /** A multiple of 400 is a multiple of 100, and a multiple of 100 one of 4. */
  lemma CenturiesAreLeapYears(y: int)
    ensures y % 400 == 0 ==> y % 100 == 0
    ensures y % 100 == 0 ==> y % 4 == 0
  {
    if y % 400 == 0 {
      var q := y / 400;
      assert y == 100 * (4 * q);
      MultipleOf100(4 * q);
    }
    if y % 100 == 0 {
      var q := y / 100;
      assert y == 4 * (25 * q);
      MultipleOf4(25 * q);
    }
  }

  lemma MultipleOf100(m: int)
    ensures (100 * m) % 100 == 0
  {
  }

  lemma MultipleOf4(m: int)
    ensures (4 * m) % 4 == 0
  {
  }

  lemma {:induction false} DaysBeforeYearMonotone(a: int, b: int)
    requires 1 <= a <= b
    ensures 0 <= DaysBeforeYear(a)
    ensures DaysBeforeYear(a) + 365 * (b - a) <= DaysBeforeYear(b)
    decreases b - a
  {
    assert (a - 1) / 100 <= a - 1;
    if a < b {
      DaysBeforeYearStep(a);
      DaysBeforeYearMonotone(a + 1, b);
    }
  }

  /** The months before `m` together with month `m` never overrun the year,
      and the twelve months fill it exactly. */
  lemma MonthsFillYear(y: int, m: int)
    requires 1 <= m <= 12
    ensures 0 <= DaysBeforeMonth(y, m)
    ensures DaysBeforeMonth(y, m) + DaysInMonth(y, m) <= DaysInYear(y)
    ensures DaysBeforeMonth(y, 13) == DaysInYear(y)
  {
    DaysBeforeMonthTable(y, m);
    DaysBeforeMonthTable(y, 13);
    DaysBeforeMonthMonotone(y, m + 1, 13);
  }

  /** The cumulative month lengths agree with Python's table of days before each
      month, plus one day after February in a leap year. */
  lemma {:induction false} DaysBeforeMonthTable(y: int, m: int)
    requires 1 <= m <= 13
    ensures DaysBeforeMonth(y, m)
         == [0, 31, 59, 90, 120, 151, 181, 212, 243, 273, 304, 334, 365][m - 1]
            + (if m > 2 && IsLeap(y) then 1 else 0)
  {
    if m > 1 {
      DaysBeforeMonthTable(y, m - 1);
    }
  }

  /** Months earlier in the year start earlier. */
  lemma {:induction false} DaysBeforeMonthMonotone(y: int, a: int, b: int)
    requires 1 <= a <= b <= 13
    ensures DaysBeforeMonth(y, a) + (b - a) * 28 <= DaysBeforeMonth(y, b)
    decreases b - a
  {
    if a < b {
      DaysBeforeMonthMonotone(y, a, b - 1);
    }
  }

  /** Distinct valid dates have distinct ordinals, so `FromOrdinal` undoes `Ordinal`. */
  lemma FromOrdinalOfOrdinal(d: Date)
    requires ValidDate(d)
    ensures FromOrdinal(Ordinal(d)) == d
  {
    var e := FromOrdinal(Ordinal(d));
    OrdinalInjective(d, e);
  }

  lemma OrdinalInjective(d: Date, e: Date)
    requires ValidDate(d) && ValidDate(e)
    requires Ordinal(d) == Ordinal(e)
    ensures d == e
  {
    SameOrdinalSameYear(d, e);
    MonthsFillYear(d.year, d.month);
    MonthsFillYear(e.year, e.month);
    if d.month < e.month {
      DaysBeforeMonthMonotone(d.year, d.month + 1, e.month);
      assert false;
    } else if e.month < d.month {
      DaysBeforeMonthMonotone(d.year, e.month + 1, d.month);
      assert false;
    }
  }

  /** Dates with the same ordinal fall in the same year. */
  lemma SameOrdinalSameYear(d: Date, e: Date)
    requires ValidDate(d) && ValidDate(e)
    requires Ordinal(d) == Ordinal(e)
    ensures d.year == e.year
  {
    if d.year < e.year {
      EarlierYearEarlierOrdinal(d, e);
      assert false;
    } else if e.year < d.year {
      EarlierYearEarlierOrdinal(e, d);
      assert false;
    }
  }

  /** Every day of an earlier year comes before every day of a later one. */
  lemma EarlierYearEarlierOrdinal(a: Date, b: Date)
    requires ValidDate(a) && ValidDate(b) && a.year < b.year
    ensures Ordinal(a) < Ordinal(b)
  {
    MonthsFillYear(a.year, a.month);
    MonthsFillYear(b.year, b.month);
    DaysBeforeYearStep(a.year);
    DaysBeforeYearMonotone(a.year + 1, b.year);
  }

  /** The date of the last day of year `y`. */
  function LastDayOfYear(y: int): (d: Date)
    requires 1 <= y <= MaxYear
    ensures ValidDate(d) && d.year == y
  {
    Date(y, 12, 31)
  }

  /** Days from `d` to 31 December of its own year: between 0 and 365. */
  lemma DaysLeftInYear(d: Date)
    requires ValidDate(d)
    ensures 0 <= Ordinal(LastDayOfYear(d.year)) - Ordinal(d) <= 365
  {
    MonthsFillYear(d.year, d.month);
    MonthsFillYear(d.year, 12);
  }

  // ---- instants ----

  /** Microseconds of local wall-clock time at UTC instant `t` in offset `offsetHours`. */
  function LocalMicros(t: int, offsetHours: int): int {
    t + offsetHours * MicrosPerHour
  }

  /** The ordinal of the local calendar date at instant `t`. */
  function LocalOrdinal(t: int, offsetHours: int): int {
    EpochOrdinal + LocalMicros(t, offsetHours) / MicrosPerDay
  }

  /** Microseconds since local midnight at instant `t`. */
  function TimeOfDay(t: int, offsetHours: int): (r: int)
    ensures 0 <= r < MicrosPerDay
  {
    LocalMicros(t, offsetHours) % MicrosPerDay
  }

  /** `datetime.now(tz)` can represent instant `t`. */
  predicate InDatetimeRange(t: int, offsetHours: int) {
    1 <= LocalOrdinal(t, offsetHours) <= MaxOrdinal
  }

  /** `now.date()` for `now` in the given offset. */
  function LocalDate(t: int, offsetHours: int): (d: Date)
    requires InDatetimeRange(t, offsetHours)
    ensures ValidDate(d) && Ordinal(d) == LocalOrdinal(t, offsetHours)
  {
    FromOrdinal(LocalOrdinal(t, offsetHours))
  }

  lemma EpochIsDay719163()
    ensures Ordinal(Date(1970, 1, 1)) == EpochOrdinal
    ensures Ordinal(Date(MaxYear, 12, 31)) == MaxOrdinal
  {
  }
}
