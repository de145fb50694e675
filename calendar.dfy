/**
 * The proleptic Gregorian calendar of Python's `datetime.date`: the range of
 * years it admits, month lengths with leap years, the order in which dates
 * compare, and the day number (`toordinal`) that this order agrees with.
 */
module Calendar {

  /** A (year, month, day) triple; `ValidDate` says when it names a real day. */
  datatype Date = Date(year: int, month: int, day: int)

  /** `datetime.MINYEAR` and `datetime.MAXYEAR`. */
  const MinYear := 1
  const MaxYear := 9999

  predicate IsLeapYear(y: int)
  {
    y % 4 == 0 && (y % 100 != 0 || y % 400 == 0)
  }

  function DaysInMonth(y: int, m: int): (n: int)
    requires 1 <= m <= 12
    ensures 28 <= n <= 31
    ensures n == 29 <==> m == 2 && IsLeapYear(y)
  {
    if m == 2 then (if IsLeapYear(y) then 29 else 28)
    else if m == 4 || m == 6 || m == 9 || m == 11 then 30
    else 31
  }

  /** The triples `datetime.date(year, month, day)` accepts without raising. */
  predicate ValidDate(d: Date)
  {
    MinYear <= d.year <= MaxYear &&
    1 <= d.month <= 12 &&
    1 <= d.day <= DaysInMonth(d.year, d.month)
  }

  /** `a < b` on dates: Python compares the (year, month, day) tuples. */
  predicate Less(a: Date, b: Date)
  {
    a.year < b.year ||
    (a.year == b.year && (a.month < b.month || (a.month == b.month && a.day < b.day)))
  }

  /** Days in the years before year `y` (`_days_before_year`). */
  function DaysBeforeYear(y: int): (n: int)
    requires y >= 1
    ensures n >= 0
  {
    var p := y - 1;
    p * 365 + p / 4 - p / 100 + p / 400
  }

  /** Days in the months of year `y` before month `m` (`_days_before_month`). */
  function DaysBeforeMonth(y: int, m: int): (n: int)
    requires 1 <= m <= 12
    ensures 0 <= n <= 335
  {
    var table := [0, 31, 59, 90, 120, 151, 181, 212, 243, 273, 304, 334];
    table[m - 1] + (if m > 2 && IsLeapYear(y) then 1 else 0)
  }

  /** The day number of a date, 0001-01-01 being day 1 (`date.toordinal`). */
  function Ordinal(d: Date): (n: int)
    requires ValidDate(d)
    ensures n >= 1
  {
    DaysBeforeYear(d.year) + DaysBeforeMonth(d.year, d.month) + d.day
  }

  /** A year has 366 days exactly when it is a leap year, 365 otherwise. */
  lemma DaysBeforeNextYear(y: int)
    requires y >= 1
    ensures DaysBeforeYear(y + 1) == DaysBeforeYear(y) + (if IsLeapYear(y) then 366 else 365)
  {
    var p := y - 1;
    assert p / 4 + (if y % 4 == 0 then 1 else 0) == y / 4;
    assert p / 100 + (if y % 100 == 0 then 1 else 0) == y / 100;
    assert p / 400 + (if y % 400 == 0 then 1 else 0) == y / 400;
  }

  lemma {:induction false} DaysBeforeYearMonotone(a: int, b: int)
    requires 1 <= a <= b
    ensures DaysBeforeYear(a) + 365 * (b - a) <= DaysBeforeYear(b)
    decreases b - a
  {
    if a < b {
      DaysBeforeNextYear(a);
      DaysBeforeYearMonotone(a + 1, b);
    }
  }

  /** Month `m` ends where month `m + 1` begins. */
  lemma DaysBeforeNextMonth(y: int, m: int)
    requires 1 <= m < 12
    ensures DaysBeforeMonth(y, m + 1) == DaysBeforeMonth(y, m) + DaysInMonth(y, m)
  {
  }

  /** Every day of year `y` is numbered below the first day of year `y + 1`. */
  lemma OrdinalWithinYear(d: Date)
    requires ValidDate(d)
    ensures DaysBeforeYear(d.year) < Ordinal(d) <= DaysBeforeYear(d.year + 1)
  {
    DaysBeforeNextYear(d.year);
  }

  /** Every day of month `m` is numbered below the first day of month `m + 1`. */
  lemma OrdinalWithinMonth(d: Date)
    requires ValidDate(d) && d.month < 12
    ensures Ordinal(d) <= DaysBeforeYear(d.year) + DaysBeforeMonth(d.year, d.month + 1)
  {
  }

  lemma {:induction false} DaysBeforeMonthMonotone(y: int, a: int, b: int)
    requires 1 <= a <= b <= 12
    ensures DaysBeforeMonth(y, a) + 28 * (b - a) <= DaysBeforeMonth(y, b)
    decreases b - a
  {
    if a < b {
      DaysBeforeNextMonth(y, a);
      DaysBeforeMonthMonotone(y, a + 1, b);
    }
  }

  lemma LessImpliesOrdinalLess(a: Date, b: Date)
    requires ValidDate(a) && ValidDate(b) && Less(a, b)
    ensures Ordinal(a) < Ordinal(b)
  {
    if a.year < b.year {
      OrdinalWithinYear(a);
      OrdinalWithinYear(b);
      DaysBeforeYearMonotone(a.year + 1, b.year);
    } else if a.month < b.month {
      OrdinalWithinMonth(a);
      DaysBeforeMonthMonotone(a.year, a.month + 1, b.month);
    }
  }

  /**
   * Comparing the tuples orders valid dates chronologically: `a < b` exactly
   * when `a` falls on an earlier day than `b`.
   */
  lemma LessMatchesOrdinal(a: Date, b: Date)
    requires ValidDate(a) && ValidDate(b)
    ensures Less(a, b) <==> Ordinal(a) < Ordinal(b)
    ensures a == b <==> Ordinal(a) == Ordinal(b)
  {
    if Less(a, b) {
      LessImpliesOrdinalLess(a, b);
    } else if Less(b, a) {
      LessImpliesOrdinalLess(b, a);
    }
  }
}
