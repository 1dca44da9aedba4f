/**
 * Calendar dates and the `relativedelta` steps the subscription billing
 * uses: whole days and weeks, and whole months or years with the day of
 * the month clamped to the length of the target month.
 */
module Calendar {

  /** A proleptic Gregorian date, as Python's `datetime.date`. */
  datatype Date = Date(year: int, month: int, day: int)

  predicate IsLeapYear(y: int) {
    y % 4 == 0 && (y % 100 != 0 || y % 400 == 0)
  }

  function DaysInMonth(y: int, m: int): (n: int)
    requires 1 <= m <= 12
    ensures 28 <= n <= 31
    ensures n == 29 <==> m == 2 && IsLeapYear(y)
  {
    if m == 2 then (if IsLeapYear(y) then 29 else 28)
    else if m == 4 || m == 6 || m == 9 || m == 11 then 30
    else 31
  }

  predicate Valid(d: Date) {
    1 <= d.month <= 12 && 1 <= d.day <= DaysInMonth(d.year, d.month)
  }

  /** Calendar order: `a <= b` on dates. */
  predicate NotAfter(a: Date, b: Date) {
    a.year < b.year
    || (a.year == b.year && a.month < b.month)
    || (a.year == b.year && a.month == b.month && a.day <= b.day)
  }

  /** Months counted from year 0: consecutive months have consecutive indexes. */
  function MonthIndex(d: Date): int {
    d.year * 12 + (d.month - 1)
  }

  lemma MonthIndexOrder(a: Date, b: Date)
    requires Valid(a) && Valid(b) && MonthIndex(a) < MonthIndex(b)
    ensures NotAfter(a, b) && a != b
  {
  }

  // ---------------------------------------------------------------------
  // Days and weeks

  /** The following day. */
  function NextDay(d: Date): (r: Date)
    requires Valid(d)
    ensures Valid(r) && NotAfter(d, r) && r != d
  {
    if d.day < DaysInMonth(d.year, d.month) then d.(day := d.day + 1)
    else if d.month < 12 then Date(d.year, d.month + 1, 1)
    else Date(d.year + 1, 1, 1)
  }

  /** `d + relativedelta(days=n)` for a non-negative `n`. */
  function AddDays(d: Date, n: nat): (r: Date)
    requires Valid(d)
    ensures Valid(r)
    decreases n
  {
    if n == 0 then d else AddDays(NextDay(d), n - 1)
  }

  /** Adding days in two steps is adding their sum. */
  lemma {:induction false} AddDaysTwice(d: Date, a: nat, b: nat)
    requires Valid(d)
    ensures AddDays(AddDays(d, a), b) == AddDays(d, a + b)
    decreases a
  {
    if a > 0 {
      AddDaysTwice(NextDay(d), a - 1, b);
    }
  }

  /** Adding a positive number of days moves strictly forward. */
  lemma {:induction false} AddDaysLater(d: Date, n: nat)
    requires Valid(d)
    ensures NotAfter(d, AddDays(d, n))
    ensures n > 0 ==> AddDays(d, n) != d
    decreases n
  {
    if n > 0 {
      var e := NextDay(d);
      AddDaysLater(e, n - 1);
      NotAfterTransitive(d, e, AddDays(e, n - 1));
    }
  }

  lemma NotAfterTransitive(a: Date, b: Date, c: Date)
    requires NotAfter(a, b) && NotAfter(b, c)
    ensures NotAfter(a, c)
    ensures a != b ==> a != c
  {
  }

  /** `d + relativedelta(weeks=n)`. */
  function AddWeeks(d: Date, n: nat): (r: Date)
    requires Valid(d)
    ensures Valid(r)
  {
    AddDays(d, 7 * n)
  }

  // ---------------------------------------------------------------------
  // Months and years

  /**
   * `d + relativedelta(months=n)`: the month moves by `n`, and a day past
   * the end of the target month becomes its last day.
   */
  function AddMonths(d: Date, n: nat): (r: Date)
    requires Valid(d)
    ensures Valid(r)
    ensures MonthIndex(r) == MonthIndex(d) + n
    ensures r.day <= d.day
    ensures d.day <= DaysInMonth(r.year, r.month) ==> r.day == d.day
    ensures d.day > DaysInMonth(r.year, r.month) ==> r.day == DaysInMonth(r.year, r.month)
  {
    var idx := MonthIndex(d) + n;
    var y := idx / 12;
    var m := idx % 12 + 1;
    var last := DaysInMonth(y, m);
    Date(y, m, if d.day <= last then d.day else last)
  }

  /** `d + relativedelta(years=n)`: 29 February becomes 28 February outside leap years. */
  function AddYears(d: Date, n: nat): (r: Date)
    requires Valid(d)
    ensures Valid(r)
    ensures r.year == d.year + n && r.month == d.month
    ensures r.day == d.day || (d.month == 2 && d.day == 29 && r.day == 28 && !IsLeapYear(r.year))
  {
    var last := DaysInMonth(d.year + n, d.month);
    Date(d.year + n, d.month, if d.day <= last then d.day else last)
  }

  /** A year is twelve months, clamping included. */
  lemma YearsAreMonths(d: Date, n: nat)
    requires Valid(d)
    ensures AddYears(d, n) == AddMonths(d, 12 * n)
  {
    var r := AddMonths(d, 12 * n);
    assert MonthIndex(r) == (d.year + n) * 12 + (d.month - 1);
    assert r.year == d.year + n && r.month == d.month;
  }

  /** Adding months never moves backwards, and a positive number of months moves forward. */
  lemma AddMonthsLater(d: Date, n: nat)
    requires Valid(d)
    ensures NotAfter(d, AddMonths(d, n))
    ensures n > 0 ==> AddMonths(d, n) != d
  {
    var r := AddMonths(d, n);
    if n > 0 {
      MonthIndexOrder(d, r);
    } else {
      assert r.year == d.year && r.month == d.month;
    }
  }
}
