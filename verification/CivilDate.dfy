/**
 * Proleptic Gregorian civil dates, as the calendar generator uses them through
 * Python's `datetime.date`: a (year, month, day) triple, a day number counted
 * from 1 January of year 1 (`toordinal`), the weekday derived from it
 * (Monday = 0 .. Sunday = 6) and the addition of a whole number of days
 * (`date + timedelta(days = k)`), which goes through the day number.
 */
module CivilDate {

  datatype Date = Date(year: int, month: int, day: int)

  // Python's weekday numbering
  const Monday := 0
  const Thursday := 3
  const Friday := 4
  const Saturday := 5
  const Sunday := 6

  /** The Gregorian leap-year rule. */
  predicate IsLeapYear(y: int) {
    y % 4 == 0 && (y % 100 != 0 || y % 400 == 0)
  }

  function DaysInYear(y: int): (n: int)
    ensures n == 365 || n == 366
    ensures n == 366 <==> IsLeapYear(y)
  {
    if IsLeapYear(y) then 366 else 365
  }

  function DaysInMonth(y: int, m: int): (n: int)
    requires 1 <= m <= 12
    ensures 28 <= n <= 31
    ensures n == 29 <==> m == 2 && IsLeapYear(y)
  {
    if m == 2 then (if IsLeapYear(y) then 29 else 28)
    else if m == 4 || m == 6 || m == 9 || m == 11 then 30
    else 31
  }

  /** A date `datetime.date` accepts (years restricted to year 1 and later). */
  predicate ValidDate(d: Date) {
    1 <= d.year && 1 <= d.month <= 12 && 1 <= d.day <= DaysInMonth(d.year, d.month)
  }

  /** Days in the months of year `y` that precede month `m`. */
  function DaysBeforeMonth(y: int, m: int): (n: int)
    requires 1 <= m <= 12
    ensures 0 <= n <= 335
  {
    [0, 31, 59, 90, 120, 151, 181, 212, 243, 273, 304, 334][m - 1]
    + (if m > 2 && IsLeapYear(y) then 1 else 0)
  }

  /** Days in the years 1 .. y-1. */
  function DaysBeforeYear(y: int): (n: int)
    requires 1 <= y
    ensures 365 * (y - 1) <= n
  {
    var p := y - 1;
    365 * p + p / 4 - p / 100 + p / 400
  }

  /** The day number of a date; 1 January of year 1 is day 1. */
  function Ordinal(d: Date): (n: int)
    requires ValidDate(d)
    ensures 1 <= n
  {
    DaysBeforeYear(d.year) + DaysBeforeMonth(d.year, d.month) + d.day
  }

  /** Monday = 0 .. Sunday = 6; 1 January of year 1 is a Monday. */
  function Weekday(d: Date): (w: int)
    requires ValidDate(d)
    ensures 0 <= w <= 6
  {
    (Ordinal(d) + 6) % 7
  }

  // ---------------------------------------------------------------------
  // Month and year layout

  lemma DaysBeforeMonthStep(y: int, m: int)
    requires 1 <= m < 12
    ensures DaysBeforeMonth(y, m + 1) == DaysBeforeMonth(y, m) + DaysInMonth(y, m)
  {
  }

  lemma LastMonthEndsYear(y: int)
    ensures DaysBeforeMonth(y, 12) + DaysInMonth(y, 12) == DaysInYear(y)
  {
  }

  /** A month ends no later than any later month starts. */
  lemma DaysBeforeMonthMonotone(y: int, m1: int, m2: int)
    requires 1 <= m1 < m2 <= 12
    ensures DaysBeforeMonth(y, m1) + DaysInMonth(y, m1) <= DaysBeforeMonth(y, m2)
    decreases m2 - m1
  {
    DaysBeforeMonthStep(y, m1);
    if m1 + 1 < m2 {
      DaysBeforeMonthMonotone(y, m1 + 1, m2);
    }
  }

  lemma ModSevenShift(x: int, q: int)
    ensures (x + 7 * q) % 7 == x % 7
  {
  }

  /** How the leap-day counts x/4, x/100 and x/400 grow from x - 1 to x. */
  lemma LeapDivisorsStep(x: int)
    requires 1 <= x
    ensures x / 4 - (x - 1) / 4 == if x % 4 == 0 then 1 else 0
    ensures x / 100 - (x - 1) / 100 == if x % 100 == 0 then 1 else 0
    ensures x / 400 - (x - 1) / 400 == if x % 400 == 0 then 1 else 0
  {
  }

  /** The closed form for the days before a year agrees with the leap-year rule. */
  lemma DaysBeforeYearStep(y: int)
    requires 1 <= y
    ensures DaysBeforeYear(y + 1) == DaysBeforeYear(y) + DaysInYear(y)
  {
    LeapDivisorsStep(y);
    var leap4 := if y % 4 == 0 then 1 else 0;
    var leap100 := if y % 100 == 0 then 1 else 0;
    var leap400 := if y % 400 == 0 then 1 else 0;
    assert DaysBeforeYear(y + 1) - DaysBeforeYear(y) == 365 + leap4 - leap100 + leap400;
    DivisorChain(y);
  }

  /** A multiple of 400 is one of 100, and a multiple of 100 is one of 4. */
  lemma DivisorChain(y: int)
    ensures y % 400 == 0 ==> y % 100 == 0
    ensures y % 100 == 0 ==> y % 4 == 0
  {
    assert y == 400 * (y / 400) + y % 400;
    assert y == 100 * (y / 100) + y % 100;
    assert y == 4 * (y / 4) + y % 4;
    if y % 400 == 0 {
      var t := 4 * (y / 400) - y / 100;
      assert y % 100 == 100 * t;
    }
    if y % 100 == 0 {
      var t := 25 * (y / 100) - y / 4;
      assert y % 4 == 4 * t;
    }
  }

  lemma DaysBeforeYearMonotone(y1: int, y2: int)
    requires 1 <= y1 < y2
    ensures DaysBeforeYear(y1 + 1) <= DaysBeforeYear(y2)
    decreases y2 - y1
  {
    if y1 + 1 < y2 {
      DaysBeforeYearStep(y1 + 1);
      DaysBeforeYearMonotone(y1 + 1, y2);
    }
  }

  /** Every date of year y has a day number after the days before y and up to the end of y. */
  lemma OrdinalInYear(d: Date)
    requires ValidDate(d)
    ensures DaysBeforeYear(d.year) < Ordinal(d) <= DaysBeforeYear(d.year + 1)
  {
    DaysBeforeYearStep(d.year);
    LastMonthEndsYear(d.year);
    if d.month < 12 {
      DaysBeforeMonthMonotone(d.year, d.month, 12);
    }
  }

  // ---------------------------------------------------------------------
  // The day-number bijection

  /** Distinct valid dates have distinct day numbers. */
  lemma {:induction false} OrdinalInjective(d1: Date, d2: Date)
    requires ValidDate(d1) && ValidDate(d2)
    requires Ordinal(d1) == Ordinal(d2)
    ensures d1 == d2
  {
    OrdinalInYear(d1);
    OrdinalInYear(d2);
    if d1.year < d2.year {
      DaysBeforeYearMonotone(d1.year, d2.year);
      assert false;
    } else if d2.year < d1.year {
      DaysBeforeYearMonotone(d2.year, d1.year);
      assert false;
    }
    if d1.month < d2.month {
      DaysBeforeMonthMonotone(d1.year, d1.month, d2.month);
      assert false;
    } else if d2.month < d1.month {
      DaysBeforeMonthMonotone(d1.year, d2.month, d1.month);
      assert false;
    }
  }

  // ---------------------------------------------------------------------
  // Adding days (`date + timedelta(days = k)`)

  /** The day after d: the next day of the month, else the 1st of the next month or year. */
  function NextDay(d: Date): (r: Date)
    requires ValidDate(d)
    ensures ValidDate(r) && Ordinal(r) == Ordinal(d) + 1
  {
    if d.day < DaysInMonth(d.year, d.month) then Date(d.year, d.month, d.day + 1)
    else if d.month < 12 then
      DaysBeforeMonthStep(d.year, d.month);
      Date(d.year, d.month + 1, 1)
    else
      LastMonthEndsYear(d.year);
      DaysBeforeYearStep(d.year);
      Date(d.year + 1, 1, 1)
  }

  /** The day before d, which exists unless d is 1 January of year 1. */
  function PrevDay(d: Date): (r: Date)
    requires ValidDate(d) && 2 <= Ordinal(d)
    ensures ValidDate(r) && Ordinal(r) == Ordinal(d) - 1
  {
    if 1 < d.day then Date(d.year, d.month, d.day - 1)
    else if 1 < d.month then
      DaysBeforeMonthStep(d.year, d.month - 1);
      Date(d.year, d.month - 1, DaysInMonth(d.year, d.month - 1))
    else
      LastMonthEndsYear(d.year - 1);
      DaysBeforeYearStep(d.year - 1);
      Date(d.year - 1, 12, 31)
  }

  /** The date k days after d (before d when k is negative), one day at a time. */
  function AddDays(d: Date, k: int): (r: Date)
    requires ValidDate(d) && 1 <= Ordinal(d) + k
    ensures ValidDate(r) && Ordinal(r) == Ordinal(d) + k
    decreases if k < 0 then -k else k
  {
    if k == 0 then d
    else if 0 < k then AddDays(NextDay(d), k - 1)
    else AddDays(PrevDay(d), k + 1)
  }

  /** The date with day number n (`date.fromordinal`): day n - 1 after 1 January of year 1. */
  function FromOrdinal(n: int): (d: Date)
    requires 1 <= n
    ensures ValidDate(d) && Ordinal(d) == n
  {
    AddDays(Date(1, 1, 1), n - 1)
  }

  /** The other half of the bijection. */
  lemma FromOrdinalOfOrdinal(d: Date)
    requires ValidDate(d)
    ensures FromOrdinal(Ordinal(d)) == d
  {
    OrdinalInjective(FromOrdinal(Ordinal(d)), d);
  }

  /**
   * `d + timedelta(days = k)` as a step of the resolver: the result is the
   * date whose day number is k more than d's.
   */
  method AddTimedelta(d: Date, k: int) returns (r: Date)
    requires ValidDate(d) && 1 <= Ordinal(d) + k
    ensures ValidDate(r) && Ordinal(r) == Ordinal(d) + k
  {
    r := AddDays(d, k);
  }

  /** Valid dates are equal exactly when their day numbers are. */
  lemma SameDateIff(d: Date, e: Date)
    requires ValidDate(d) && ValidDate(e)
    ensures d == e <==> Ordinal(d) == Ordinal(e)
  {
    if Ordinal(d) == Ordinal(e) {
      OrdinalInjective(d, e);
    }
  }

  /** A date equals d shifted by k days exactly when its day number is k more. */
  lemma AddDaysIff(d: Date, e: Date, k: int)
    requires ValidDate(d) && ValidDate(e) && 1 <= Ordinal(e) + k
    ensures d == AddDays(e, k) <==> Ordinal(d) == Ordinal(e) + k
  {
    if Ordinal(d) == Ordinal(e) + k {
      OrdinalInjective(d, AddDays(e, k));
    }
  }

  /** Shifting the weekday along with the date. */
  lemma WeekdayAddDays(d: Date, k: int)
    requires ValidDate(d) && 1 <= Ordinal(d) + k
    ensures Weekday(AddDays(d, k)) == (Weekday(d) + k) % 7
  {
    WeekdayShift(d, AddDays(d, k), k);
  }

  /** A date k days after another is k days further along the week. */
  lemma WeekdayShift(d: Date, e: Date, k: int)
    requires ValidDate(d) && ValidDate(e) && Ordinal(e) == Ordinal(d) + k
    ensures Weekday(e) == (Weekday(d) + k) % 7
  {
    var q := (Ordinal(d) + 6) / 7;
    assert Ordinal(d) + 6 == 7 * q + Weekday(d);
    assert Ordinal(e) + 6 == Weekday(d) + k + 7 * q;
    ModSevenShift(Weekday(d) + k, q);
  }

  /** Inside one month, adding days only moves the day of the month. */
  lemma AddDaysInMonth(d: Date, k: int)
    requires ValidDate(d) && 1 <= d.day + k <= DaysInMonth(d.year, d.month)
    ensures 1 <= Ordinal(d) + k
    ensures AddDays(d, k) == Date(d.year, d.month, d.day + k)
  {
    var e := Date(d.year, d.month, d.day + k);
    OrdinalInYear(e);
    OrdinalInjective(AddDays(d, k), e);
  }

  /**
   * The day before a date of February .. December is the previous day of the
   * month, or the last day of the month before when the date is a 1st.
   */
  lemma DayBefore(d: Date, e: Date)
    requires ValidDate(d) && ValidDate(e) && 2 <= d.month && Ordinal(e) == Ordinal(d) - 1
    ensures e == (if d.day == 1 then Date(d.year, d.month - 1, DaysInMonth(d.year, d.month - 1))
                  else Date(d.year, d.month, d.day - 1))
  {
    var f := if d.day == 1 then Date(d.year, d.month - 1, DaysInMonth(d.year, d.month - 1))
             else Date(d.year, d.month, d.day - 1);
    if d.day == 1 {
      DaysBeforeMonthStep(d.year, d.month - 1);
    }
    OrdinalInjective(e, f);
  }

  /** The day before a Sunday is a Saturday. */
  lemma DayBeforeSunday(e: Date, d: Date)
    requires ValidDate(d) && ValidDate(e) && Ordinal(e) == Ordinal(d) - 1
    requires Weekday(d) == Sunday
    ensures Weekday(e) == Saturday
  {
    var q := (Ordinal(d) + 6) / 7;
    assert Ordinal(e) + 6 == Saturday + 7 * q;
    ModSevenShift(Saturday, q);
  }

  /** Weekdays step through a month one day at a time. */
  lemma WeekdaysOfMonth(y: int, m: int)
    requires 1 <= y && 1 <= m <= 12
    ensures forall dd :: 1 <= dd <= DaysInMonth(y, m) ==>
      Weekday(Date(y, m, dd)) == (Weekday(Date(y, m, 1)) + dd - 1) % 7
  {
    var first := Date(y, m, 1);
    var q := (Ordinal(first) + 6) / 7;
    assert Ordinal(first) + 6 == 7 * q + Weekday(first);
    forall dd | 1 <= dd <= DaysInMonth(y, m)
      ensures Weekday(Date(y, m, dd)) == (Weekday(first) + dd - 1) % 7
    {
      assert Ordinal(Date(y, m, dd)) + 6 == (Weekday(first) + dd - 1) + 7 * q;
      ModSevenShift(Weekday(first) + dd - 1, q);
    }
  }

  /** Two dates of one month on the same weekday less than a week apart are the same date. */
  lemma SameWeekdayInWeek(d: Date, e: Date)
    requires ValidDate(d) && ValidDate(e)
    requires d.year == e.year && d.month == e.month
    requires Weekday(d) == Weekday(e) && -7 < d.day - e.day < 7
    ensures d == e
  {
    var a := Ordinal(d) + 6;
    var b := Ordinal(e) + 6;
    assert a - b == d.day - e.day;
    assert a == 7 * (a / 7) + Weekday(d) && b == 7 * (b / 7) + Weekday(e);
    assert a / 7 == b / 7;
  }

  /** Python's anchor: 1 January 2024 was a Monday. */
  lemma NewYear2024IsMonday()
    ensures ValidDate(Date(2024, 1, 1)) && Weekday(Date(2024, 1, 1)) == Monday
  {
  }
}
