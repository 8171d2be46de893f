/**
 * The date rules of the calendar generator: Easter by the anonymous
 * Gregorian computus (Meeus/Jones/Butcher), the first Sunday of a month, and
 * the "n-th weekday of a month" / "last Monday of May" arithmetic that the
 * holiday resolver writes out inline for each rule.
 */
module Calendar {
  import opened CivilDate

  /**
   * Easter Sunday of `year`. Python's `//` and `%` floor; for the non-negative
   * operands met here (year >= 1) they agree with Dafny's Euclidean `/` and `%`.
   * Easter always falls between 22 March and 25 April.
   */
  function CalculateEaster(year: int): (r: Date)
    requires 1 <= year
    ensures ValidDate(r) && r.year == year
    ensures (r.month == 3 && 22 <= r.day <= 31) || (r.month == 4 && 1 <= r.day <= 25)
  {
    var (month, day) := EasterMonthDay(year);
    Date(year, month, day)
  }

  /** The straight-line computus, giving (month, day). */
  function EasterMonthDay(year: int): (md: (int, int))
    requires 1 <= year
    ensures (md.0 == 3 && 22 <= md.1 <= 31) || (md.0 == 4 && 1 <= md.1 <= 25)
    ensures md.0 == 3 ==> md.1 == 22 + PaschalShift(year)
    ensures md.0 == 4 ==> md.1 == PaschalShift(year) - 9
  {
    var s := PaschalShift(year);
    ((s + 114) / 31, ((s + 114) % 31) + 1)
  }

  /**
   * h + l - 7m of the computus: the number of days from 22 March to Easter
   * Sunday. It lies in 0 .. 34.
   */
  function PaschalShift(year: int): (s: int)
    requires 1 <= year
    ensures 0 <= s <= 34
  {
    var a := year % 19;
    var b := year / 100;
    var c := year % 100;
    var d := b / 4;
    var e := b % 4;
    var f := (b + 8) / 25;
    var g := (b - f + 1) / 3;
    var h := (19 * a + b - d - g + 15) % 30;
    var i := c / 4;
    var k := c % 4;
    var l := (32 + 2 * e + 2 * i - h - k) % 7;
    var m := (a + 11 * h + 22 * l) / 451;
    assert 0 <= a <= 18 && 0 <= h <= 29 && 0 <= l <= 6;
    assert m == 0 || m == 1;
    assert m == 0 ==> a + 11 * h + 22 * l < 451;
    assert m == 1 ==> 433 <= 11 * h + 22 * l;
    h + l - 7 * m
  }

  /** The day number of Easter is its shift past 22 March. */
  lemma EasterOrdinal(year: int)
    requires 1 <= year
    ensures ValidDate(Date(year, 3, 22))
    ensures Ordinal(CalculateEaster(year)) == Ordinal(Date(year, 3, 22)) + PaschalShift(year)
  {
    DaysBeforeMonthStep(year, 3);
  }

  /** Easter is far enough into the year to count two days back from it. */
  lemma EasterHasRoom(year: int)
    requires 1 <= year
    ensures 3 <= Ordinal(CalculateEaster(year))
  {
  }

  /**
   * The computus always lands on a Sunday. The day of the week of 22 March
   * depends only on the century remainder e and on i, k of the year within the
   * century, and l is chosen to complete it to a Sunday.
   */
  lemma EasterIsSunday(year: int)
    requires 1 <= year
    ensures Weekday(CalculateEaster(year)) == Sunday
  {
    EasterOrdinal(year);
    var b := year / 100;
    var c := year % 100;
    var q := b / 4;
    var e := b % 4;
    var i := c / 4;
    var k := c % 4;
    var a := year % 19;
    var f := (b + 8) / 25;
    var g := (b - f + 1) / 3;
    var h := (19 * a + b - b / 4 - g + 15) % 30;
    var bigL := 32 + 2 * e + 2 * i - h - k;
    var l := bigL % 7;
    var m := (a + 11 * h + 22 * l) / 451;
    assert PaschalShift(year) == h + l - 7 * m;
    // the days before the next year, in terms of the century digits
    CenturyDays(year);
    assert b == 4 * q + e && c == 4 * i + k;
    assert DaysBeforeYear(year + 1) == 146097 * q + 36524 * e + 1461 * i + 365 * k;
    assert l == bigL - 7 * (bigL / 7);
    // 22 March is 284 days before the end of the year
    DaysBeforeYearStep(year);
    DaysBeforeMonthStep(year, 3);
    assert Ordinal(Date(year, 3, 22)) == DaysBeforeYear(year + 1) - 284;
    var t := 20871 * q + 5218 * e + 209 * i + 52 * k - 36 - bigL / 7 - m;
    assert Ordinal(CalculateEaster(year)) + 6 == 7 * t + 6;
    ModSevenShift(6, t);
  }

  /** The days before the next year, in terms of the century digits. */
  lemma CenturyDays(year: int)
    requires 1 <= year
    ensures DaysBeforeYear(year + 1) ==
      36524 * (year / 100) + 365 * (year % 100) + (year % 100) / 4 + (year / 100) / 4
  {
    var b := year / 100;
    var c := year % 100;
    var i := c / 4;
    assert year == 100 * b + c && c == 4 * i + c % 4;
    assert year / 4 == 25 * b + i;
    assert year / 400 == b / 4;
    DaysBeforeYearStep(year);
  }

  // Reference values of the computus. The asserts write out its intermediate
  // values a .. m for the reader to compare with a hand calculation.

  lemma Easter2016()
    ensures CalculateEaster(2016) == Date(2016, 3, 27)
  {
    assert 2016 % 19 == 2 && 2016 / 100 == 20 && 2016 % 100 == 16;
    assert 20 / 4 == 5 && 20 % 4 == 0 && (20 + 8) / 25 == 1 && (20 - 1 + 1) / 3 == 6;
    assert 16 / 4 == 4 && 16 % 4 == 0;
    assert (19 * 2 + 20 - 5 - 6 + 15) % 30 == 2;
    assert (32 + 2 * 0 + 2 * 4 - 2 - 0) % 7 == 3;
    assert (2 + 11 * 2 + 22 * 3) / 451 == 0;
    assert PaschalShift(2016) == 5;
  }

  lemma Easter2024()
    ensures CalculateEaster(2024) == Date(2024, 3, 31)
  {
    assert 2024 % 19 == 10 && 2024 / 100 == 20 && 2024 % 100 == 24;
    assert 20 / 4 == 5 && 20 % 4 == 0 && (20 + 8) / 25 == 1 && (20 - 1 + 1) / 3 == 6;
    assert 24 / 4 == 6 && 24 % 4 == 0;
    assert (19 * 10 + 20 - 5 - 6 + 15) % 30 == 4;
    assert (32 + 2 * 0 + 2 * 6 - 4 - 0) % 7 == 5;
    assert (10 + 11 * 4 + 22 * 5) / 451 == 0;
    assert PaschalShift(2024) == 9;
  }

  lemma Easter2025()
    ensures CalculateEaster(2025) == Date(2025, 4, 20)
  {
    assert 2025 % 19 == 11 && 2025 / 100 == 20 && 2025 % 100 == 25;
    assert 20 / 4 == 5 && 20 % 4 == 0 && (20 + 8) / 25 == 1 && (20 - 1 + 1) / 3 == 6;
    assert 25 / 4 == 6 && 25 % 4 == 1;
    assert (19 * 11 + 20 - 5 - 6 + 15) % 30 == 23;
    assert (32 + 2 * 0 + 2 * 6 - 23 - 1) % 7 == 6;
    assert (11 + 11 * 23 + 22 * 6) / 451 == 0;
    assert PaschalShift(2025) == 29;
  }

  lemma Easter2018()
    ensures CalculateEaster(2018) == Date(2018, 4, 1)
  {
    assert 2018 % 19 == 4 && 2018 / 100 == 20 && 2018 % 100 == 18;
    assert 20 / 4 == 5 && 20 % 4 == 0 && (20 + 8) / 25 == 1 && (20 - 1 + 1) / 3 == 6;
    assert 18 / 4 == 4 && 18 % 4 == 2;
    assert (19 * 4 + 20 - 5 - 6 + 15) % 30 == 10;
    assert (32 + 2 * 0 + 2 * 4 - 10 - 2) % 7 == 0;
    assert (4 + 11 * 10 + 22 * 0) / 451 == 0;
    assert PaschalShift(2018) == 10;
  }

  /** Good Friday, two days before Easter, is a Friday between 20 March and 23 April. */
  lemma GoodFridayDate(year: int)
    requires 1 <= year
    ensures 1 <= Ordinal(CalculateEaster(year)) - 2
    ensures var gf := AddDays(CalculateEaster(year), -2);
      gf.year == year && Weekday(gf) == Friday &&
      ((gf.month == 3 && 20 <= gf.day <= 31) || (gf.month == 4 && 1 <= gf.day <= 23))
  {
    var easter := CalculateEaster(year);
    OrdinalInYear(easter);
    EasterIsSunday(year);
    WeekdayAddDays(easter, -2);
    if easter.month == 3 {
      AddDaysInMonth(easter, -2);
    } else if easter.day >= 3 {
      AddDaysInMonth(easter, -2);
    } else {
      var gf := Date(year, 3, 29 + easter.day);
      DaysBeforeMonthStep(year, 3);
      assert ValidDate(gf) && Ordinal(gf) == Ordinal(easter) - 2;
      OrdinalInjective(gf, AddDays(easter, -2));
    }
  }

  /** Pentecost, 49 days after Easter, is a Sunday between 10 May and 13 June. */
  lemma PentecostDate(year: int)
    requires 1 <= year
    ensures var p := AddDays(CalculateEaster(year), 49);
      p.year == year && Weekday(p) == Sunday &&
      ((p.month == 5 && 10 <= p.day <= 31) || (p.month == 6 && 1 <= p.day <= 13))
  {
    var easter := CalculateEaster(year);
    PentecostCalendarDate(year);
    EasterIsSunday(year);
    WeekdayAddDays(easter, 49);
    ModSevenShift(Sunday, 7);
  }

  /** Seven weeks after Easter fall between 10 May and 13 June. */
  lemma PentecostCalendarDate(year: int)
    requires 1 <= year
    ensures 1 <= Ordinal(CalculateEaster(year)) + 49
    ensures AddDays(CalculateEaster(year), 49) ==
      var s := PaschalShift(year);
      if s <= 21 then Date(year, 5, 10 + s) else Date(year, 6, s - 21)
  {
    var easter := CalculateEaster(year);
    var s := PaschalShift(year);
    EasterOrdinal(year);
    DaysBeforeMonthStep(year, 3);
    DaysBeforeMonthStep(year, 4);
    DaysBeforeMonthStep(year, 5);
    assert Ordinal(easter) + 49 == DaysBeforeYear(year) + DaysBeforeMonth(year, 3) + 71 + s;
    assert DaysBeforeMonth(year, 5) == DaysBeforeMonth(year, 3) + 61;
    assert DaysBeforeMonth(year, 6) == DaysBeforeMonth(year, 3) + 92;
    var p := if s <= 21 then Date(year, 5, 10 + s) else Date(year, 6, s - 21);
    assert ValidDate(p) && Ordinal(p) == Ordinal(easter) + 49;
    OrdinalInjective(p, AddDays(easter, 49));
  }

  // ---------------------------------------------------------------------
  // Sundays and other weekdays of a month

  /** The first Sunday of a month (`first_sunday`). */
  function FirstSunday(year: int, month: int): (r: Date)
    requires 1 <= year && 1 <= month <= 12
    ensures ValidDate(r) && r.year == year && r.month == month
    ensures 1 <= r.day <= 7 && Weekday(r) == Sunday
    ensures forall dd :: 1 <= dd < r.day ==> Weekday(Date(year, month, dd)) != Sunday
  {
    var firstDay := Date(year, month, 1);
    var weekday := Weekday(firstDay);
    var daysToSunday := (6 - weekday) % 7;
    ForwardToWeekday(year, month, Sunday, daysToSunday);
    assert Weekday(Date(year, month, 1 + daysToSunday)) == Sunday;
    AddDaysInMonth(firstDay, daysToSunday);
    assert AddDays(firstDay, daysToSunday) == Date(year, month, 1 + daysToSunday);
    AddDays(firstDay, daysToSunday)
  }

  /** Weekday arithmetic behind "forward to the next `target`". */
  lemma WeekdayOffset(w: int, target: int)
    requires 0 <= w <= 6 && 0 <= target <= 6
    ensures 0 <= (target - w) % 7 <= 6
    ensures (w + (target - w) % 7) % 7 == target
  {
    if w <= target {
      assert (target - w) % 7 == target - w;
    } else {
      assert (target - w) % 7 == target - w + 7;
    }
  }

  /** No step short of the offset reaches the target weekday. */
  lemma WeekdayOffsetFirst(w: int, target: int, j: int)
    requires 0 <= w <= 6 && 0 <= target <= 6
    requires 0 <= j < (target - w) % 7
    ensures (w + j) % 7 != target
  {
    if w <= target {
      assert (target - w) % 7 == target - w;
    } else {
      assert (target - w) % 7 == target - w + 7;
    }
  }

  /**
   * Counting (target - weekday of the 1st) % 7 days on from the 1st of a month
   * reaches the first day of the month that falls on the target weekday.
   */
  lemma ForwardToWeekday(y: int, m: int, target: int, offset: int)
    requires 1 <= y && 1 <= m <= 12 && 0 <= target <= 6
    requires ValidDate(Date(y, m, 1)) && offset == (target - Weekday(Date(y, m, 1))) % 7
    ensures 0 <= offset <= 6 && ValidDate(Date(y, m, 1 + offset))
    ensures Weekday(Date(y, m, 1 + offset)) == target
    ensures forall dd :: 1 <= dd <= offset ==> Weekday(Date(y, m, dd)) != target
  {
    var w := Weekday(Date(y, m, 1));
    WeekdayOffset(w, target);
    WeekdaysOfMonth(y, m);
    forall dd | 1 <= dd <= offset
      ensures Weekday(Date(y, m, dd)) != target
    {
      WeekdayOffsetFirst(w, target, dd - 1);
    }
  }

  // ---------------------------------------------------------------------
  // The calendar bands each kind of rule selects

  /** The n-th `weekday` of `month`: that weekday, on a day in 7(n-1)+1 .. 7n. */
  predicate IsNthWeekday(d: Date, month: int, weekday: int, n: int)
    requires ValidDate(d)
  {
    d.month == month && Weekday(d) == weekday && 7 * (n - 1) < d.day <= 7 * n
  }

  /** The last `weekday` of `month`: that weekday, in the last seven days of the month. */
  predicate IsLastWeekday(d: Date, month: int, weekday: int)
    requires ValidDate(d)
  {
    d.month == month && Weekday(d) == weekday && DaysInMonth(d.year, d.month) - 7 < d.day
  }

  /**
   * The first Sunday of `month` or the Saturday before it; that Saturday is in
   * `month` unless the month begins on a Sunday, when it is the last day of the
   * month before.
   */
  predicate IsConferenceDay(d: Date, month: int)
    requires ValidDate(d)
  {
    (d.month == month && Weekday(d) == Sunday && d.day <= 7) ||
    (Weekday(d) == Saturday &&
      ((d.month == month && d.day <= 6) ||
       (d.month == month - 1 && d.day == DaysInMonth(d.year, d.month))))
  }

  /** `k` days from Easter Sunday of the same year. */
  predicate IsEasterOffset(d: Date, k: int)
    requires ValidDate(d)
  {
    Ordinal(d) == Ordinal(CalculateEaster(d.year)) + k
  }

  // ---------------------------------------------------------------------
  // The resolver's inline date computations select exactly those bands

  /**
   * `first + (base - first.weekday()) % 7` days, counted from the 1st of d's
   * month (base being the target weekday, or 7 for Monday), is d exactly when
   * d, already on the target weekday, is in the first week.
   */
  lemma FirstWeekdayExactly(d: Date, first: Date, base: int, offset: int, target: int, match1: Date)
    requires ValidDate(d) && Weekday(d) == target
    requires first == Date(d.year, d.month, 1)
    requires base == target || base == target + 7
    requires offset == (base - Weekday(first)) % 7
    requires ValidDate(match1) && ValidDate(first) && Ordinal(match1) == Ordinal(first) + offset
    ensures 0 <= offset <= 6 && match1 == Date(d.year, d.month, 1 + offset)
    ensures Weekday(match1) == target
    ensures d == match1 <==> d.day <= 7
  {
    var w := Weekday(first);
    if base != target {
      ModSevenShift(target - w, 1);
    }
    assert offset == (target - w) % 7;
    ForwardToWeekday(d.year, d.month, target, offset);
    var e := Date(d.year, d.month, 1 + offset);
    assert Weekday(e) == target;
    OrdinalInjective(match1, e);
    if d.day <= 7 {
      SameWeekdayInWeek(d, e);
    }
  }

  /** Whole weeks later in the same month is the same weekday. */
  lemma WeeksLater(y: int, m: int, dd: int, w: int)
    requires 1 <= y && 1 <= m <= 12 && 1 <= dd && 0 <= w
    requires dd + 7 * w <= DaysInMonth(y, m)
    ensures Weekday(Date(y, m, dd + 7 * w)) == Weekday(Date(y, m, dd))
  {
    var early := Date(y, m, dd);
    assert Ordinal(Date(y, m, dd + 7 * w)) + 6 == Ordinal(early) + 6 + 7 * w;
    ModSevenShift(Ordinal(early) + 6, w);
  }

  /**
   * Counting n - 1 weeks on from a day in the first week of d's month that
   * falls on d's weekday reaches d exactly when d is in the n-th week.
   */
  lemma WeeksAfterFirst(d: Date, match1: Date, n: int, matchN: Date)
    requires ValidDate(d) && ValidDate(match1)
    requires match1.year == d.year && match1.month == d.month && match1.day <= 7
    requires Weekday(match1) == Weekday(d)
    requires 1 <= n <= 4
    requires ValidDate(matchN) && Ordinal(matchN) == Ordinal(match1) + 7 * (n - 1)
    ensures d == matchN <==> 7 * (n - 1) < d.day <= 7 * n
  {
    var w := n - 1;
    var e := Date(d.year, d.month, match1.day + 7 * w);
    assert match1 == Date(d.year, d.month, match1.day);
    WeeksLater(d.year, d.month, match1.day, w);
    assert Ordinal(e) == Ordinal(match1) + 7 * w;
    OrdinalInjective(matchN, e);
    if 7 * w < d.day <= 7 * w + 7 {
      SameWeekdayInWeek(d, e);
    }
  }

  /**
   * The first target weekday of d's month plus n - 1 weeks is d exactly when
   * d, already on the target weekday, is in the n-th week of the month.
   */
  lemma NthWeekdayExactly(d: Date, first: Date, base: int, offset: int, target: int, match1: Date,
                          n: int, matchN: Date)
    requires ValidDate(d) && Weekday(d) == target
    requires first == Date(d.year, d.month, 1)
    requires base == target || base == target + 7
    requires offset == (base - Weekday(first)) % 7
    requires ValidDate(match1) && ValidDate(first) && Ordinal(match1) == Ordinal(first) + offset
    requires 1 <= n <= 4
    requires ValidDate(matchN) && Ordinal(matchN) == Ordinal(match1) + 7 * (n - 1)
    ensures d == matchN <==> 7 * (n - 1) < d.day <= 7 * n
  {
    FirstWeekdayExactly(d, first, base, offset, target, match1);
    WeeksAfterFirst(d, match1, n, matchN);
  }

  /**
   * `last - last.weekday()` days, counted back from the last day of d's month,
   * is d exactly when d (a Monday) is in the last seven days of the month.
   */
  lemma LastMondayExactly(d: Date, last: Date, lastMon: Date)
    requires ValidDate(d) && Weekday(d) == Monday
    requires last == Date(d.year, d.month, DaysInMonth(d.year, d.month))
    requires ValidDate(last) && ValidDate(lastMon) && Ordinal(lastMon) == Ordinal(last) - Weekday(last)
    ensures d == lastMon <==> DaysInMonth(d.year, d.month) - 7 < d.day
  {
    var w := Weekday(last);
    var e := Date(d.year, d.month, DaysInMonth(d.year, d.month) - w);
    WeekdaysOfMonth(d.year, d.month);
    assert Weekday(e) == Monday by {
      ModSevenShift(Monday, (Weekday(Date(d.year, d.month, 1)) + DaysInMonth(d.year, d.month) - 1) / 7);
    }
    OrdinalInjective(lastMon, e);
    if DaysInMonth(d.year, d.month) - 7 < d.day {
      SameWeekdayInWeek(d, e);
    }
  }

  /** The day before the first Sunday of a month is a Saturday, and which date it is. */
  lemma SaturdayBeforeFirstSunday(y: int, m: int, sat: Date)
    requires 1 <= y && 2 <= m <= 12
    requires ValidDate(sat) && Ordinal(sat) == Ordinal(FirstSunday(y, m)) - 1
    ensures Weekday(sat) == Saturday
    ensures sat == (if FirstSunday(y, m).day == 1 then Date(y, m - 1, DaysInMonth(y, m - 1))
                    else Date(y, m, FirstSunday(y, m).day - 1))
  {
    var sunday := FirstSunday(y, m);
    DayBeforeSunday(sat, sunday);
    DayBefore(sunday, sat);
  }

  /** A Saturday early in the month is the day before the first Sunday. */
  lemma EarlySaturday(d: Date)
    requires ValidDate(d) && 2 <= d.month && Weekday(d) == Saturday && d.day <= 6
    ensures FirstSunday(d.year, d.month) == Date(d.year, d.month, d.day + 1)
  {
    var next := Date(d.year, d.month, d.day + 1);
    assert d == Date(d.year, d.month, d.day);
    WeekdaysOfMonth(d.year, d.month);
    assert Weekday(next) == (Weekday(Date(d.year, d.month, 1)) + d.day) % 7;
    ModSevenShift(Sunday, (Weekday(Date(d.year, d.month, 1)) + d.day - 1) / 7);
    assert Weekday(next) == Sunday;
    SameWeekdayInWeek(next, FirstSunday(d.year, d.month));
  }

  /** A Saturday on the last day of a month is followed by a month that begins on Sunday. */
  lemma MonthEndSaturday(d: Date)
    requires ValidDate(d) && d.month < 12 && Weekday(d) == Saturday
    requires d.day == DaysInMonth(d.year, d.month)
    ensures FirstSunday(d.year, d.month + 1) == Date(d.year, d.month + 1, 1)
  {
    var first := Date(d.year, d.month + 1, 1);
    DaysBeforeMonthStep(d.year, d.month);
    assert Ordinal(first) == Ordinal(d) + 1;
    var q := (Ordinal(d) + 6) / 7;
    assert Ordinal(d) + 6 == 7 * q + Saturday;
    assert Ordinal(first) + 6 == 7 * q + Sunday;
    ModSevenShift(Sunday, q);
    assert Weekday(first) == Sunday;
    SameWeekdayInWeek(first, FirstSunday(d.year, d.month + 1));
  }

  /**
   * `d == first_sunday(y, m) - 1 day or d == first_sunday(y, m)` holds exactly
   * on the conference days of month m.
   */
  lemma ConferenceExactly(d: Date, sunday: Date, m: int, saturday: Date)
    requires ValidDate(d) && 2 <= m <= 12
    requires sunday == FirstSunday(d.year, m)
    requires ValidDate(saturday) && Ordinal(saturday) == Ordinal(sunday) - 1
    ensures (d == saturday || d == sunday) <==> IsConferenceDay(d, m)
  {
    SaturdayBeforeFirstSunday(d.year, m, saturday);
    if d.month == m && Weekday(d) == Sunday && d.day <= 7 {
      SameWeekdayInWeek(d, sunday);
    } else if Weekday(d) == Saturday && d.month == m && d.day <= 6 {
      EarlySaturday(d);
    } else if Weekday(d) == Saturday && d.month == m - 1 && d.day == DaysInMonth(d.year, d.month) {
      MonthEndSaturday(d);
    }
  }
}
