/**
 * What the holiday resolver promises, stated over `Observances`, the list
 * `GetHolidayName` is proved to return: which names a date gets and where
 * they sit in the list, the calendar band each computed holiday occupies, and
 * reference dates.
 */
module HolidayProperties {
  import opened CivilDate
  import opened Calendar
  import opened Holidays

  // ---------------------------------------------------------------------
  // Membership and order

  /** A name is collected exactly when one of the rules considered carries it and fires. */
  lemma {:induction false} CollectMembership(rules: seq<Entry>, d: Date, n: nat, name: string)
    requires ValidDate(d) && n <= |rules|
    ensures name in Collect(rules, d, n) <==>
      exists j :: 0 <= j < n && Name(rules[j].observance) == name && Fires(rules[j].rule, d)
  {
    if n > 0 {
      CollectMembership(rules, d, n - 1, name);
    }
  }

  /** The names collected from fewer rules are a prefix of those collected from more. */
  lemma {:induction false} CollectPrefix(rules: seq<Entry>, d: Date, i: nat, n: nat)
    requires ValidDate(d) && i <= n <= |rules|
    ensures Collect(rules, d, i) <= Collect(rules, d, n)
  {
    if i < n {
      CollectPrefix(rules, d, i, n - 1);
    }
  }

  /**
   * A rule that fires contributes its name at the position given by the rules
   * before it that fire, so the result lists the firing rules in rule order
   * and keeps a name once per rule that carries it.
   */
  lemma FiredNameAt(rules: seq<Entry>, d: Date, i: nat)
    requires ValidDate(d) && i < |rules| && Fires(rules[i].rule, d)
    ensures |Collect(rules, d, i)| < |Collect(rules, d, |rules|)|
    ensures Collect(rules, d, |rules|)[|Collect(rules, d, i)|] == Name(rules[i].observance)
  {
    CollectPrefix(rules, d, i + 1, |rules|);
  }

  /** Rules that fire earlier in the list get earlier positions. */
  lemma SourceOrder(rules: seq<Entry>, d: Date, i: nat, j: nat)
    requires ValidDate(d) && i < j <= |rules| && Fires(rules[i].rule, d)
    ensures |Collect(rules, d, i)| < |Collect(rules, d, j)|
  {
    CollectPrefix(rules, d, i + 1, j);
  }

  /** Rules that do not fire add nothing. */
  lemma {:induction false} CollectSkip(rules: seq<Entry>, d: Date, lo: nat, hi: nat)
    requires ValidDate(d) && lo <= hi <= |rules|
    requires forall k :: lo <= k < hi ==> !Fires(rules[k].rule, d)
    ensures Collect(rules, d, hi) == Collect(rules, d, lo)
  {
    if lo < hi {
      CollectSkip(rules, d, lo, hi - 1);
    }
  }

  /** Each observance has a name of its own. */
  lemma NameInjective(a: Observance, b: Observance)
    requires a != b
    ensures Name(a) != Name(b)
  {
  }

  /** No other rule in the list is for the observance of rule j. */
  predicate SoleRule(rules: seq<Entry>, j: nat)
    requires j < |rules|
  {
    forall k :: 0 <= k < |rules| && k != j ==> rules[k].observance != rules[j].observance
  }

  /** For an observance with one rule, the date gets its name exactly when that rule fires. */
  lemma SoleRuleIff(rules: seq<Entry>, d: Date, j: nat, o: Observance, r: Rule)
    requires ValidDate(d) && j < |rules| && rules[j] == Entry(o, r) && SoleRule(rules, j)
    ensures Name(o) in Collect(rules, d, |rules|) <==> Fires(r, d)
  {
    CollectMembership(rules, d, |rules|, Name(o));
    if Name(o) in Collect(rules, d, |rules|) {
      var k :| 0 <= k < |rules| && Name(rules[k].observance) == Name(o) && Fires(rules[k].rule, d);
      if k != j {
        NameInjective(rules[k].observance, o);
      }
    }
  }

  /** Rules j1 and j2 are the only ones in the list for observance o. */
  predicate OnlyRules(rules: seq<Entry>, o: Observance, j1: nat, j2: nat)
    requires j1 < |rules| && j2 < |rules|
  {
    rules[j1].observance == o && rules[j2].observance == o &&
    forall k :: 0 <= k < |rules| && rules[k].observance == o ==> k == j1 || k == j2
  }

  /** For an observance with two rules, the date gets its name when either fires. */
  lemma PairOfRulesIff(rules: seq<Entry>, d: Date, o: Observance, j1: nat, j2: nat)
    requires ValidDate(d) && j1 < |rules| && j2 < |rules| && OnlyRules(rules, o, j1, j2)
    ensures Name(o) in Collect(rules, d, |rules|) <==> Fires(rules[j1].rule, d) || Fires(rules[j2].rule, d)
  {
    CollectMembership(rules, d, |rules|, Name(o));
    if Name(o) in Collect(rules, d, |rules|) {
      var k :| 0 <= k < |rules| && Name(rules[k].observance) == Name(o) && Fires(rules[k].rule, d);
      if rules[k].observance != o {
        NameInjective(rules[k].observance, o);
      }
    }
  }

  /** The same for the resolver's table. */
  lemma TableRuleIff(d: Date, j: nat, o: Observance, r: Rule)
    requires ValidDate(d) && j < |Table| && Table[j] == Entry(o, r) && SoleRule(Table, j)
    ensures Name(o) in Observances(d) <==> Fires(r, d)
  {
    SoleRuleIff(Table, d, j, o, r);
  }

  // ---------------------------------------------------------------------
  // The computed US holidays occupy their calendar bands

  /** Martin Luther King Jr. Day: the Monday from 15 to 21 January. */
  lemma MartinLutherKingDayIff(d: Date)
    requires ValidDate(d)
    ensures "Martin Luther King Jr. Day" in Observances(d) <==>
      d.month == 1 && Weekday(d) == Monday && 15 <= d.day <= 21
  {
    assert SoleRule(Table, 1);
    assert Table[1] == Entry(MartinLutherKingDay, NthWeekday(1, Monday, 3));
    TableRuleIff(d, 1, MartinLutherKingDay, NthWeekday(1, Monday, 3));
    assert Name(MartinLutherKingDay) == "Martin Luther King Jr. Day";
  }

  /** Presidents' Day: the Monday from 15 to 21 February. */
  lemma PresidentsDayIff(d: Date)
    requires ValidDate(d)
    ensures "Presidents' Day" in Observances(d) <==>
      d.month == 2 && Weekday(d) == Monday && 15 <= d.day <= 21
  {
    assert SoleRule(Table, 2);
    assert Table[2] == Entry(PresidentsDay, NthWeekday(2, Monday, 3));
    TableRuleIff(d, 2, PresidentsDay, NthWeekday(2, Monday, 3));
    assert Name(PresidentsDay) == "Presidents' Day";
  }

  /** Memorial Day: the Monday from 25 to 31 May. */
  lemma MemorialDayIff(d: Date)
    requires ValidDate(d)
    ensures "Memorial Day" in Observances(d) <==>
      d.month == 5 && Weekday(d) == Monday && 25 <= d.day <= 31
  {
    assert SoleRule(Table, 3);
    assert Table[3] == Entry(MemorialDay, LastWeekday(5, Monday));
    TableRuleIff(d, 3, MemorialDay, LastWeekday(5, Monday));
    assert Name(MemorialDay) == "Memorial Day";
  }

  /** Independence Day falls on 4 July of every year, and on no other day. */
  lemma IndependenceDayIff(d: Date)
    requires ValidDate(d)
    ensures "Independence Day" in Observances(d) <==>
      d.month == 7 && d.day == 4
  {
    assert SoleRule(Table, 4);
    assert Table[4] == Entry(IndependenceDay, Fixed(7, 4));
    TableRuleIff(d, 4, IndependenceDay, Fixed(7, 4));
    assert Name(IndependenceDay) == "Independence Day";
  }

  /** Labor Day: the Monday from 1 to 7 September. */
  lemma LaborDayIff(d: Date)
    requires ValidDate(d)
    ensures "Labor Day" in Observances(d) <==>
      d.month == 9 && Weekday(d) == Monday && d.day <= 7
  {
    assert SoleRule(Table, 5);
    assert Table[5] == Entry(LaborDay, NthWeekday(9, Monday, 1));
    TableRuleIff(d, 5, LaborDay, NthWeekday(9, Monday, 1));
    assert Name(LaborDay) == "Labor Day";
  }

  /** Columbus Day: the Monday from 8 to 14 October. */
  lemma ColumbusDayIff(d: Date)
    requires ValidDate(d)
    ensures "Columbus Day" in Observances(d) <==>
      d.month == 10 && Weekday(d) == Monday && 8 <= d.day <= 14
  {
    assert SoleRule(Table, 6);
    assert Table[6] == Entry(ColumbusDay, NthWeekday(10, Monday, 2));
    TableRuleIff(d, 6, ColumbusDay, NthWeekday(10, Monday, 2));
    assert Name(ColumbusDay) == "Columbus Day";
  }

  /** Thanksgiving: the Thursday from 22 to 28 November. */
  lemma ThanksgivingIff(d: Date)
    requires ValidDate(d)
    ensures "Thanksgiving" in Observances(d) <==>
      d.month == 11 && Weekday(d) == Thursday && 22 <= d.day <= 28
  {
    assert SoleRule(Table, 8);
    assert Table[8] == Entry(Thanksgiving, NthWeekday(11, Thursday, 4));
    TableRuleIff(d, 8, Thanksgiving, NthWeekday(11, Thursday, 4));
    assert Name(Thanksgiving) == "Thanksgiving";
  }

  // ---------------------------------------------------------------------
  // The Christian holidays

  /** Good Friday: two days before Easter Sunday of the date's year. */
  lemma GoodFridayIff(d: Date)
    requires ValidDate(d)
    ensures "Good Friday" in Observances(d) <==>
      Ordinal(d) == Ordinal(CalculateEaster(d.year)) - 2
  {
    assert SoleRule(Table, 11);
    assert Table[11] == Entry(GoodFriday, EasterOffset(-2));
    TableRuleIff(d, 11, GoodFriday, EasterOffset(-2));
    assert Name(GoodFriday) == "Good Friday";
  }

  /** Easter: the computus date of the date's year. */
  lemma EasterIff(d: Date)
    requires ValidDate(d)
    ensures "Easter" in Observances(d) <==>
      Ordinal(d) == Ordinal(CalculateEaster(d.year))
  {
    assert SoleRule(Table, 12);
    assert Table[12] == Entry(Easter, EasterOffset(0));
    TableRuleIff(d, 12, Easter, EasterOffset(0));
    assert Name(Easter) == "Easter";
  }

  /** Pentecost: 49 days after Easter Sunday of the date's year. */
  lemma PentecostIff(d: Date)
    requires ValidDate(d)
    ensures "Pentecost" in Observances(d) <==>
      Ordinal(d) == Ordinal(CalculateEaster(d.year)) + 49
  {
    assert SoleRule(Table, 13);
    assert Table[13] == Entry(Pentecost, EasterOffset(49));
    TableRuleIff(d, 13, Pentecost, EasterOffset(49));
    assert Name(Pentecost) == "Pentecost";
  }

  /**
   * In the resolver's own terms, Good Friday, Easter and Pentecost are
   * `easter - 2 days`, `easter` and `easter + 49 days`; the first is always a
   * Friday and the other two Sundays.
   */
  lemma EasterCycleDates(d: Date)
    requires ValidDate(d)
    ensures 1 <= Ordinal(CalculateEaster(d.year)) - 2
    ensures "Good Friday" in Observances(d) <==> d == AddDays(CalculateEaster(d.year), -2)
    ensures "Easter" in Observances(d) <==> d == CalculateEaster(d.year)
    ensures "Pentecost" in Observances(d) <==> d == AddDays(CalculateEaster(d.year), 49)
    ensures "Good Friday" in Observances(d) ==> Weekday(d) == Friday
    ensures "Easter" in Observances(d) ==> Weekday(d) == Sunday
    ensures "Pentecost" in Observances(d) ==> Weekday(d) == Sunday
  {
    var easter := CalculateEaster(d.year);
    GoodFridayIff(d);
    EasterIff(d);
    PentecostIff(d);
    EasterHasRoom(d.year);
    AddDaysIff(d, easter, -2);
    SameDateIff(d, easter);
    AddDaysIff(d, easter, 49);
    GoodFridayDate(d.year);
    EasterIsSunday(d.year);
    PentecostDate(d.year);
  }

  /** Mother's Day: the Sunday from 8 to 14 May. */
  lemma MothersDayIff(d: Date)
    requires ValidDate(d)
    ensures "Mother's Day" in Observances(d) <==>
      d.month == 5 && Weekday(d) == Sunday && 8 <= d.day <= 14
  {
    assert SoleRule(Table, 14);
    assert Table[14] == Entry(MothersDay, NthWeekday(5, Sunday, 2));
    TableRuleIff(d, 14, MothersDay, NthWeekday(5, Sunday, 2));
    assert Name(MothersDay) == "Mother's Day";
  }

  /** Father's Day: the Sunday from 15 to 21 June. */
  lemma FathersDayIff(d: Date)
    requires ValidDate(d)
    ensures "Father's Day" in Observances(d) <==>
      d.month == 6 && Weekday(d) == Sunday && 15 <= d.day <= 21
  {
    assert SoleRule(Table, 15);
    assert Table[15] == Entry(FathersDay, NthWeekday(6, Sunday, 3));
    TableRuleIff(d, 15, FathersDay, NthWeekday(6, Sunday, 3));
    assert Name(FathersDay) == "Father's Day";
  }

  // ---------------------------------------------------------------------
  // General Conference

  /**
   * "General Conference" is listed on the first Sunday of April and of October
   * and on the Saturday before each, and on no other day.
   */
  lemma GeneralConferenceIff(d: Date)
    requires ValidDate(d)
    ensures "General Conference" in Observances(d) <==> IsConferenceDay(d, 4) || IsConferenceDay(d, 10)
  {
    assert Table[16] == Entry(GeneralConference, ConferenceWeekend(4));
    assert Table[17] == Entry(GeneralConference, ConferenceWeekend(10));
    assert OnlyRules(Table, GeneralConference, 16, 17);
    PairOfRulesIff(Table, d, GeneralConference, 16, 17);
    assert Name(GeneralConference) == "General Conference";
  }

  /** The same days, in the resolver's terms: the first Sunday of the month or the day before it. */
  lemma GeneralConferenceDates(d: Date)
    requires ValidDate(d)
    ensures 2 <= Ordinal(FirstSunday(d.year, 4)) && 2 <= Ordinal(FirstSunday(d.year, 10))
    ensures "General Conference" in Observances(d) <==>
      d == FirstSunday(d.year, 4) || d == AddDays(FirstSunday(d.year, 4), -1) ||
      d == FirstSunday(d.year, 10) || d == AddDays(FirstSunday(d.year, 10), -1)
  {
    GeneralConferenceIff(d);
    var april := FirstSunday(d.year, 4);
    var october := FirstSunday(d.year, 10);
    DaysBeforeMonthMonotone(d.year, 2, 4);
    DaysBeforeMonthMonotone(d.year, 2, 10);
    ConferenceExactly(d, april, 4, AddDays(april, -1));
    ConferenceExactly(d, october, 10, AddDays(october, -1));
  }

  // ---------------------------------------------------------------------
  // Reference dates

  /** General Conference 2025: Saturday 5 and Sunday 6 April, not Monday 7 April. */
  lemma Conference2025()
    ensures "General Conference" in Observances(Date(2025, 4, 5))
    ensures "General Conference" in Observances(Date(2025, 4, 6))
    ensures "General Conference" !in Observances(Date(2025, 4, 7))
  {
    assert Weekday(Date(2025, 4, 5)) == Saturday;
    assert Weekday(Date(2025, 4, 6)) == Sunday;
    assert Weekday(Date(2025, 4, 7)) == Monday;
    GeneralConferenceIff(Date(2025, 4, 5));
    GeneralConferenceIff(Date(2025, 4, 6));
    GeneralConferenceIff(Date(2025, 4, 7));
  }

  /**
   * Saturday 31 March 2018, the day before Easter and before the first Sunday
   * of April, is both Cesar Chavez Day and a General Conference day.
   */
  lemma ChavezAndConference2018()
    ensures Observances(Date(2018, 3, 31)) == ["Cesar Chavez Day", "General Conference"]
  {
    var d := Date(2018, 3, 31);
    FederalHolidays2018();
    assert Weekday(d) == Saturday;
    Easter2018();
    assert Ordinal(CalculateEaster(2018)) == Ordinal(d) + 1;
    CollectSkip(Table, d, 11, 16);
    assert Collect(Table, d, 17) == ["Cesar Chavez Day", "General Conference"];
    CollectSkip(Table, d, 17, 24);
  }

  /** Of the federal rules, only Cesar Chavez Day fires on 31 March 2018. */
  lemma FederalHolidays2018()
    ensures Collect(Table, Date(2018, 3, 31), 11) == ["Cesar Chavez Day"]
  {
    var d := Date(2018, 3, 31);
    assert Weekday(d) == Saturday;
    NoJanuaryToJulyHoliday2018();
    CollectSkip(Table, d, 5, 10);
    assert Table[10] == Entry(CesarChavezDay, Fixed(3, 31));
    assert Name(CesarChavezDay) == "Cesar Chavez Day";
    assert Collect(Table, d, 11) == Collect(Table, d, 10) + [Name(CesarChavezDay)];
  }

  /** None of the first five federal rules fires on 31 March 2018. */
  lemma NoJanuaryToJulyHoliday2018()
    ensures Collect(Table, Date(2018, 3, 31), 5) == []
  {
    var d := Date(2018, 3, 31);
    assert Weekday(d) == Saturday;
    CollectSkip(Table, d, 0, 5);
  }

  /** Leap day 2024 is no observance. */
  lemma LeapDay2024()
    ensures Observances(Date(2024, 2, 29)) == []
  {
    var d := Date(2024, 2, 29);
    assert Weekday(d) == Thursday;
    Easter2024();
    assert Ordinal(CalculateEaster(2024)) == Ordinal(d) + 31;
    CollectSkip(Table, d, 0, 24);
  }
}
