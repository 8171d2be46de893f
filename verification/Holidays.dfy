/**
 * The holiday resolver of the calendar generator (`get_holiday_name`): for a
 * date, the names of the observances that fall on it, in the order the rules
 * are written — US civil holidays, then Christian feasts, then LDS Church
 * holidays, then LDS Church history events.
 *
 * `Table` states the rules declaratively, each as the calendar band it
 * selects ("a Monday from the 15th to the 21st of January"); `Observances` is
 * the specification of the resolver. `GetHolidayName` computes the same list
 * the way the generator does — counting days forward from the 1st of the
 * month, back from the 31st of May, around a computed Easter — and is proved
 * to produce exactly `Observances(d)`.
 */
module Holidays {
  import opened CivilDate
  import opened Calendar

  /** The kinds of rule the resolver applies. */
  datatype Rule =
    | Fixed(month: int, day: int)
    | NthWeekday(month: int, weekday: int, n: int)
    | LastWeekday(month: int, weekday: int)
    | EasterOffset(days: int)
    | ConferenceWeekend(month: int)

  /** The observances the resolver can name. */
  datatype Observance =
    | NewYearsDay
    | MartinLutherKingDay
    | PresidentsDay
    | MemorialDay
    | IndependenceDay
    | LaborDay
    | ColumbusDay
    | VeteransDay
    | Thanksgiving
    | Christmas
    | CesarChavezDay
    | GoodFriday
    | Easter
    | Pentecost
    | MothersDay
    | FathersDay
    | GeneralConference
    | PioneerDay
    | FirstVision
    | ChurchOrganization
    | KirtlandTempleDedication
    | FirstPresidencyOrganized
    | JosephSmithMartyrdom

  /** The name the resolver lists for an observance. */
  function Name(o: Observance): string {
    match o
    case NewYearsDay => "New Year's Day"
    case MartinLutherKingDay => "Martin Luther King Jr. Day"
    case PresidentsDay => "Presidents' Day"
    case MemorialDay => "Memorial Day"
    case IndependenceDay => "Independence Day"
    case LaborDay => "Labor Day"
    case ColumbusDay => "Columbus Day"
    case VeteransDay => "Veterans Day"
    case Thanksgiving => "Thanksgiving"
    case Christmas => "Christmas"
    case CesarChavezDay => "Cesar Chavez Day"
    case GoodFriday => "Good Friday"
    case Easter => "Easter"
    case Pentecost => "Pentecost"
    case MothersDay => "Mother's Day"
    case FathersDay => "Father's Day"
    case GeneralConference => "General Conference"
    case PioneerDay => "Pioneer Day"
    case FirstVision => "First Vision"
    case ChurchOrganization => "Church Organization"
    case KirtlandTempleDedication => "Kirtland Temple Dedication"
    case FirstPresidencyOrganized => "First Presidency Organized"
    case JosephSmithMartyrdom => "Joseph Smith Martyrdom"
  }

  datatype Entry = Entry(observance: Observance, rule: Rule)

  /** The rules in the order the resolver applies them. */
  const Table: seq<Entry> := [
    // US federal holidays (and California's Cesar Chavez Day)
    Entry(NewYearsDay, Fixed(1, 1)),
    Entry(MartinLutherKingDay, NthWeekday(1, Monday, 3)),
    Entry(PresidentsDay, NthWeekday(2, Monday, 3)),
    Entry(MemorialDay, LastWeekday(5, Monday)),
    Entry(IndependenceDay, Fixed(7, 4)),
    Entry(LaborDay, NthWeekday(9, Monday, 1)),
    Entry(ColumbusDay, NthWeekday(10, Monday, 2)),
    Entry(VeteransDay, Fixed(11, 11)),
    Entry(Thanksgiving, NthWeekday(11, Thursday, 4)),
    Entry(Christmas, Fixed(12, 25)),
    Entry(CesarChavezDay, Fixed(3, 31)),
    // Christian holidays
    Entry(GoodFriday, EasterOffset(-2)),
    Entry(Easter, EasterOffset(0)),
    Entry(Pentecost, EasterOffset(49)),
    Entry(MothersDay, NthWeekday(5, Sunday, 2)),
    Entry(FathersDay, NthWeekday(6, Sunday, 3)),
    // LDS Church holidays
    Entry(GeneralConference, ConferenceWeekend(4)),
    Entry(GeneralConference, ConferenceWeekend(10)),
    Entry(PioneerDay, Fixed(7, 24)),
    // LDS Church history events
    Entry(FirstVision, Fixed(9, 21)),
    Entry(ChurchOrganization, Fixed(4, 6)),
    Entry(KirtlandTempleDedication, Fixed(3, 27)),
    Entry(FirstPresidencyOrganized, Fixed(4, 3)),
    Entry(JosephSmithMartyrdom, Fixed(6, 27))
  ]

  /**
   * The table's entries one by one, so that a proof can cite the entries it
   * is about rather than the whole literal (the verifier checks that each
   * agrees with `Table`). A lemma about a single observance asserts just the
   * one entry it needs.
   */
  lemma TableEntries()
    ensures |Table| == 24
    ensures Table[0] == Entry(NewYearsDay, Fixed(1, 1))
    ensures Table[1] == Entry(MartinLutherKingDay, NthWeekday(1, Monday, 3))
    ensures Table[2] == Entry(PresidentsDay, NthWeekday(2, Monday, 3))
    ensures Table[3] == Entry(MemorialDay, LastWeekday(5, Monday))
    ensures Table[4] == Entry(IndependenceDay, Fixed(7, 4))
    ensures Table[5] == Entry(LaborDay, NthWeekday(9, Monday, 1))
    ensures Table[6] == Entry(ColumbusDay, NthWeekday(10, Monday, 2))
    ensures Table[7] == Entry(VeteransDay, Fixed(11, 11))
    ensures Table[8] == Entry(Thanksgiving, NthWeekday(11, Thursday, 4))
    ensures Table[9] == Entry(Christmas, Fixed(12, 25))
    ensures Table[10] == Entry(CesarChavezDay, Fixed(3, 31))
    ensures Table[11] == Entry(GoodFriday, EasterOffset(-2))
    ensures Table[12] == Entry(Easter, EasterOffset(0))
    ensures Table[13] == Entry(Pentecost, EasterOffset(49))
    ensures Table[14] == Entry(MothersDay, NthWeekday(5, Sunday, 2))
    ensures Table[15] == Entry(FathersDay, NthWeekday(6, Sunday, 3))
    ensures Table[16] == Entry(GeneralConference, ConferenceWeekend(4))
    ensures Table[17] == Entry(GeneralConference, ConferenceWeekend(10))
    ensures Table[18] == Entry(PioneerDay, Fixed(7, 24))
    ensures Table[19] == Entry(FirstVision, Fixed(9, 21))
    ensures Table[20] == Entry(ChurchOrganization, Fixed(4, 6))
    ensures Table[21] == Entry(KirtlandTempleDedication, Fixed(3, 27))
    ensures Table[22] == Entry(FirstPresidencyOrganized, Fixed(4, 3))
    ensures Table[23] == Entry(JosephSmithMartyrdom, Fixed(6, 27))
  {
  }

  /** Whether a rule selects date d. */
  predicate Fires(rule: Rule, d: Date)
    requires ValidDate(d)
  {
    match rule
    case Fixed(month, day) => d.month == month && d.day == day
    case NthWeekday(month, weekday, n) => IsNthWeekday(d, month, weekday, n)
    case LastWeekday(month, weekday) => IsLastWeekday(d, month, weekday)
    case EasterOffset(days) => IsEasterOffset(d, days)
    case ConferenceWeekend(month) => IsConferenceDay(d, month)
  }

  /** The names of the first n of `rules` that select d, in rule order. */
  function Collect(rules: seq<Entry>, d: Date, n: nat): (names: seq<string>)
    requires ValidDate(d) && n <= |rules|
    ensures |names| <= n
  {
    if n == 0 then []
    else Collect(rules, d, n - 1) + (if Fires(rules[n - 1].rule, d) then [Name(rules[n - 1].observance)] else [])
  }

  /** The observances of date d: the names of all rules that select it, in rule order. */
  function Observances(d: Date): seq<string>
    requires ValidDate(d)
  {
    Collect(Table, d, |Table|)
  }

  /** One more rule: the list grows by the rule's name exactly when it fires. */
  lemma CollectNext(d: Date, n: nat, before: seq<string>, fired: bool, o: Observance)
    requires ValidDate(d) && n < |Table| && before == Collect(Table, d, n)
    requires Table[n].observance == o && (fired <==> Fires(Table[n].rule, d))
    ensures before + (if fired then [Name(o)] else []) == Collect(Table, d, n + 1)
  {
  }

  /**
   * The resolver's test for the n-th `target` weekday of `month`: on that
   * weekday of that month, step from the 1st to the first such weekday by
   * `(base - weekday of the 1st) % 7` days, then on by 7 * (n - 1) days, and
   * compare.
   */
  method NthWeekdayMatches(d: Date, month: int, target: int, base: int, n: int) returns (matches: bool)
    requires ValidDate(d) && 1 <= month <= 12 && 0 <= target <= 6
    requires base == target || base == target + 7
    requires 1 <= n <= 4
    ensures matches <==> IsNthWeekday(d, month, target, n)
  {
    matches := false;
    if d.month == month && Weekday(d) == target {
      var first := Date(d.year, month, 1);
      var firstMatch := AddTimedelta(first, (base - Weekday(first)) % 7);
      var nth := AddTimedelta(firstMatch, 7 * (n - 1));
      NthWeekdayExactly(d, first, base, (base - Weekday(first)) % 7, target, firstMatch, n, nth);
      matches := d == nth;
    }
  }

  /**
   * The resolver's test for Memorial Day: on a Monday in May, step back from
   * 31 May by its weekday number and compare.
   */
  method LastMondayOfMayMatches(d: Date) returns (matches: bool)
    requires ValidDate(d)
    ensures matches <==> IsLastWeekday(d, 5, Monday)
  {
    matches := false;
    if d.month == 5 && Weekday(d) == Monday {
      var may31 := Date(d.year, 5, 31);
      var lastMon := AddTimedelta(may31, -Weekday(may31));
      LastMondayExactly(d, may31, lastMon);
      matches := d == lastMon;
    }
  }

  /**
   * The resolver's test for a General Conference weekend: d is the first
   * Sunday of `month` or the day before it.
   */
  method ConferenceMatches(d: Date, month: int) returns (matches: bool)
    requires ValidDate(d) && 2 <= month <= 12
    ensures matches <==> IsConferenceDay(d, month)
  {
    var sunday := FirstSunday(d.year, month);
    var saturday := AddTimedelta(sunday, -1);
    ConferenceExactly(d, sunday, month, saturday);
    matches := d == saturday || d == sunday;
  }

  /** New Year's Day, Martin Luther King Jr. Day and Presidents' Day. */
  method AddJanuaryFebruaryHolidays(d: Date, holidays: seq<string>) returns (result: seq<string>)
    requires ValidDate(d)
    requires holidays == Collect(Table, d, 0)
    ensures result == Collect(Table, d, 3)
  {
    TableEntries();
    result := holidays;
    CollectNext(d, 0, result, d.month == 1 && d.day == 1, NewYearsDay);
    if d.month == 1 && d.day == 1 {
      result := result + [Name(NewYearsDay)];
    }
    var mlk := NthWeekdayMatches(d, 1, Monday, 7, 3);
    CollectNext(d, 1, result, mlk, MartinLutherKingDay);
    if mlk {
      result := result + [Name(MartinLutherKingDay)];
    }
    var presidents := NthWeekdayMatches(d, 2, Monday, 7, 3);
    CollectNext(d, 2, result, presidents, PresidentsDay);
    if presidents {
      result := result + [Name(PresidentsDay)];
    }
  }

  /** Memorial Day and Independence Day. */
  method AddMemorialAndIndependenceDay(d: Date, holidays: seq<string>) returns (result: seq<string>)
    requires ValidDate(d)
    requires holidays == Collect(Table, d, 3)
    ensures result == Collect(Table, d, 5)
  {
    TableEntries();
    result := holidays;
    var memorial := LastMondayOfMayMatches(d);
    CollectNext(d, 3, result, memorial, MemorialDay);
    if memorial {
      result := result + [Name(MemorialDay)];
    }
    CollectNext(d, 4, result, d.month == 7 && d.day == 4, IndependenceDay);
    if d.month == 7 && d.day == 4 {
      result := result + [Name(IndependenceDay)];
    }
  }

  /** Labor Day, Columbus Day and Veterans Day. */
  method AddSeptemberToNovemberHolidays(d: Date, holidays: seq<string>) returns (result: seq<string>)
    requires ValidDate(d)
    requires holidays == Collect(Table, d, 5)
    ensures result == Collect(Table, d, 8)
  {
    TableEntries();
    result := holidays;
    var labor := NthWeekdayMatches(d, 9, Monday, 7, 1);
    CollectNext(d, 5, result, labor, LaborDay);
    if labor {
      result := result + [Name(LaborDay)];
    }
    var columbus := NthWeekdayMatches(d, 10, Monday, 7, 2);
    CollectNext(d, 6, result, columbus, ColumbusDay);
    if columbus {
      result := result + [Name(ColumbusDay)];
    }
    CollectNext(d, 7, result, d.month == 11 && d.day == 11, VeteransDay);
    if d.month == 11 && d.day == 11 {
      result := result + [Name(VeteransDay)];
    }
  }

  /** Thanksgiving, Christmas and California's Cesar Chavez Day. */
  method AddThanksgivingChristmasAndChavez(d: Date, holidays: seq<string>) returns (result: seq<string>)
    requires ValidDate(d)
    requires holidays == Collect(Table, d, 8)
    ensures result == Collect(Table, d, 11)
  {
    TableEntries();
    result := holidays;
    var thanksgiving := NthWeekdayMatches(d, 11, Thursday, 3, 4);
    CollectNext(d, 8, result, thanksgiving, Thanksgiving);
    if thanksgiving {
      result := result + [Name(Thanksgiving)];
    }
    CollectNext(d, 9, result, d.month == 12 && d.day == 25, Christmas);
    if d.month == 12 && d.day == 25 {
      result := result + [Name(Christmas)];
    }
    CollectNext(d, 10, result, d.month == 3 && d.day == 31, CesarChavezDay);
    if d.month == 3 && d.day == 31 {
      result := result + [Name(CesarChavezDay)];
    }
  }

  /** The Christian holidays of the Easter cycle: Good Friday, Easter and Pentecost. */
  method AddEasterCycle(d: Date, holidays: seq<string>) returns (result: seq<string>)
    requires ValidDate(d)
    requires holidays == Collect(Table, d, 11)
    ensures result == Collect(Table, d, 14)
  {
    TableEntries();
    result := holidays;
    var easter := CalculateEaster(d.year);
    EasterHasRoom(d.year);
    var goodFriday := AddTimedelta(easter, -2);
    SameDateIff(d, goodFriday);
    CollectNext(d, 11, result, d == goodFriday, GoodFriday);
    if d == goodFriday {
      result := result + [Name(GoodFriday)];
    }
    SameDateIff(d, easter);
    CollectNext(d, 12, result, d == easter, Easter);
    if d == easter {
      result := result + [Name(Easter)];
    }
    var pentecost := AddTimedelta(easter, 49);
    SameDateIff(d, pentecost);
    CollectNext(d, 13, result, d == pentecost, Pentecost);
    if d == pentecost {
      result := result + [Name(Pentecost)];
    }
  }

  /** The other Christian holidays: Mother's Day and Father's Day. */
  method AddMothersAndFathersDay(d: Date, holidays: seq<string>) returns (result: seq<string>)
    requires ValidDate(d)
    requires holidays == Collect(Table, d, 14)
    ensures result == Collect(Table, d, 16)
  {
    TableEntries();
    result := holidays;
    var mothers := NthWeekdayMatches(d, 5, Sunday, 6, 2);
    CollectNext(d, 14, result, mothers, MothersDay);
    if mothers {
      result := result + [Name(MothersDay)];
    }
    var fathers := NthWeekdayMatches(d, 6, Sunday, 6, 3);
    CollectNext(d, 15, result, fathers, FathersDay);
    if fathers {
      result := result + [Name(FathersDay)];
    }
  }

  /** The LDS Church holidays: the two General Conference weekends and Pioneer Day. */
  method AddChurchHolidays(d: Date, holidays: seq<string>) returns (result: seq<string>)
    requires ValidDate(d)
    requires holidays == Collect(Table, d, 16)
    ensures result == Collect(Table, d, 19)
  {
    TableEntries();
    result := holidays;
    var aprilConference := ConferenceMatches(d, 4);
    CollectNext(d, 16, result, aprilConference, GeneralConference);
    if aprilConference {
      result := result + [Name(GeneralConference)];
    }
    var octoberConference := ConferenceMatches(d, 10);
    CollectNext(d, 17, result, octoberConference, GeneralConference);
    if octoberConference {
      result := result + [Name(GeneralConference)];
    }
    CollectNext(d, 18, result, d.month == 7 && d.day == 24, PioneerDay);
    if d.month == 7 && d.day == 24 {
      result := result + [Name(PioneerDay)];
    }
  }

  /** The LDS Church history events. */
  method AddChurchHistoryEvents(d: Date, holidays: seq<string>) returns (result: seq<string>)
    requires ValidDate(d)
    requires holidays == Collect(Table, d, 19)
    ensures result == Collect(Table, d, 24)
  {
    TableEntries();
    result := holidays;
    CollectNext(d, 19, result, d.month == 9 && d.day == 21, FirstVision);
    if d.month == 9 && d.day == 21 {
      result := result + [Name(FirstVision)];
    }
    CollectNext(d, 20, result, d.month == 4 && d.day == 6, ChurchOrganization);
    if d.month == 4 && d.day == 6 {
      result := result + [Name(ChurchOrganization)];
    }
    CollectNext(d, 21, result, d.month == 3 && d.day == 27, KirtlandTempleDedication);
    if d.month == 3 && d.day == 27 {
      result := result + [Name(KirtlandTempleDedication)];
    }
    CollectNext(d, 22, result, d.month == 4 && d.day == 3, FirstPresidencyOrganized);
    if d.month == 4 && d.day == 3 {
      result := result + [Name(FirstPresidencyOrganized)];
    }
    CollectNext(d, 23, result, d.month == 6 && d.day == 27, JosephSmithMartyrdom);
    if d.month == 6 && d.day == 27 {
      result := result + [Name(JosephSmithMartyrdom)];
    }
  }

  /** `get_holiday_name`: the groups of rules applied in order to a growing list. */
  method GetHolidayName(d: Date) returns (holidays: seq<string>)
    requires ValidDate(d)
    ensures holidays == Observances(d)
  {
    holidays := [];
    holidays := AddJanuaryFebruaryHolidays(d, holidays);
    holidays := AddMemorialAndIndependenceDay(d, holidays);
    holidays := AddSeptemberToNovemberHolidays(d, holidays);
    holidays := AddThanksgivingChristmasAndChavez(d, holidays);
    holidays := AddEasterCycle(d, holidays);
    holidays := AddMothersAndFathersDay(d, holidays);
    holidays := AddChurchHolidays(d, holidays);
    holidays := AddChurchHistoryEvents(d, holidays);
  }
}
