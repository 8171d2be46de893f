# Holiday resolver of the calendar generator, in Dafny

`generate_calendar.py` writes a Word calendar for a year and labels each day
with the holidays that fall on it. This project models the part that decides those
labels, together with the civil-date arithmetic it borrows from Python's
`datetime`. The model has three parts:

- `calculate_easter`, the anonymous Gregorian computus (Meeus/Jones/Butcher).
- `first_sunday`, the first Sunday of a month.
- `get_holiday_name`, which takes a date and returns the list of observance
  names for it. The rules are applied in the order they are written: US
  federal holidays (with California's Cesar Chavez Day), then Christian
  feasts, then LDS Church holidays, then LDS Church history events.

The Dafny modules follow that structure:

- `CivilDate` (`CivilDate.dfy`) models `datetime.date`:
  - valid dates under the Gregorian leap-year rule;
  - the day number of `toordinal`, 1 January of year 1 being day 1;
  - `weekday()` as `(ordinal + 6) % 7`, with Monday = 0 and Sunday = 6;
  - `date + timedelta(days = k)`, which moves the day number by k and crosses
    month and year boundaries.

  The day number is shown to be a bijection onto the positive integers.
- `Calendar` (`Calendar.dfy`) holds three things:
  - the computus;
  - `first_sunday`;
  - the date arithmetic that the resolver writes out inline for each computed
    rule: "first Monday = the 1st + `(7 - weekday of the 1st) % 7` days, plus
    n − 1 weeks", "last Monday of May = 31 May − its weekday number" and
    "the first Sunday or the day before".

  Lemmas show that each of these computations selects exactly one calendar
  band, such as "a Monday from the 15th to the 21st".
- `Holidays` (`Holidays.dfy`) holds the resolver itself.
  - `Table` states the 24 rules declaratively, in source order.
  - `Observances(d)` is the specification: the names of the rules that fire on
    `d`, in table order.
  - `GetHolidayName` is the imperative resolver. It starts from an empty list
    and appends names step by step, computing its dates the way the source
    does: with `AddTimedelta`, `CalculateEaster` and `FirstSunday`. It is
    proved to return exactly `Observances(d)`.
- `HolidayProperties` (`Properties.dfy`) states what the resolver promises,
  over `Observances(d)`:
  - a name is listed exactly when a rule carrying it fires, and the names come
    in rule order;
  - the band each computed holiday occupies, with both directions of each
    "exactly when";
  - the reference dates.

Python's `//` and `%` round toward negative infinity, while Dafny's `/` and `%`
are Euclidean. The two agree whenever the divisor is positive, and every
divisor here is a positive constant. This includes `(3 - nov1.weekday()) % 7`,
whose left operand can be negative. Years are restricted to year 1 and later,
so every computus operand is non-negative.

## Model

| member | source | states |
|---|---|---|
| CivilDate.IsLeapYear | generate_calendar.py:64 | the Gregorian leap rule: divisible by 4, and not by 100 unless by 400 |
| CivilDate.DaysInYear | generate_calendar.py:85 | a year has 365 days, or 366 exactly when it is a leap year |
| CivilDate.DaysInMonth | generate_calendar.py:96 | every month has 28 to 31 days, and 29 exactly for February of a leap year |
| CivilDate.ValidDate | generate_calendar.py:68 | the triples `date(y, m, d)` accepts, from year 1: a month 1..12 and a day from 1 to that month's length under the leap rule |
| CivilDate.Ordinal | generate_calendar.py:82-85 | the day number behind `date` arithmetic is at least 1 for every valid date |
| CivilDate.Weekday | generate_calendar.py:69 | `weekday()` is in 0..6 |
| CivilDate.NewYear2024IsMonday | generate_calendar.py:69 | the weekday numbering is anchored as in Python: 1 January 2024 is a Monday (0) |
| CivilDate.DaysBeforeYearStep | generate_calendar.py:82-85 | the closed-form count of days before a year grows by 365 or 366 according to the Gregorian leap rule |
| CivilDate.OrdinalInjective | generate_calendar.py:85 | two valid dates with the same day number are the same date, so comparing dates compares day numbers |
| CivilDate.SameDateIff | generate_calendar.py:133 | `d == e` holds for valid dates exactly when their day numbers are equal |
| CivilDate.NextDay | generate_calendar.py:71 | the next calendar day, across month and year ends, is valid and has the next day number |
| CivilDate.PrevDay | generate_calendar.py:97 | the previous calendar day, across month and year starts, is valid and has the previous day number |
| CivilDate.AddDays | generate_calendar.py:71 | adding k days (k may be negative) gives a valid date whose day number is k more |
| CivilDate.FromOrdinal | generate_calendar.py:71 | every positive day number is the day number of a valid date |
| CivilDate.FromOrdinalOfOrdinal | generate_calendar.py:71 | `FromOrdinal` inverts the day number, completing the bijection |
| CivilDate.AddTimedelta | generate_calendar.py:83-84 | `d + timedelta(days = k)` returns a valid date whose day number is k more than d's |
| CivilDate.AddDaysIff | generate_calendar.py:131 | `d == e + k days` exactly when d's day number is e's plus k |
| CivilDate.WeekdayAddDays | generate_calendar.py:131 | moving k days moves the weekday by k modulo 7 |
| CivilDate.WeekdayShift | generate_calendar.py:97 | a date k days after another is k days further along the week |
| CivilDate.AddDaysInMonth | generate_calendar.py:71 | adding days that stay inside the month only changes the day of the month |
| CivilDate.DayBefore | generate_calendar.py:155 | for a date from February to December, the day before is the previous day of the month, or the last day of the previous month when the date is a 1st |
| CivilDate.DayBeforeSunday | generate_calendar.py:155 | the day before a Sunday is a Saturday |
| CivilDate.WeekdaysOfMonth | generate_calendar.py:69-70 | within a month the weekday of day dd is the weekday of the 1st plus dd − 1, modulo 7 |
| CivilDate.SameWeekdayInWeek | generate_calendar.py:85 | two days of one month on the same weekday and less than a week apart are the same day |
| Calendar.CalculateEaster | generate_calendar.py:49-64 | Easter is a valid date of the given year between 22 March and 25 April |
| Calendar.EasterMonthDay | generate_calendar.py:62-63 | the month/day split of `h + l - 7m + 114` gives March 22 + shift or April shift − 9 |
| Calendar.PaschalShift | generate_calendar.py:50-61 | `h + l - 7m`, the number of days from 22 March to Easter, is in 0..34 |
| Calendar.EasterOrdinal | generate_calendar.py:62-64 | Easter's day number is that of 22 March plus the paschal shift |
| Calendar.EasterHasRoom | generate_calendar.py:131 | Easter's day number is at least 3, so `easter - timedelta(days=2)` is a valid date |
| Calendar.EasterIsSunday | generate_calendar.py:49-64 | the computus always yields a Sunday, for every year |
| Calendar.CenturyDays | generate_calendar.py:51-59 | the days up to the end of a year, written in the computus' b, c, b/4 and c/4 |
| Calendar.Easter2016 | generate_calendar.py:49-64 | Easter 2016 is 27 March |
| Calendar.Easter2024 | generate_calendar.py:49-64 | Easter 2024 is 31 March |
| Calendar.Easter2025 | generate_calendar.py:49-64 | Easter 2025 is 20 April |
| Calendar.Easter2018 | generate_calendar.py:49-64 | Easter 2018 is 1 April |
| Calendar.GoodFridayDate | generate_calendar.py:131-132 | Easter − 2 days is a Friday of the same year, from 20 March to 23 April, across the March/April boundary |
| Calendar.PentecostDate | generate_calendar.py:135-136 | Easter + 49 days is a Sunday of the same year, from 10 May to 13 June |
| Calendar.PentecostCalendarDate | generate_calendar.py:135 | Easter + 49 days is 10 May + shift, or 1 June + (shift − 22) when the shift passes May |
| Calendar.FirstSunday | generate_calendar.py:67-71 | `first_sunday` is a Sunday of the given month with day 1..7, and no earlier day of that month is a Sunday |
| Calendar.WeekdayOffset | generate_calendar.py:70 | `(target - w) % 7` is in 0..6 and moves weekday w to the target |
| Calendar.WeekdayOffsetFirst | generate_calendar.py:70 | no shorter step from weekday w reaches the target |
| Calendar.ForwardToWeekday | generate_calendar.py:83 | stepping `(target - weekday of the 1st) % 7` days from the 1st reaches the first day of the month on the target weekday |
| Calendar.FirstWeekdayExactly | generate_calendar.py:104-106 | on the target weekday, d equals the computed first such weekday exactly when d is in the first seven days |
| Calendar.WeeksLater | generate_calendar.py:84 | whole weeks later in the same month is the same weekday |
| Calendar.WeeksAfterFirst | generate_calendar.py:84-85 | the first match plus n − 1 weeks is d exactly when d is in days 7(n−1)+1..7n |
| Calendar.NthWeekdayExactly | generate_calendar.py:82-85 | the resolver's n-th weekday computation equals d exactly when d is in the n-th week band |
| Calendar.LastMondayExactly | generate_calendar.py:96-98 | on a Monday, `may31 - may31.weekday()` equals d exactly when d is among the last seven days of May |
| Calendar.SaturdayBeforeFirstSunday | generate_calendar.py:155 | for a month from February to December, the day before its first Sunday is a Saturday: the previous day of the month, or the last day of the previous month |
| Calendar.EarlySaturday | generate_calendar.py:155 | in a month from February to December, a Saturday on days 1..6 is the day before the month's first Sunday |
| Calendar.MonthEndSaturday | generate_calendar.py:155 | a Saturday that ends a month from January to November is followed by a month that begins on a Sunday |
| Calendar.IsNthWeekday | generate_calendar.py:80-93 | the n-th `weekday` of a month: that weekday of that month, on a day from 7(n−1)+1 to 7n |
| Calendar.IsLastWeekday | generate_calendar.py:94-99 | the last `weekday` of a month: that weekday of that month, among its last seven days |
| Calendar.IsConferenceDay | generate_calendar.py:153-158 | the first Sunday of a month, or the Saturday before it: days 1..6 of the month, or the last day of the month before when the month begins on a Sunday |
| Calendar.IsEasterOffset | generate_calendar.py:130-136 | the day k days after Easter Sunday of the date's own year, by day number |
| Calendar.ConferenceExactly | generate_calendar.py:155-158 | `d == first_sunday - 1 day or d == first_sunday` holds exactly on the first Sunday of the month or the Saturday before it |
| Holidays.Name | generate_calendar.py:79-172 | the string the resolver appends for each of the 23 observances, character for character |
| Holidays.TableEntries | generate_calendar.py:78-172 | the rule table `Table`, entry by entry: the 24 rules in source order, each with its observance and the calendar band it selects (fixed month/day, n-th weekday, last Monday of May, Easter offset, conference weekend) |
| Holidays.Fires | generate_calendar.py:78-172 | whether a rule selects a date: each rule kind mapped to its calendar band |
| Holidays.Collect | generate_calendar.py:75-174 | the names of the first n rules that fire, in rule order; there are at most n of them (membership and order are the lemmas CollectMembership, CollectPrefix and SourceOrder) |
| Holidays.Observances | generate_calendar.py:75-174 | the specification of the resolver: the names of all rules that select the date, in table order |
| Holidays.CollectNext | generate_calendar.py:78-79 | one more rule extends the list by the rule's name exactly when the rule fires |
| Holidays.NthWeekdayMatches | generate_calendar.py:80-93 | the inline n-th weekday test (MLK, Presidents', Labor, Columbus, Thanksgiving, Mother's and Father's Day) is true exactly on the rule's 7-day weekday band |
| Holidays.LastMondayOfMayMatches | generate_calendar.py:94-99 | the inline Memorial Day test is true exactly on a Monday among the last seven days of May |
| Holidays.ConferenceMatches | generate_calendar.py:153-158 | the inline General Conference test is true exactly on the first Sunday of the month or the Saturday before it |
| Holidays.AddJanuaryFebruaryHolidays | generate_calendar.py:78-93 | the New Year's, MLK and Presidents' Day steps extend the list exactly as the first three rules prescribe |
| Holidays.AddMemorialAndIndependenceDay | generate_calendar.py:94-101 | the Memorial Day and Independence Day steps extend the list as the next two rules prescribe |
| Holidays.AddSeptemberToNovemberHolidays | generate_calendar.py:102-116 | the Labor, Columbus and Veterans Day steps extend the list as their rules prescribe |
| Holidays.AddThanksgivingChristmasAndChavez | generate_calendar.py:117-127 | the Thanksgiving, Christmas and Cesar Chavez Day steps extend the list as their rules prescribe |
| Holidays.AddEasterCycle | generate_calendar.py:130-136 | the Good Friday, Easter and Pentecost steps, with dates computed from the computus, extend the list as their rules prescribe |
| Holidays.AddMothersAndFathersDay | generate_calendar.py:137-150 | the Mother's Day and Father's Day steps extend the list as their rules prescribe |
| Holidays.AddChurchHolidays | generate_calendar.py:152-160 | the two General Conference steps and Pioneer Day extend the list as their rules prescribe |
| Holidays.AddChurchHistoryEvents | generate_calendar.py:162-172 | the five history-event steps extend the list as their rules prescribe |
| Holidays.GetHolidayName | generate_calendar.py:74-174 | `get_holiday_name` returns exactly the names of the firing rules, in source order |
| HolidayProperties.CollectMembership | generate_calendar.py:75-174 | a name is in the list exactly when some rule carrying it fires |
| HolidayProperties.CollectPrefix | generate_calendar.py:75-174 | the list built by the first i rules is a prefix of the list built by later ones, so names are only ever appended |
| HolidayProperties.FiredNameAt | generate_calendar.py:75-174 | a firing rule's name sits right after the names of the earlier firing rules, so every firing rule keeps its own entry and duplicates are kept |
| HolidayProperties.SourceOrder | generate_calendar.py:75-174 | a rule that fires earlier in the source gets an earlier position in the result |
| HolidayProperties.CollectSkip | generate_calendar.py:75-174 | rules that do not fire leave the list unchanged |
| HolidayProperties.NameInjective | generate_calendar.py:79-172 | distinct observances have distinct names |
| HolidayProperties.SoleRuleIff | generate_calendar.py:75-174 | an observance with a single rule is listed exactly when that rule fires |
| HolidayProperties.PairOfRulesIff | generate_calendar.py:155-158 | an observance with two rules is listed exactly when either fires |
| HolidayProperties.TableRuleIff | generate_calendar.py:75-174 | for the resolver's rules, an observance with a single rule is listed exactly when that rule fires |
| HolidayProperties.MartinLutherKingDayIff | generate_calendar.py:80-86 | "Martin Luther King Jr. Day" is listed exactly on a Monday from 15 to 21 January |
| HolidayProperties.PresidentsDayIff | generate_calendar.py:87-93 | "Presidents' Day" is listed exactly on a Monday from 15 to 21 February |
| HolidayProperties.MemorialDayIff | generate_calendar.py:94-99 | "Memorial Day" is listed exactly on a Monday from 25 to 31 May |
| HolidayProperties.IndependenceDayIff | generate_calendar.py:100-101 | "Independence Day" is listed exactly on 4 July, in every year |
| HolidayProperties.LaborDayIff | generate_calendar.py:102-107 | "Labor Day" is listed exactly on a Monday from 1 to 7 September |
| HolidayProperties.ColumbusDayIff | generate_calendar.py:108-114 | "Columbus Day" is listed exactly on a Monday from 8 to 14 October |
| HolidayProperties.ThanksgivingIff | generate_calendar.py:117-123 | "Thanksgiving" is listed exactly on a Thursday from 22 to 28 November, and on no other November Thursday |
| HolidayProperties.GoodFridayIff | generate_calendar.py:130-132 | "Good Friday" is listed exactly when the day number is Easter's minus 2 |
| HolidayProperties.EasterIff | generate_calendar.py:130-134 | "Easter" is listed exactly when the day number is Easter's |
| HolidayProperties.PentecostIff | generate_calendar.py:130-136 | "Pentecost" is listed exactly when the day number is Easter's plus 49 |
| HolidayProperties.EasterCycleDates | generate_calendar.py:130-136 | the three feasts are listed exactly on `easter - 2 days`, `easter` and `easter + 49 days`, which are a Friday, a Sunday and a Sunday |
| HolidayProperties.MothersDayIff | generate_calendar.py:137-143 | "Mother's Day" is listed exactly on a Sunday from 8 to 14 May |
| HolidayProperties.FathersDayIff | generate_calendar.py:144-150 | "Father's Day" is listed exactly on a Sunday from 15 to 21 June |
| HolidayProperties.GeneralConferenceIff | generate_calendar.py:153-158 | "General Conference" is listed exactly on the first Sunday of April or October or the Saturday before it, which is 31 March or 30 September when the month begins on a Sunday |
| HolidayProperties.GeneralConferenceDates | generate_calendar.py:153-158 | the same days in the resolver's terms: `first_sunday(y, 4)`, `first_sunday(y, 10)` or the day before either |
| HolidayProperties.Conference2025 | generate_calendar.py:153-158 | in 2025 "General Conference" is listed on 5 and 6 April but not on 7 April |
| HolidayProperties.ChavezAndConference2018 | generate_calendar.py:126-127 | 31 March 2018 yields exactly ["Cesar Chavez Day", "General Conference"], in that order |
| HolidayProperties.FederalHolidays2018 | generate_calendar.py:77-127 | of the federal rules only Cesar Chavez Day fires on 31 March 2018 |
| HolidayProperties.NoJanuaryToJulyHoliday2018 | generate_calendar.py:78-101 | none of the first five federal rules fires on 31 March 2018 |
| HolidayProperties.LeapDay2024 | generate_calendar.py:75-174 | 29 February 2024 yields the empty list |

## Left out

- Command-line parsing and the fallback to the current year from the system
  clock (`generate_calendar.py:177-184`) are I/O and depend on the clock.
- Building the Word document with python-docx (`generate_calendar.py:186-322`)
  is left out. This covers headings, tables, borders, fonts, colours, saving
  and printing, all of it foreign-library I/O.
- The week grid from `calendar.monthcalendar` and the weekend-column
  highlighting are render-only layout from the standard library.
- The `ImportError` handler (`generate_calendar.py:30-41`) is I/O that ends the
  process.
- `datetime`'s year range is only bounded below: years are 1 or later. The
  upper bound MAXYEAR and the `OverflowError` that Python raises past year 9999
  are not modelled.
- `timedelta` is modelled only by the number of days it carries.
- Adding days is computed one day at a time, not by Python's conversion
  through the day number. The result is the same date, because both move the
  day number by k and the day number is a bijection.
- Names are strings, compared as sequences of characters. Encoding does not
  arise because every name is plain text written in the source.
- `GetHolidayName` puts the inline computations of the source in three matcher
  methods and its appends in groups of two to five rules, one method per group.
  The order of the steps, their conditions and the dates they compute are the
  source's.
