/**
 * Dates. A `LocalDate` is an epoch-day number (day 0 is 1970-01-01), so "plus n days"
 * is addition and `isBefore` is `<`. Where the services need the calendar itself
 * (whole years between two dates, the ISO text of a date) the day number is turned
 * into a proleptic Gregorian year, month and day.
 */
module Calendar {
  import opened Common

  type Day = int

  datatype CivilDate = CivilDate(year: int, month: int, day: int)

  /**
   * Proleptic Gregorian date of an epoch-day number, by the usual era / day-of-era
   * decomposition (eras of 400 years, years starting on March 1st).
   */
  function CivilFromDays(d: Day): (c: CivilDate)
    ensures 1 <= c.month <= 12 && 1 <= c.day <= 31
  {
    var z := d + 719468;
    var era := z / 146097;
    var doe := z - era * 146097;
    EraDayBounds(z);
    var yoe := (doe - doe / 1460 + doe / 36524 - doe / 146096) / 365;
    YearOfEraBounds(doe);
    var doy := doe - (365 * yoe + yoe / 4 - yoe / 100);
    DayOfYearBounds(doe, yoe);
    var mp := (5 * doy + 2) / 153;
    MonthBounds(doy, mp);
    var dd := doy - (153 * mp + 2) / 5 + 1;
    var m := if mp < 10 then mp + 3 else mp - 9;
    var y := yoe + era * 400 + (if m <= 2 then 1 else 0);
    CivilDate(y, m, dd)
  }

  /** Day 0 is 1970-01-01, as `LocalDate.ofEpochDay`. */
  lemma CivilFromDaysEpoch()
    ensures CivilFromDays(0) == CivilDate(1970, 1, 1)
  {}

  /** The day before the epoch is 1969-12-31. */
  lemma CivilFromDaysBeforeEpoch()
    ensures CivilFromDays(-1) == CivilDate(1969, 12, 31)
  {}

  /** 2000 is a leap year (divisible by 400): February 29th exists... */
  lemma CivilFromDaysLeapDay()
    ensures CivilFromDays(11016) == CivilDate(2000, 2, 29)
  {}

  /** ...and March 1st follows it. */
  lemma CivilFromDaysAfterLeapDay()
    ensures CivilFromDays(11017) == CivilDate(2000, 3, 1)
  {}

  /** 2100 is not a leap year (divisible by 100 only): February ends on the 28th... */
  lemma CivilFromDaysCommonCenturyFebruary()
    ensures CivilFromDays(47540) == CivilDate(2100, 2, 28)
  {}

  /** ...and March 1st comes next. */
  lemma CivilFromDaysCommonCenturyMarch()
    ensures CivilFromDays(47541) == CivilDate(2100, 3, 1)
  {}

  // Range facts behind `CivilFromDays`, one division at a time.

  lemma EraDayBounds(z: int)
    ensures 0 <= z - (z / 146097) * 146097 < 146097
  {}

  lemma YearOfEraBounds(doe: int)
    requires 0 <= doe < 146097
    ensures 0 <= (doe - doe / 1460 + doe / 36524 - doe / 146096) / 365 <= 399
  {}

  lemma DayOfYearBounds(doe: int, yoe: int)
    requires 0 <= doe < 146097
    requires yoe == (doe - doe / 1460 + doe / 36524 - doe / 146096) / 365
    ensures 0 <= doe - (365 * yoe + yoe / 4 - yoe / 100) <= 365
  {
    DayOfYearLinear(doe, doe / 1460, doe / 36524, doe / 146096, yoe, yoe / 4, yoe / 100);
  }

  /** `DayOfYearBounds` with every quotient named and bounded, so that only linear arithmetic remains. */
  lemma DayOfYearLinear(doe: int, a: int, b: int, c: int, yoe: int, y4: int, y100: int)
    requires 0 <= doe < 146097
    requires 1460 * a <= doe < 1460 * a + 1460
    requires 36524 * b <= doe < 36524 * b + 36524
    requires 146096 * c <= doe < 146096 * c + 146096
    requires 365 * yoe <= doe - a + b - c < 365 * yoe + 365
    requires 4 * y4 <= yoe < 4 * y4 + 4
    requires 100 * y100 <= yoe < 100 * y100 + 100
    ensures 0 <= doe - (365 * yoe + y4 - y100) <= 365
  {
    CenturyOfEra(doe, a, b, c, yoe, y100);
    FourYearsOfEra(doe, a, b, c, yoe, y4);
  }

  /** The century of the era, counted from the year of era, is the day-of-era quotient by 36524 (the era's last day aside). */
  lemma CenturyOfEra(doe: int, a: int, b: int, c: int, yoe: int, y100: int)
    requires 0 <= doe < 146097
    requires 1460 * a <= doe < 1460 * a + 1460
    requires 36524 * b <= doe < 36524 * b + 36524
    requires 146096 * c <= doe < 146096 * c + 146096
    requires 365 * yoe <= doe - a + b - c < 365 * yoe + 365
    requires 100 * y100 <= yoe < 100 * y100 + 100
    ensures y100 == b - c
  {}

  /** The four-year cycle, counted from the year of era, is the day-of-era quotient by 1460 or one less. */
  lemma FourYearsOfEra(doe: int, a: int, b: int, c: int, yoe: int, y4: int)
    requires 0 <= doe < 146097
    requires 1460 * a <= doe < 1460 * a + 1460
    requires 36524 * b <= doe < 36524 * b + 36524
    requires 146096 * c <= doe < 146096 * c + 146096
    requires 365 * yoe <= doe - a + b - c < 365 * yoe + 365
    requires 4 * y4 <= yoe < 4 * y4 + 4
    ensures y4 <= a <= y4 + 1
  {}

  lemma MonthBounds(doy: int, mp: int)
    requires 0 <= doy <= 365 && mp == (5 * doy + 2) / 153
    ensures 0 <= mp <= 11
    ensures 1 <= doy - (153 * mp + 2) / 5 + 1 <= 31
  {}

  /**
   * `Period.between(start, end).getYears()`: the month distance, pulled one month toward
   * zero when the day of month has not been reached, then truncated to whole years.
   */
  function PeriodYears(start: CivilDate, end: CivilDate): int
  {
    var totalMonths := (end.year * 12 + end.month - 1) - (start.year * 12 + start.month - 1);
    var days := end.day - start.day;
    var months :=
      if totalMonths > 0 && days < 0 then totalMonths - 1
      else if totalMonths < 0 && days > 0 then totalMonths + 1
      else totalMonths;
    JavaDiv(months, 12)
  }

  /** On the anniversary of a date the whole-year distance is the difference of years. */
  lemma PeriodYearsOnAnniversary(start: CivilDate, end: CivilDate)
    requires end.month == start.month && end.day == start.day && end.year >= start.year
    ensures PeriodYears(start, end) == end.year - start.year
  {
    var k := end.year - start.year;
    assert (end.year * 12 + end.month - 1) - (start.year * 12 + start.month - 1) == 12 * k;
    assert (12 * k) / 12 == k;
  }

  /** The day of month not reached yet in the anniversary month: one year fewer. */
  lemma PeriodYearsBeforeAnniversary(start: CivilDate, end: CivilDate)
    requires end.month == start.month && end.day < start.day && end.year > start.year
    ensures PeriodYears(start, end) == end.year - start.year - 1
  {
    var k := end.year - start.year;
    assert (end.year * 12 + end.month - 1) - (start.year * 12 + start.month - 1) == 12 * k;
    assert (12 * k - 1) / 12 == k - 1;
  }

  /** Zero-padded decimal text of `n` in `width` characters. */
  function Padded(n: nat, width: nat): (s: string)
    ensures |s| >= width
  {
    var t := NatToString(n);
    if |t| >= width then t else seq(width - |t|, _ => '0') + t
  }

  /** The year part of `LocalDate.toString`: four digits at least, '+' above 9999. */
  function YearText(y: int): string
  {
    if -1000 < y < 1000 then
      (if y < 0 then "-" + Padded(-y, 4) else Padded(y, 4))
    else if y > 9999 then "+" + IntToString(y)
    else IntToString(y)
  }

  /** `LocalDate.toString`: ISO-8601 "uuuu-MM-dd". */
  function IsoDate(d: Day): string
  {
    var c := CivilFromDays(d);
    YearText(c.year) + "-" + Padded(c.month, 2) + "-" + Padded(c.day, 2)
  }

  /** A possibly-null date as string concatenation shows it. */
  function DateOrNull(d: Option<Day>): string
  {
    match d
    case Some(day) => IsoDate(day)
    case None => "null"
  }
}
