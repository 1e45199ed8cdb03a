/** The build date (build.rs): a Unix timestamp as a proleptic Gregorian date, for every integer. */
module CivilDate {

  datatype Date = Date(year: int, month: int, day: int)

  const SECONDS_A_DAY: int := 86400

  // ------------------------------------------------------------------ the algorithm

  /** `utc_date`, up to its formatting. */
  function UtcDate(epochSeconds: int): Date {
    CivilFromDays(epochSeconds / SECONDS_A_DAY)
  }

  /** Eras of 400 years begin on the first of March of a year divisible by 400. */
  function CivilFromDays(days: int): Date {
    var z := days + 719468;
    var era, doe := z / 146097, z % 146097;
    var yoe := YearOfEra(doe);
    var doy := doe - (365 * yoe + yoe / 4 - yoe / 100);
    var mp := (5 * doy + 2) / 153;
    var day := doy - (153 * mp + 2) / 5 + 1;
    var month := if mp < 10 then mp + 3 else mp - 9;
    Date(if month <= 2 then yoe + era * 400 + 1 else yoe + era * 400, month, day)
  }

  function YearOfEra(doe: int): int {
    (doe - doe / 1460 + doe / 36524 - doe / 146096) / 365
  }

  // ------------------------------------------------------------------ the calendar

  predicate Leap(year: int) {
    year % 4 == 0 && (year % 100 != 0 || year % 400 == 0)
  }

  function DaysInMonth(year: int, month: int): int {
    if month == 2 then if Leap(year) then 29 else 28
    else if month == 4 || month == 6 || month == 9 || month == 11 then 30
    else 31
  }

  predicate Valid(date: Date) {
    1 <= date.month <= 12 && 1 <= date.day <= DaysInMonth(date.year, date.month)
  }

  /** The day after. */
  function Next(date: Date): Date {
    if date.day < DaysInMonth(date.year, date.month) then date.(day := date.day + 1)
    else if date.month < 12 then Date(date.year, date.month + 1, 1)
    else Date(date.year + 1, 1, 1)
  }

  /** Days from the first of January of year 0 to that of `year`. */
  function DaysBeforeYear(year: int): int {
    365 * year + (year + 3) / 4 - (year + 99) / 100 + (year + 399) / 400
  }

  function DaysBeforeMonth(year: int, month: int): int {
    if month <= 1 then 0 else DaysBeforeMonth(year, month - 1) + DaysInMonth(year, month - 1)
  }

  /** Days since 1970-01-01. */
  function DaysOf(date: Date): int {
    DaysBeforeYear(date.year) + DaysBeforeMonth(date.year, date.month) + date.day - 1 - 719528
  }

  lemma YearLength(year: int)
    ensures DaysBeforeYear(year + 1) == DaysBeforeYear(year) + if Leap(year) then 366 else 365
  {
    assert (year + 4) / 4 == (year + 3) / 4 + if year % 4 == 0 then 1 else 0;
    assert (year + 100) / 100 == (year + 99) / 100 + if year % 100 == 0 then 1 else 0;
    assert (year + 400) / 400 == (year + 399) / 400 + if year % 400 == 0 then 1 else 0;
    Divides(year);
  }

  lemma Remainder4(a: int, r: int)
    requires 0 <= r < 4
    ensures (4 * a + r) % 4 == r
  {
  }

  lemma Remainder100(a: int, r: int)
    requires 0 <= r < 100
    ensures (100 * a + r) % 100 == r
  {
  }

  lemma Remainder400(a: int, r: int)
    requires 0 <= r < 400
    ensures (400 * a + r) % 400 == r
  {
  }

  lemma Divides(year: int)
    ensures year % 400 == 0 ==> year % 100 == 0
    ensures year % 100 == 0 ==> year % 4 == 0
  {
    var by400, by100 := year / 400, year / 100;
    if year % 400 == 0 {
      assert year == 100 * (4 * by400) + 0;
      Remainder100(4 * by400, 0);
    }
    if year % 100 == 0 {
      assert year == 4 * (25 * by100) + 0;
      Remainder4(25 * by100, 0);
    }
  }

  lemma MonthTable(year: int)
    ensures var leap := if Leap(year) then 1 else 0;
            && DaysBeforeMonth(year, 1) == 0 && DaysBeforeMonth(year, 2) == 31
            && DaysBeforeMonth(year, 3) == 59 + leap && DaysBeforeMonth(year, 4) == 90 + leap
            && DaysBeforeMonth(year, 5) == 120 + leap && DaysBeforeMonth(year, 6) == 151 + leap
            && DaysBeforeMonth(year, 7) == 181 + leap && DaysBeforeMonth(year, 8) == 212 + leap
            && DaysBeforeMonth(year, 9) == 243 + leap && DaysBeforeMonth(year, 10) == 273 + leap
            && DaysBeforeMonth(year, 11) == 304 + leap && DaysBeforeMonth(year, 12) == 334 + leap
  {
    hide Leap;
    assert DaysBeforeMonth(year, 1) == 0;
    assert DaysBeforeMonth(year, 2) == 31;
    assert DaysBeforeMonth(year, 3) == DaysBeforeMonth(year, 2) + DaysInMonth(year, 2);
    assert DaysBeforeMonth(year, 4) == DaysBeforeMonth(year, 3) + 31;
    assert DaysBeforeMonth(year, 5) == DaysBeforeMonth(year, 4) + 30;
    assert DaysBeforeMonth(year, 6) == DaysBeforeMonth(year, 5) + 31;
    assert DaysBeforeMonth(year, 7) == DaysBeforeMonth(year, 6) + 30;
    assert DaysBeforeMonth(year, 8) == DaysBeforeMonth(year, 7) + 31;
    assert DaysBeforeMonth(year, 9) == DaysBeforeMonth(year, 8) + 31;
    assert DaysBeforeMonth(year, 10) == DaysBeforeMonth(year, 9) + 30;
    assert DaysBeforeMonth(year, 11) == DaysBeforeMonth(year, 10) + 31;
    assert DaysBeforeMonth(year, 12) == DaysBeforeMonth(year, 11) + 30;
  }

  // ------------------------------------------------------------------ the year of the era

  /** Centuries, four-year cycles and years, the last of each one day longer. */
  function Century(doe: int): int { if doe / 36524 < 3 then doe / 36524 else 3 }

  lemma CycleParts(doe: int) returns (c: int, q: int, k: int, doy: int)
    requires 0 <= doe < 146097
    ensures 0 <= c <= 3 && 0 <= q <= 24 && 0 <= k <= 3 && 0 <= doy <= 365
    ensures doe == 36524 * c + 1461 * q + 365 * k + doy
    ensures doy == 365 ==> k == 3 && (q == 24 ==> c == 3)
    ensures doe / 36524 - doe / 146096 == c
    ensures k < 3 ==> doy < 365
  {
    c := Century(doe);
    var r := doe - 36524 * c;
    assert 0 <= r <= 36524 && (r == 36524 ==> c == 3);
    q := r / 1461;
    var s := r - 1461 * q;
    assert 0 <= s <= 1460 && q <= 24;
    k := if s / 365 < 3 then s / 365 else 3;
    doy := s - 365 * k;
  }

  /** The year of the era, and the day of that year. */
  lemma YearOfEraIs(doe: int, c: int, q: int, k: int, doy: int)
    requires 0 <= c <= 3 && 0 <= q <= 24 && 0 <= k <= 3 && 0 <= doy <= 365 && 0 <= doe < 146097
    requires doe == 36524 * c + 1461 * q + 365 * k + doy && (doy == 365 ==> k == 3)
    requires doe / 36524 - doe / 146096 == c
    ensures var yoe := YearOfEra(doe);
            yoe == 100 * c + 4 * q + k && yoe / 4 == 25 * c + q && yoe / 100 == c
            && doe - (365 * yoe + yoe / 4 - yoe / 100) == doy
  {
    var yoe := 100 * c + 4 * q + k;
    var e := 24 * c + q + 365 * k + doy;
    assert doe == 1460 * (25 * c + q) + e && 0 <= e < 2920;
    var extra := if e >= 1460 then 1 else 0;
    assert doe / 1460 == 25 * c + q + extra;
    var x := doe - doe / 1460 + doe / 36524 - doe / 146096;
    assert x == 365 * yoe + doy - extra;
    assert 0 <= doy - extra < 365;
    assert x / 365 == yoe;
  }

  lemma LeapOfEra(c: int, q: int, k: int, era: int)
    requires 0 <= c <= 3 && 0 <= q <= 24 && 0 <= k <= 3
    ensures Leap(100 * c + 4 * q + k + era * 400 + 1) <==> k == 3 && (q == 24 ==> c == 3)
  {
    var year := 100 * c + 4 * q + k + era * 400 + 1;
    if k < 3 {
      Remainder4(25 * c + q + 100 * era, k + 1);
      assert year == 4 * (25 * c + q + 100 * era) + (k + 1);
    } else {
      Remainder4(25 * c + q + 100 * era + 1, 0);
      assert year == 4 * (25 * c + q + 100 * era + 1);
      if q < 24 {
        Remainder100(c + 4 * era, 4 * (q + 1));
        assert year == 100 * (c + 4 * era) + 4 * (q + 1);
      } else if c < 3 {
        Remainder100(c + 1 + 4 * era, 0);
        Remainder400(era, 100 * (c + 1));
        assert year == 400 * era + 100 * (c + 1);
      } else {
        Remainder400(era + 1, 0);
        assert year == 400 * (era + 1);
      }
    }
  }

  /** Days before the first of March of year `y` of an era. */
  lemma DaysBeforeMarch(c: int, q: int, k: int, era: int)
    requires 0 <= c <= 3 && 0 <= q <= 24 && 0 <= k <= 3
    ensures var year := 100 * c + 4 * q + k + era * 400;
            DaysBeforeYear(year + 1) == 146097 * era + 36524 * c + 1461 * q + 365 * k + 366
  {
    var year := 100 * c + 4 * q + k + era * 400;
    assert (year + 4) / 4 == 25 * c + q + 100 * era + 1;
    assert (year + 100) / 100 == c + 4 * era + 1;
    assert (year + 400) / 400 == era + 1;
  }

  // ------------------------------------------------------------------ the laws

  /** Month and day by the day of a year that begins in March. */
  lemma MonthOfDay(doy: int)
    requires 0 <= doy <= 365
    ensures var mp := (5 * doy + 2) / 153;
            var start := (153 * mp + 2) / 5;
            && 0 <= mp <= 11 && start <= doy
            && start == [0, 31, 61, 92, 122, 153, 184, 214, 245, 275, 306, 337][mp]
            && doy < if mp == 11 then 366 else [31, 61, 92, 122, 153, 184, 214, 245, 275, 306, 337][mp]
  {
    var mp := (5 * doy + 2) / 153;
    assert 153 * mp <= 5 * doy + 2 < 153 * mp + 153;
    assert mp in [0, 1, 2, 3, 4, 5, 6, 7, 8, 9, 10, 11];
  }

  lemma DateOf(days: int) returns (c: int, q: int, k: int, doy: int, era: int)
    ensures 0 <= c <= 3 && 0 <= q <= 24 && 0 <= k <= 3 && 0 <= doy <= 365
              && (doy == 365 ==> k == 3 && (q == 24 ==> c == 3))
    ensures days + 719468 == 146097 * era + 36524 * c + 1461 * q + 365 * k + doy
    ensures var mp := (5 * doy + 2) / 153;
            var year := 100 * c + 4 * q + k + era * 400;
            CivilFromDays(days) == Date(if mp < 10 then year else year + 1, if mp < 10 then mp + 3 else mp - 9, doy - (153 * mp + 2) / 5 + 1)
  {
    var z := days + 719468;
    era := z / 146097;
    var doe := z % 146097;
    assert z == 146097 * era + doe;
    c, q, k, doy := CycleParts(doe);
    YearOfEraIs(doe, c, q, k, doy);
    Assembles(days, doe, era, 100 * c + 4 * q + k, doy);
  }

  lemma Assembles(days: int, doe: int, era: int, yoe: int, doy: int)
    requires era == (days + 719468) / 146097 && doe == (days + 719468) % 146097
    requires YearOfEra(doe) == yoe && doe - (365 * yoe + yoe / 4 - yoe / 100) == doy && 0 <= doy <= 365
    ensures var mp := (5 * doy + 2) / 153;
            var year := yoe + era * 400;
            CivilFromDays(days) == Date(if mp < 10 then year else year + 1, if mp < 10 then mp + 3 else mp - 9, doy - (153 * mp + 2) / 5 + 1)
  {
    hide YearOfEra;
    var mp := (5 * doy + 2) / 153;
    MonthOfDay(doy);
    var month := if mp < 10 then mp + 3 else mp - 9;
    assert month <= 2 <==> mp >= 10;
    assert CivilFromDays(days) == Date(if month <= 2 then yoe + era * 400 + 1 else yoe + era * 400, month, doy - (153 * mp + 2) / 5 + 1);
  }

  /** Every day count is a valid date. */
  lemma {:induction false} DateIsValid(days: int)
    ensures Valid(CivilFromDays(days))
  {
    hide CivilFromDays, Leap;
    var c, q, k, doy, era := DateOf(days);
    MonthOfDay(doy);
    LeapOfEra(c, q, k, era);
  }

  /** Counting back gives the day count again. */
  lemma {:induction false} CountsBack(days: int)
    ensures DaysOf(CivilFromDays(days)) == days
  {
    hide CivilFromDays, Leap, DaysBeforeYear, DaysBeforeMonth;
    var c, q, k, doy, era := DateOf(days);
    MonthOfDay(doy);
    var year := 100 * c + 4 * q + k + era * 400;
    DaysBeforeMarch(c, q, k, era);
    YearLength(year);
    MonthTable(year);
    MonthTable(year + 1);
  }

  lemma NextIsValid(date: Date)
    requires Valid(date)
    ensures Valid(Next(date)) && DaysOf(Next(date)) == DaysOf(date) + 1
  {
    hide Leap, DaysBeforeYear;
    if date.day == DaysInMonth(date.year, date.month) {
      if date.month == 12 {
        hide DaysBeforeMonth;
        YearLength(date.year);
        MonthTable(date.year);
        MonthTable(date.year + 1);
      }
    }
  }

  lemma {:induction false} YearsApart(a: int, b: int)
    requires a < b
    ensures DaysBeforeYear(a) + (if Leap(a) then 366 else 365) <= DaysBeforeYear(b)
    decreases b - a
  {
    hide Leap, DaysBeforeYear;
    YearLength(b - 1);
    if a < b - 1 {
      YearsApart(a, b - 1);
    }
  }

  lemma {:induction false} MonthsApart(year: int, a: int, b: int)
    requires 1 <= a < b <= 12
    ensures DaysBeforeMonth(year, a) + DaysInMonth(year, a) <= DaysBeforeMonth(year, b)
    decreases b - a
  {
    hide Leap;
    if a < b - 1 {
      MonthsApart(year, a, b - 1);
    }
  }

  lemma WithinYear(date: Date)
    requires Valid(date)
    ensures 0 <= DaysBeforeMonth(date.year, date.month) + date.day - 1 < if Leap(date.year) then 366 else 365
  {
    hide Leap, DaysBeforeMonth;
    MonthTable(date.year);
  }

  /** No two dates have the same day count. */
  lemma {:induction false} DaysApart(a: Date, b: Date)
    requires Valid(a) && Valid(b) && DaysOf(a) == DaysOf(b)
    ensures a == b
  {
    hide Leap, DaysBeforeYear, DaysBeforeMonth;
    WithinYear(a);
    WithinYear(b);
    if a.year < b.year { YearsApart(a.year, b.year); }
    if b.year < a.year { YearsApart(b.year, a.year); }
    if a.year == b.year {
      if a.month < b.month { MonthsApart(a.year, a.month, b.month); }
      if b.month < a.month { MonthsApart(a.year, b.month, a.month); }
    }
  }

  /** Every valid date is the date of its day count. */
  lemma {:induction false} EveryDateIsReached(date: Date)
    requires Valid(date)
    ensures CivilFromDays(DaysOf(date)) == date
  {
    hide CivilFromDays, DaysOf, Valid;
    DateIsValid(DaysOf(date));
    CountsBack(DaysOf(date));
    DaysApart(CivilFromDays(DaysOf(date)), date);
  }

  /** Day 0 is 1970-01-01, and consecutive days are consecutive dates, for ever in both
      directions: together, what a date is. */
  lemma {:induction false} ConsecutiveDays(days: int)
    ensures CivilFromDays(days + 1) == Next(CivilFromDays(days))
    ensures CivilFromDays(0) == Date(1970, 1, 1)
  {
    hide CivilFromDays, DaysOf, Valid, Next;
    DateIsValid(days);
    CountsBack(days);
    NextIsValid(CivilFromDays(days));
    EveryDateIsReached(Next(CivilFromDays(days)));
    Epoch();
  }

  lemma Epoch()
    ensures CivilFromDays(0) == Date(1970, 1, 1)
  {
    assert 719468 / 146097 == 4 && 719468 % 146097 == 135080;
    assert YearOfEra(135080) == 369;
  }

  /** A second belongs to the day that began at or before it, before 1970 too. */
  lemma {:induction false} SecondsOfADay(days: int, second: int)
    requires 0 <= second < SECONDS_A_DAY
    ensures UtcDate(days * SECONDS_A_DAY + second) == CivilFromDays(days)
  {
    hide CivilFromDays;
    assert (days * SECONDS_A_DAY + second) / SECONDS_A_DAY == days;
  }
}
