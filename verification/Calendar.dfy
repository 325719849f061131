/** Calendar arithmetic of the dashboard: the day-number to civil-date conversion
    behind every rendered UTC timestamp, proved against a calendar defined by
    counting days one at a time. */
module Calendar {

  datatype Date = Date(year: int, month: int, day: int)

  // ---------------------------------------------------------------- the calendar

  /** The Gregorian leap-year rule. */
  predicate IsLeap(y: int) {
    y % 4 == 0 && (y % 100 != 0 || y % 400 == 0)
  }

  function DaysInMonth(y: int, m: int): int {
    if m == 2 then (if IsLeap(y) then 29 else 28)
    else if m == 4 || m == 6 || m == 9 || m == 11 then 30
    else 31
  }

  predicate ValidDate(c: Date) {
    1 <= c.month <= 12 && 1 <= c.day <= DaysInMonth(c.year, c.month)
  }

  /** The calendar successor: the next day, month by month, year by year. */
  function NextDay(c: Date): Date {
    if c.day < DaysInMonth(c.year, c.month) then c.(day := c.day + 1)
    else if c.month < 12 then Date(c.year, c.month + 1, 1)
    else Date(c.year + 1, 1, 1)
  }

  /** Day number of a civil date, in years that start on 1 March: whole years, then
      whole months, then days. */
  function DaysFromCivil(c: Date): int
  {
    var y := if c.month <= 2 then c.year - 1 else c.year;
    var mp := if c.month <= 2 then c.month + 9 else c.month - 3;
    DaysBeforeYear(y) + DaysBeforeMonth(mp) + c.day - 1 - 719468
  }

  /** Days before 1 March of year `y`, counted from 1 March of year 0. */
  function DaysBeforeYear(y: int): int {
    365 * y + y / 4 - y / 100 + y / 400
  }

  /** Days before month `mp` of a year that starts on 1 March. */
  function DaysBeforeMonth(mp: int): int {
    (153 * mp + 2) / 5
  }

  // ---------------------------------------------------------------- the program

  /** Rust's `/` on i64: truncation toward zero. */
  function TruncDiv(a: int, b: int): int
    requires b > 0
  {
    if a >= 0 then a / b else -((-a) / b)
  }

  function YearOfEra(doe: int): int {
    (doe - doe / 1460 + doe / 36524 - doe / 146096) / 365
  }

  function CivilFromDays(days: int): Date {
    var z := days + 719468;
    var era := TruncDiv(if z >= 0 then z else z - 146096, 146097);
    CivilInEra(era, z - era * 146097)
  }

  /** The date of day `doe` of a 400-year era. */
  function CivilInEra(era: int, doe: int): Date {
    var yoe := YearOfEra(doe);
    DateInYear(yoe + era * 400, doe - (365 * yoe + yoe / 4 - yoe / 100))
  }

  /** The date of day `doy` of the year that starts on 1 March of `y`. */
  function DateInYear(y: int, doy: int): Date {
    var mp := (5 * doy + 2) / 153;
    var d := doy - (153 * mp + 2) / 5 + 1;
    var m := if mp < 10 then mp + 3 else mp - 9;
    Date(y + (if m <= 2 then 1 else 0), m, d)
  }

  // ---------------------------------------------------------------- eras and years

  lemma EraIsFloor(z: int)
    ensures TruncDiv(if z >= 0 then z else z - 146096, 146097) == z / 146097
  {
  }

  /** First day of year `y` within its era. */
  function YearStart(y: int): int { 365 * y + y / 4 - y / 100 }

  /** Length of the March-based year `y` of an era: it ends with the February of `y + 1`. */
  function YearLength(y: int): int { if IsLeap(y + 1) then 366 else 365 }

  /** A day of an era, written as century, four-year cycle, year and day of year. */
  lemma YearOfDecomposed(c: int, q: int, r: int, doy: int)
    requires 0 <= c <= 3 && 0 <= q <= 24 && 0 <= r <= 3 && 0 <= doy <= 365
    requires doy == 365 ==> r == 3 && (q < 24 || c == 3)
    ensures YearOfEra(36524 * c + 1461 * q + 365 * r + doy) == 100 * c + 4 * q + r
  {
    var doe := 36524 * c + 1461 * q + 365 * r + doy;
    var e := doe / 1460 - 25 * c - q;
    assert doe == 1460 * (25 * c + q) + (24 * c + q + 365 * r + doy);
    assert 0 <= e <= 1;
    if doe == 146096 {
    } else {
      assert doe / 36524 == c;
      assert doe / 146096 == 0;
      assert doe - doe / 1460 + doe / 36524 == 365 * (100 * c + 4 * q + r) + (doy - e);
      assert 0 <= doy - e < 365;
    }
  }

  lemma YearOfEraCorrect(y: int, doy: int)
    requires 0 <= y < 400 && 0 <= doy < YearLength(y)
    ensures 0 <= YearStart(y) + doy < 146097
    ensures YearOfEra(YearStart(y) + doy) == y
  {
    var c, q, r := y / 100, y % 100 / 4, y % 4;
    assert y == 100 * c + 4 * q + r;
    YearOfDecomposed(c, q, r, doy);
  }

  lemma DecomposeEra(doe: int) returns (y: int, doy: int)
    requires 0 <= doe < 146097
    ensures 0 <= y < 400 && 0 <= doy < YearLength(y) && doe == YearStart(y) + doy
  {
    var c := if doe == 146096 then 3 else doe / 36524;
    var inCentury := doe - 36524 * c;
    var q := inCentury / 1461;
    var inCycle := inCentury - 1461 * q;
    var r := if inCycle == 1460 then 3 else inCycle / 365;
    y, doy := 100 * c + 4 * q + r, inCycle - 365 * r;
    assert 0 <= c <= 3 && 0 <= q <= 24 && 0 <= r <= 3;
    assert y / 4 == 25 * c + q && y / 100 == c;
    if doy == 365 {
      assert r == 3 && (q < 24 || c == 3);
    }
  }

  lemma EraSplit(era: int, yoe: int)
    requires 0 <= yoe < 400
    ensures DaysBeforeYear(yoe + era * 400) == 146097 * era + YearStart(yoe)
    ensures IsLeap(yoe + era * 400 + 1) == IsLeap(yoe + 1)
  {
    ShiftBy400(yoe, era);
    ShiftBy400(yoe + 1, era);
  }

  /** Whole eras pass through the divisions of the leap-year rule. */
  lemma ShiftBy400(a: int, era: int)
    ensures (a + era * 400) / 4 == a / 4 + 100 * era && (a + era * 400) % 4 == a % 4
    ensures (a + era * 400) / 100 == a / 100 + 4 * era && (a + era * 400) % 100 == a % 100
    ensures (a + era * 400) / 400 == a / 400 + era && (a + era * 400) % 400 == a % 400
  {
    ShiftQuotient(a, 4, 100 * era);
    ShiftQuotient(a, 100, 4 * era);
    ShiftQuotient(a, 400, era);
  }

  lemma ShiftQuotient(a: int, b: int, k: int)
    requires b > 0
    ensures (a + b * k) / b == a / b + k && (a + b * k) % b == a % b
  {
    var q, r := (a + b * k) / b, (a + b * k) % b;
    var d := q - k - a / b;
    assert b * d == a % b - r;
    assert d >= 1 ==> b * d >= b;
    assert d <= -1 ==> b * d <= -b;
  }

  // ---------------------------------------------------------------- months

  /** The 153-day month arithmetic inverts itself on every day of every month. */
  lemma MonthOfDay(mp: int, d: int)
    requires 0 <= mp < 12
    requires 1 <= d <= DaysBeforeMonth(mp + 1) - DaysBeforeMonth(mp)
    ensures (5 * (DaysBeforeMonth(mp) + d - 1) + 2) / 153 == mp
  {
  }

  /** The lengths the arithmetic assumes are the calendar's, up to the last month. */
  lemma MonthLengths(y: int, mp: int)
    requires 0 <= mp < 12
    ensures mp < 11 ==>
      DaysInMonth(y, if mp < 10 then mp + 3 else mp - 9) == DaysBeforeMonth(mp + 1) - DaysBeforeMonth(mp)
    ensures mp == 11 ==> DaysInMonth(y, 2) == (if IsLeap(y) then 366 else 365) - DaysBeforeMonth(11)
  {
  }

  // ---------------------------------------------------------------- main results

  /** The conversion finds the era, the year of the era and the day of the year. */
  lemma CivilOfYearDay(z: int, era: int, yoe: int, doy: int)
    requires 0 <= yoe < 400 && 0 <= doy < YearLength(yoe)
    requires z + 719468 == 146097 * era + YearStart(yoe) + doy
    ensures CivilFromDays(z) == DateInYear(yoe + era * 400, doy)
  {
    YearOfEraCorrect(yoe, doy);
    hide *;
    EraOfDay(z, era, YearStart(yoe) + doy);
    CivilInEraAt(era, YearStart(yoe) + doy, yoe, doy);
  }

  lemma CivilInEraAt(era: int, doe: int, yoe: int, doy: int)
    requires YearOfEra(doe) == yoe && doe == YearStart(yoe) + doy
    ensures CivilInEra(era, doe) == DateInYear(yoe + era * 400, doy)
  {
    hide YearOfEra, DateInYear;
  }

  lemma EraOfDay(z: int, era: int, doe: int)
    requires 0 <= doe < 146097 && z + 719468 == 146097 * era + doe
    ensures CivilFromDays(z) == CivilInEra(era, doe)
  {
    EraIsFloor(z + 719468);
    assert (z + 719468) / 146097 == era;
  }

  lemma DateInYearOfParts(y: int, mp: int, d: int)
    requires 0 <= mp < 12 && d >= 1
    requires mp < 11 ==> d <= DaysBeforeMonth(mp + 1) - DaysBeforeMonth(mp)
    requires mp == 11 ==> DaysBeforeMonth(11) + d <= 366
    ensures DateInYear(y, DaysBeforeMonth(mp) + d - 1)
         == Date(y + (if mp >= 10 then 1 else 0), if mp < 10 then mp + 3 else mp - 9, d)
  {
    MonthOfDay(mp, d);
  }

  /** A valid date, as a March-based year, a month of it and a day. */
  lemma PartsOfDate(c: Date) returns (y: int, mp: int)
    requires ValidDate(c)
    ensures 0 <= mp < 12 && c.day >= 1 && c.month == (if mp < 10 then mp + 3 else mp - 9)
    ensures c.year == y + (if mp >= 10 then 1 else 0)
    ensures mp < 11 ==> c.day <= DaysBeforeMonth(mp + 1) - DaysBeforeMonth(mp)
    ensures mp == 11 ==> DaysBeforeMonth(11) + c.day <= YearLength(y)
    ensures DaysFromCivil(c) == DaysBeforeYear(y) + DaysBeforeMonth(mp) + c.day - 1 - 719468
  {
    y := if c.month <= 2 then c.year - 1 else c.year;
    mp := if c.month <= 2 then c.month + 9 else c.month - 3;
    MonthLengths(c.year, mp);
  }

  lemma EraOfYear(y: int) returns (era: int, yoe: int)
    ensures 0 <= yoe < 400 && y == yoe + era * 400
    ensures DaysBeforeYear(y) == 146097 * era + YearStart(yoe)
    ensures YearLength(y) == YearLength(yoe) && 365 <= YearLength(y) <= 366
  {
    era, yoe := y / 400, y % 400;
    EraSplit(era, yoe);
  }

  lemma DayOfYearInRange(mp: int, d: int, len: int)
    requires 0 <= mp < 12 && d >= 1 && 365 <= len <= 366
    requires mp < 11 ==> d <= DaysBeforeMonth(mp + 1) - DaysBeforeMonth(mp)
    requires mp == 11 ==> DaysBeforeMonth(11) + d <= len
    ensures 0 <= DaysBeforeMonth(mp) + d - 1 < len
    ensures mp == 11 ==> DaysBeforeMonth(11) + d <= 366
  {
  }

  /** One direction: every civil date is the date of its day number. */
  lemma CivilOfDays(c: Date)
    requires ValidDate(c)
    ensures CivilFromDays(DaysFromCivil(c)) == c
  {
    hide *;
    var y, mp := PartsOfDate(c);
    var era, yoe := EraOfYear(y);
    DayOfYearInRange(mp, c.day, YearLength(yoe));
    CivilOfYearDay(DaysFromCivil(c), era, yoe, DaysBeforeMonth(mp) + c.day - 1);
    DateInYearOfParts(y, mp, c.day);
  }

  /** The conversion is total: every integer day number, negative ones included,
      gives a valid date, and the date determines the day number. */
  lemma DaysOfCivil(z: int)
    ensures ValidDate(CivilFromDays(z))
    ensures DaysFromCivil(CivilFromDays(z)) == z
  {
    var era := (z + 719468) / 146097;
    var yoe, doy := DecomposeEra((z + 719468) % 146097);
    EraSplit(era, yoe);
    var c := FindDate(yoe + era * 400, doy);
    CivilOfDays(c);
    hide *;
    assert DaysFromCivil(c) == z;
  }

  /** The date of day `doy` of the March-based year `y`, found by scanning months. */
  lemma FindDate(y: int, doy: int) returns (c: Date)
    requires 0 <= doy < (if IsLeap(y + 1) then 366 else 365)
    ensures ValidDate(c) && DaysFromCivil(c) == DaysBeforeYear(y) + doy - 719468
  {
    var mp := 11;
    while doy < DaysBeforeMonth(mp)
      invariant 0 <= mp <= 11
      invariant mp == 11 || doy < DaysBeforeMonth(mp + 1)
    {
      mp := mp - 1;
    }
    var m := if mp < 10 then mp + 3 else mp - 9;
    c := Date(if m <= 2 then y + 1 else y, m, doy - DaysBeforeMonth(mp) + 1);
    MonthLengths(c.year, mp);
  }

  lemma NextDayIsNextNumber(c: Date)
    requires ValidDate(c)
    ensures ValidDate(NextDay(c)) && DaysFromCivil(NextDay(c)) == DaysFromCivil(c) + 1
  {
    var mp := if c.month <= 2 then c.month + 9 else c.month - 3;
    MonthLengths(c.year, mp);
    if c.month == 2 {
      YearsAreConsecutive(c.year);
    }
  }

  lemma YearsAreConsecutive(y: int)
    ensures DaysBeforeYear(y) == DaysBeforeYear(y - 1) + (if IsLeap(y) then 366 else 365)
  {
    QuotientStep(y);
    QuotientsNest(y);
  }

  lemma QuotientStep(y: int)
    ensures y / 4 == (y - 1) / 4 + (if y % 4 == 0 then 1 else 0)
    ensures y / 100 == (y - 1) / 100 + (if y % 100 == 0 then 1 else 0)
    ensures y / 400 == (y - 1) / 400 + (if y % 400 == 0 then 1 else 0)
  {
  }

  lemma QuotientsNest(y: int)
    ensures y % 100 == 0 ==> y % 4 == 0
    ensures y % 400 == 0 ==> y % 100 == 0
  {
  }

  /** Adding one to the day number is stepping the calendar by one day; with the epoch
      below this determines the conversion on every integer. */
  lemma SuccessorIsNextDay(z: int)
    ensures CivilFromDays(z + 1) == NextDay(CivilFromDays(z))
  {
    DaysOfCivil(z);
    NextDayIsNextNumber(CivilFromDays(z));
    CivilOfDays(NextDay(CivilFromDays(z)));
  }

  /** Day 0 is the Unix epoch, and no other function agrees with the calendar. */
  lemma {:induction false} OnlyCalendar(f: int -> Date, z: int)
    requires f(0) == Date(1970, 1, 1)
    requires forall k :: ValidDate(f(k)) && NextDay(f(k)) == f(k + 1)
    ensures f(z) == CivilFromDays(z)
    decreases if z < 0 then -z else z
  {
    if z > 0 {
      OnlyCalendar(f, z - 1);
      assert NextDay(f(z - 1)) == f(z - 1 + 1);
      SuccessorIsNextDay(z - 1);
    } else if z < 0 {
      OnlyCalendar(f, z + 1);
      BackOneDay(f(z), z);
    } else {
      EpochIsDayZero();
    }
  }

  lemma EpochIsDayZero()
    ensures CivilFromDays(0) == Date(1970, 1, 1)
  {
  }

  lemma BackOneDay(c: Date, z: int)
    requires ValidDate(c) && NextDay(c) == CivilFromDays(z + 1)
    ensures c == CivilFromDays(z)
  {
    DaysOfCivil(z);
    SuccessorIsNextDay(z);
    NextDayInjective(c, CivilFromDays(z));
  }

  lemma NextDayInjective(a: Date, b: Date)
    requires ValidDate(a) && ValidDate(b) && NextDay(a) == NextDay(b)
    ensures a == b
  {
    hide *;
    NextDayIsNextNumber(a);
    NextDayIsNextNumber(b);
    CivilOfDays(a);
    CivilOfDays(b);
  }

  // ---------------------------------------------------------------- timestamps

  /** The fields of a rendered UTC timestamp. */
  datatype Timestamp = Timestamp(date: Date, hour: int, minute: int, second: int)

  function FmtUtc(secs: int): Timestamp {
    var rem := secs % 86400;
    Timestamp(CivilFromDays(secs / 86400), rem / 3600, rem % 3600 / 60, rem % 60)
  }

  /** A rendered timestamp is in range and loses nothing: it gives back the second. */
  lemma FmtUtcExact(secs: int)
    ensures var t := FmtUtc(secs);
      && ValidDate(t.date) && 0 <= t.hour < 24 && 0 <= t.minute < 60 && 0 <= t.second < 60
      && secs == ((DaysFromCivil(t.date) * 24 + t.hour) * 60 + t.minute) * 60 + t.second
  {
    hide CivilFromDays, DaysFromCivil, ValidDate;
    DaysOfCivil(secs / 86400);
    SecondsSplit(secs % 86400);
  }

  lemma SecondsSplit(rem: int)
    requires 0 <= rem < 86400
    ensures 0 <= rem / 3600 < 24 && 0 <= rem % 3600 / 60 < 60 && 0 <= rem % 60 < 60
    ensures rem == (rem / 3600 * 60 + rem % 3600 / 60) * 60 + rem % 60
  {
  }
}
