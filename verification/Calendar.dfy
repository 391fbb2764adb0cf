/** `format_utc`: Unix seconds to a proleptic-Gregorian UTC timestamp. The arithmetic is in the
    source's own machine widths, so that every step is shown not to overflow; the reference is a
    calendar stepped one day at a time. */
module Calendar {
  import Decimal

  newtype u64 = x: int | 0 <= x < 0x1_0000_0000_0000_0000
  newtype i64 = x: int | -0x8000_0000_0000_0000 <= x < 0x8000_0000_0000_0000

  // ------------------------------------------------------------- the code

  datatype Date = Date(year: int, month: int, day: int)

  datatype Shifted = Shifted(yearOfEra: i64, dayOfYear: i64, monthPrime: i64)

  /** Year of the 400-year era, day of the March-based year and March-based month. */
  function SplitEra(dayOfEra: i64): Shifted
    requires 0 <= dayOfEra < 146_097
  {
    var yearOfEra := (dayOfEra - dayOfEra / 1460 + dayOfEra / 36_524 - dayOfEra / 146_096) / 365;
    var dayOfYear := dayOfEra - (365 * yearOfEra + yearOfEra / 4 - yearOfEra / 100);
    Shifted(yearOfEra, dayOfYear, (5 * dayOfYear + 2) / 153)
  }

  function CivilFromDays(days: i64): Date
    requires 0 <= days <= 213_503_982_334_601
  {
    var daysSinceCivil := days + 719_468;
    var eraIndex := daysSinceCivil / 146_097;
    var era := SplitEra(daysSinceCivil % 146_097);
    var yearIndex := era.yearOfEra + eraIndex * 400;
    var day := era.dayOfYear - (153 * era.monthPrime + 2) / 5 + 1;
    var month := if era.monthPrime < 10 then era.monthPrime + 3 else era.monthPrime - 9;
    var year := if month <= 2 then yearIndex + 1 else yearIndex;
    Date(year as int, month as int, day as int)
  }

  datatype Instant = Instant(date: Date, hour: int, minute: int, second: int)

  function InstantOf(secs: u64): Instant {
    var secsOfDay := secs % 86_400;
    Instant(CivilFromDays((secs / 86_400) as i64),
            (secsOfDay / 3600) as int, (secsOfDay % 3600 / 60) as int, (secsOfDay % 60) as int)
  }

  function FormatUtc(secs: u64): string {
    var t := InstantOf(secs);
    DatesAreSane(secs);
    Render(t)
  }

  function RenderDate(d: Date): string
    requires d.year >= 0 && d.month >= 0 && d.day >= 0
  {
    Decimal.Padded(d.year, 4) + "-" + Decimal.Padded(d.month, 2) + "-" + Decimal.Padded(d.day, 2)
  }

  function RenderTime(hour: nat, minute: nat, second: nat): string {
    Decimal.Padded(hour, 2) + ":" + Decimal.Padded(minute, 2) + ":" + Decimal.Padded(second, 2)
  }

  function Render(t: Instant): string
    requires ValidInstant(t) && t.date.year >= 0
  {
    RenderDate(t.date) + "T" + RenderTime(t.hour, t.minute, t.second) + "Z"
  }

  // ------------------------------------------------- the calendar, day by day

  predicate Leap(year: int) {
    year % 4 == 0 && (year % 100 != 0 || year % 400 == 0)
  }

  function MonthLength(year: int, month: int): int
    requires 1 <= month <= 12
  {
    if month == 2 then (if Leap(year) then 29 else 28)
    else if month == 4 || month == 6 || month == 9 || month == 11 then 30
    else 31
  }

  predicate ValidDate(d: Date) {
    1 <= d.month <= 12 && 1 <= d.day <= MonthLength(d.year, d.month)
  }

  predicate ValidInstant(t: Instant) {
    ValidDate(t.date) && 0 <= t.hour < 24 && 0 <= t.minute < 60 && 0 <= t.second < 60
  }

  const EPOCH := Date(1970, 1, 1)

  function NextDay(d: Date): Date
    requires ValidDate(d)
  {
    if d.day < MonthLength(d.year, d.month) then d.(day := d.day + 1)
    else if d.month < 12 then Date(d.year, d.month + 1, 1)
    else Date(d.year + 1, 1, 1)
  }

  function DaysAfterEpoch(n: nat): (d: Date)
    ensures ValidDate(d)
  {
    if n == 0 then EPOCH else NextDay(DaysAfterEpoch(n - 1))
  }

  // ------------------------------------------------------- counting the days

  /** The year that starts in March. */
  function MarchYear(d: Date): int {
    if d.month <= 2 then d.year - 1 else d.year
  }

  function MarchMonth(month: int): int {
    if month <= 2 then month + 9 else month - 3
  }

  function YearStart(y: int): int {
    365 * y + y / 4 - y / 100 + y / 400
  }

  function DayOfYear(d: Date): int {
    (153 * MarchMonth(d.month) + 2) / 5 + d.day - 1
  }

  /** `days_from_civil`: days since the epoch. */
  function DaysFromCivil(d: Date): int {
    YearStart(MarchYear(d)) + DayOfYear(d) - 719_468
  }

  lemma YearStep(y: int)
    ensures YearStart(y + 1) == YearStart(y) + 365 + (if Leap(y + 1) then 1 else 0)
  {
    FloorStep(y, 4);
    FloorStep(y, 100);
    FloorStep(y, 400);
  }

  lemma FloorStep(y: int, k: int)
    requires k == 4 || k == 100 || k == 400
    ensures (y + 1) / k == y / k + (if (y + 1) % k == 0 then 1 else 0)
  {
  }

  /** The month lengths as the closed form counts them. */
  lemma MonthEnd(year: int, month: int)
    requires 1 <= month <= 12 && month != 2
    ensures (153 * MarchMonth(month) + 2) / 5 + MonthLength(year, month) == (153 * MarchMonth(month % 12 + 1) + 2) / 5
  {
  }

  lemma MonthTurns(d: Date)
    requires ValidDate(d) && d.day == MonthLength(d.year, d.month) && d.month != 2
    ensures MarchYear(NextDay(d)) == MarchYear(d) && DayOfYear(NextDay(d)) == DayOfYear(d) + 1
  {
    MonthEnd(d.year, d.month);
  }

  lemma MarchBegins(d: Date)
    requires ValidDate(d) && d.day == MonthLength(d.year, d.month) && d.month == 2
    ensures MarchYear(NextDay(d)) == MarchYear(d) + 1
    ensures DayOfYear(NextDay(d)) == 0 && DayOfYear(d) == 364 + (if Leap(MarchYear(d) + 1) then 1 else 0)
  {
  }

  lemma NextDayCounts(d: Date)
    requires ValidDate(d)
    ensures DaysFromCivil(NextDay(d)) == DaysFromCivil(d) + 1
  {
    if d.day < MonthLength(d.year, d.month) {
    } else if d.month != 2 {
      MonthTurns(d);
    } else {
      MarchBegins(d);
      YearStep(MarchYear(d));
    }
  }

  lemma EpochIsZero()
    ensures DaysFromCivil(EPOCH) == 0
  {
  }

  lemma {:induction false} SteppingCounts(n: nat)
    ensures DaysFromCivil(DaysAfterEpoch(n)) == n
  {
    if n == 0 {
      EpochIsZero();
    } else {
      SteppingCounts(n - 1);
      NextDayCounts(DaysAfterEpoch(n - 1));
    }
  }

  lemma DayOfYearBounds(d: Date)
    requires ValidDate(d)
    ensures 0 <= DayOfYear(d) < 365 + (if Leap(MarchYear(d) + 1) then 1 else 0)
  {
  }

  lemma {:induction false} YearsAscend(a: int, b: int)
    requires a < b
    ensures YearStart(a + 1) <= YearStart(b)
    decreases b - a
  {
    if a + 1 < b {
      YearStep(a + 1);
      YearsAscend(a + 1, b);
    }
  }

  predicate Before(a: Date, b: Date) {
    a.year < b.year || (a.year == b.year && (a.month < b.month || (a.month == b.month && a.day < b.day)))
  }

  /** Counting days keeps the order of dates, so no two dates share a count. */
  lemma CountAscends(a: Date, b: Date)
    requires ValidDate(a) && ValidDate(b) && Before(a, b)
    ensures DaysFromCivil(a) < DaysFromCivil(b)
  {
    DayOfYearBounds(a);
    DayOfYearBounds(b);
    if MarchYear(a) < MarchYear(b) {
      YearStep(MarchYear(a));
      YearsAscend(MarchYear(a), MarchYear(b));
    } else {
      SameYearAscends(a, b);
    }
  }

  lemma SameYearAscends(a: Date, b: Date)
    requires ValidDate(a) && ValidDate(b) && Before(a, b) && MarchYear(a) == MarchYear(b)
    ensures DayOfYear(a) < DayOfYear(b)
  {
  }

  // ------------------------------------------------- the closed form is right

  lemma EraDigits(dayOfEra: int) returns (c: int, q: int, y: int, r: int)
    requires 0 <= dayOfEra < 146_097
    ensures Digits(c, q, y, r)
    ensures dayOfEra == 36_524 * c + 1461 * q + 365 * y + r
  {
    c := if dayOfEra == 146_096 then 3 else dayOfEra / 36_524;
    var r1 := dayOfEra - 36_524 * c;
    q := if r1 == 36_524 then 24 else r1 / 1461;
    var r2 := r1 - 1461 * q;
    y := if r2 == 1460 then 3 else r2 / 365;
    r := r2 - 365 * y;
  }

  /** A day of the era in mixed digits: century, four-year cycle, year, day. */
  predicate Digits(c: int, q: int, y: int, r: int) {
    && 0 <= c <= 3 && 0 <= q <= 24 && 0 <= y <= 3
    && (0 <= r <= 364 || (r == 365 && y == 3 && (q < 24 || c == 3)))
  }

  function Slip(c: int, q: int, y: int, r: int): int {
    if 24 * c + q + 365 * y + r >= 1460 then 1 else 0
  }

  lemma CycleCount(c: int, q: int, y: int, r: int)
    requires Digits(c, q, y, r)
    ensures (36_524 * c + 1461 * q + 365 * y + r) / 1460 == 25 * c + q + Slip(c, q, y, r)
  {
    var rest := 24 * c + q + 365 * y + r - 1460 * Slip(c, q, y, r);
    assert 0 <= rest < 1460;
    assert 36_524 * c + 1461 * q + 365 * y + r == 1460 * (25 * c + q + Slip(c, q, y, r)) + rest;
  }

  lemma CenturyCount(c: int, q: int, y: int, r: int)
    requires Digits(c, q, y, r)
    ensures var n := 36_524 * c + 1461 * q + 365 * y + r; n / 36_524 - n / 146_096 == c
  {
    var n := 36_524 * c + 1461 * q + 365 * y + r;
    assert 0 <= 1461 * q + 365 * y + r <= 36_524;
    if n == 146_096 {
    } else {
      assert n / 146_096 == 0;
      assert 1461 * q + 365 * y + r < 36_524;
    }
  }

  lemma YearCount(c: int, q: int, y: int, r: int)
    requires Digits(c, q, y, r)
    ensures var year := 100 * c + 4 * q + y;
            && (365 * year + r - Slip(c, q, y, r)) / 365 == year
            && year / 4 == 25 * c + q && year / 100 == c && 0 <= year < 400
  {
    var year := 100 * c + 4 * q + y;
    assert 0 <= r - Slip(c, q, y, r) < 365;
  }

  lemma LeapDigit(c: int, q: int, y: int)
    requires 0 <= c <= 3 && 0 <= q <= 24 && 0 <= y <= 3
    ensures Leap(100 * c + 4 * q + y + 1) <==> y == 3 && (q < 24 || c == 3)
  {
  }

  lemma SplitEraCorrect(dayOfEra: i64)
    requires 0 <= dayOfEra < 146_097
    ensures var s := SplitEra(dayOfEra);
            var y, doy := s.yearOfEra as int, s.dayOfYear as int;
            && 0 <= y < 400
            && dayOfEra as int == 365 * y + y / 4 - y / 100 + doy
            && 0 <= doy < 365 + (if Leap(y + 1) then 1 else 0)
  {
    var c, q, y, r := EraDigits(dayOfEra as int);
    SplitEraYear(dayOfEra, c, q, y, r);
    YearCount(c, q, y, r);
    LeapDigit(c, q, y);
  }

  lemma SplitEraYear(dayOfEra: i64, c: int, q: int, y: int, r: int)
    requires 0 <= dayOfEra < 146_097 && Digits(c, q, y, r)
    requires dayOfEra as int == 36_524 * c + 1461 * q + 365 * y + r
    ensures SplitEra(dayOfEra).yearOfEra as int == 100 * c + 4 * q + y
  {
    CycleCount(c, q, y, r);
    CenturyCount(c, q, y, r);
    YearCount(c, q, y, r);
  }

  /** The date `CivilFromDays` assembles from its three parts. */
  function Assemble(yearIndex: int, doy: int): Date
    requires 0 <= doy <= 365
  {
    var mp := (5 * doy + 2) / 153;
    var month := if mp < 10 then mp + 3 else mp - 9;
    Date(if month <= 2 then yearIndex + 1 else yearIndex, month, doy - (153 * mp + 2) / 5 + 1)
  }

  lemma AssembleCorrect(yearIndex: int, doy: int)
    requires 0 <= doy <= 365
    ensures var d := Assemble(yearIndex, doy);
            && 1 <= d.month <= 12 && 1 <= d.day <= 31
            && (d.month == 2 ==> d.day <= 29)
            && (d.month == 4 || d.month == 6 || d.month == 9 || d.month == 11 ==> d.day <= 30)
            && MarchYear(d) == yearIndex && DayOfYear(d) == doy
  {
  }

  lemma CivilIsAssembled(days: i64)
    requires 0 <= days <= 213_503_982_334_601
    ensures var z := days as int + 719_468;
            var s := SplitEra((days + 719_468) % 146_097);
            && 0 <= s.dayOfYear <= 365
            && CivilFromDays(days) == Assemble(s.yearOfEra as int + z / 146_097 * 400, s.dayOfYear as int)
  {
    SplitEraCorrect((days + 719_468) % 146_097);
  }

  lemma AssembledCounts(y: int, era: int, doy: int)
    requires 0 <= y < 400 && 0 <= doy < 365 + (if Leap(y + 1) then 1 else 0)
    ensures var d := Assemble(y + era * 400, doy);
            && ValidDate(d)
            && DaysFromCivil(d) == era * 146_097 + (365 * y + y / 4 - y / 100 + doy) - 719_468
  {
    AssembleCorrect(y + era * 400, doy);
    EraYear(y, era);
    LastDay(Assemble(y + era * 400, doy), y, era);
  }

  /** The closed form yields a valid date, and counting its days gives back the input. */
  lemma CivilCorrect(days: i64)
    requires 0 <= days <= 213_503_982_334_601
    ensures ValidDate(CivilFromDays(days))
    ensures DaysFromCivil(CivilFromDays(days)) == days as int
  {
    var doe := (days + 719_468) % 146_097;
    SplitEraCorrect(doe);
    CivilIsAssembled(days);
    AssembledCounts(SplitEra(doe).yearOfEra as int, (days as int + 719_468) / 146_097, SplitEra(doe).dayOfYear as int);
  }

  lemma EraYear(y: int, era: int)
    requires 0 <= y < 400
    ensures YearStart(y + era * 400) == era * 146_097 + 365 * y + y / 4 - y / 100
    ensures Leap(y + 1 + era * 400) <==> Leap(y + 1)
  {
    EraFloor(y, era);
    EraRemainder(y + 1, era);
  }

  lemma EraFloor(y: int, era: int)
    requires 0 <= y < 400
    ensures (y + era * 400) / 4 == y / 4 + era * 100
    ensures (y + era * 400) / 100 == y / 100 + era * 4
    ensures (y + era * 400) / 400 == era
  {
  }

  lemma EraRemainder(y: int, era: int)
    ensures (y + era * 400) % 4 == y % 4
    ensures (y + era * 400) % 100 == y % 100
    ensures (y + era * 400) % 400 == y % 400
  {
    Whole4(y, era * 100);
    Whole100(y, era * 4);
    Whole400(y, era);
  }

  lemma Whole4(y: int, n: int)
    ensures (y + n * 4) % 4 == y % 4
  {
  }

  lemma Whole100(y: int, n: int)
    ensures (y + n * 100) % 100 == y % 100
  {
  }

  lemma Whole400(y: int, n: int)
    ensures (y + n * 400) % 400 == y % 400
  {
  }

  /** The only date that depends on the leap rule is the last of the March-based year. */
  lemma LastDay(d: Date, y: int, era: int)
    requires 0 <= y < 400 && MarchYear(d) == y + era * 400
    requires 1 <= d.month <= 12 && 1 <= d.day <= 31
    requires d.month == 2 ==> d.day <= 29
    requires d.month == 4 || d.month == 6 || d.month == 9 || d.month == 11 ==> d.day <= 30
    requires DayOfYear(d) < 365 + (if Leap(y + 1) then 1 else 0)
    ensures ValidDate(d)
  {
    EraYear(y, era);
  }

  /** The date is the one a calendar stepped day by day from 1970-01-01 reaches, and the only valid
      date with that count. */
  lemma ClosedFormIsStepping(days: i64)
    requires 0 <= days <= 213_503_982_334_601
    ensures CivilFromDays(days) == DaysAfterEpoch(days as nat)
    ensures forall d: Date :: ValidDate(d) && DaysFromCivil(d) == days as int ==> d == CivilFromDays(days)
  {
    CivilCorrect(days);
    SteppingCounts(days as nat);
    forall d: Date | ValidDate(d) && DaysFromCivil(d) == days as int
      ensures d == CivilFromDays(days)
    {
      CountIsUnique(d, CivilFromDays(days));
    }
  }

  lemma CountIsUnique(a: Date, b: Date)
    requires ValidDate(a) && ValidDate(b) && DaysFromCivil(a) == DaysFromCivil(b)
    ensures a == b
  {
    if Before(a, b) {
      CountAscends(a, b);
    } else if Before(b, a) {
      CountAscends(b, a);
    }
  }

  lemma DatesAreSane(secs: u64)
    ensures ValidInstant(InstantOf(secs)) && InstantOf(secs).date.year >= 1970
  {
    var days := (secs / 86_400) as i64;
    CivilCorrect(days);
    ClosedFormIsStepping(days);
    SinceEpoch(days as nat);
  }

  lemma {:induction false} SinceEpoch(n: nat)
    ensures DaysAfterEpoch(n).year >= 1970
  {
    if n > 0 {
      SinceEpoch(n - 1);
    }
  }

  // ------------------------------------------------------------- the instant

  function SecondsOf(t: Instant): int {
    DaysFromCivil(t.date) * 86_400 + t.hour * 3600 + t.minute * 60 + t.second
  }

  predicate Earlier(a: Instant, b: Instant) {
    Before(a.date, b.date)
    || (a.date == b.date && (a.hour < b.hour || (a.hour == b.hour && (a.minute < b.minute || (a.minute == b.minute && a.second < b.second)))))
  }

  /** Every u64 second count is that of a valid instant, namely the one computed. */
  lemma InstantInverts(secs: u64)
    ensures ValidInstant(InstantOf(secs)) && SecondsOf(InstantOf(secs)) == secs as int
  {
    DatesAreSane(secs);
    CivilCorrect((secs / 86_400) as i64);
    TimeOfDay(secs % 86_400);
    assert secs == secs / 86_400 * 86_400 + secs % 86_400;
  }

  lemma TimeOfDay(s: u64)
    requires s < 86_400
    ensures (s / 3600) * 3600 + (s % 3600 / 60) * 60 + s % 60 == s
  {
    assert s % 3600 % 60 == s % 60;
  }

  /** Later seconds are later instants, field by field. */
  lemma InstantsAscend(a: u64, b: u64)
    requires a < b
    ensures Earlier(InstantOf(a), InstantOf(b))
  {
    InstantInverts(a);
    InstantInverts(b);
    var s, t := InstantOf(a), InstantOf(b);
    if Before(t.date, s.date) {
      CountAscends(t.date, s.date);
    } else if !Before(s.date, t.date) {
      assert s.date == t.date;
    }
  }

  // -------------------------------------------------------------- the text

  predicate TwoDigits(s: string, at: nat, low: int, high: int)
    requires at + 2 <= |s|
  {
    Decimal.IsDigit(s[at]) && Decimal.IsDigit(s[at + 1]) && low <= Read2(s, at) <= high
  }

  function Read2(s: string, at: nat): int
    requires at + 2 <= |s| && Decimal.IsDigit(s[at]) && Decimal.IsDigit(s[at + 1])
  {
    Decimal.DigitValue(s[at]) * 10 + Decimal.DigitValue(s[at + 1])
  }

  /** `full-date` of section 5.6 of RFC 3339, the day within its month. */
  predicate FullDate(s: string) {
    && |s| == 10 && s[4] == '-' && s[7] == '-'
    && TwoDigits(s, 0, 0, 99) && TwoDigits(s, 2, 0, 99) && TwoDigits(s, 5, 1, 12)
    && TwoDigits(s, 8, 1, MonthLength(Read2(s, 0) * 100 + Read2(s, 2), Read2(s, 5)))
  }

  function ReadDate(s: string): Date
    requires FullDate(s)
  {
    Date(Read2(s, 0) * 100 + Read2(s, 2), Read2(s, 5), Read2(s, 8))
  }

  /** `partial-time` of that section, without a fraction and without a leap second. */
  predicate PartialTime(s: string) {
    && |s| == 8 && s[2] == ':' && s[5] == ':'
    && TwoDigits(s, 0, 0, 23) && TwoDigits(s, 3, 0, 59) && TwoDigits(s, 6, 0, 59)
  }

  /** `date-time` of that section, in zone `Z`. */
  predicate DateTime(s: string) {
    |s| == 20 && FullDate(s[..10]) && s[10] == 'T' && PartialTime(s[11..19]) && s[19] == 'Z'
  }

  function ReadInstant(s: string): Instant
    requires DateTime(s)
  {
    var t := s[11..19];
    Instant(ReadDate(s[..10]), Read2(t, 0), Read2(t, 3), Read2(t, 6))
  }

  function Two(n: nat): (s: string)
    requires n < 100
    ensures |s| == 2
  {
    [Decimal.Digit(n / 10), Decimal.Digit(n % 10)]
  }

  lemma PadTwo(n: nat)
    requires n < 100
    ensures Decimal.Padded(n, 2) == Two(n)
  {
    if n < 10 {
      assert Decimal.Zeros(1) == Decimal.Zeros(0) + "0" == "0";
    } else {
      assert Decimal.Of(n / 10) == [Decimal.Digit(n / 10)];
    }
  }

  lemma PadFour(n: nat)
    requires 1000 <= n < 10_000
    ensures Decimal.Padded(n, 4) == Two(n / 100) + Two(n % 100)
  {
    assert Decimal.Of(n / 1000) == [Decimal.Digit(n / 1000)];
    assert n / 100 / 10 == n / 1000 && n / 10 / 10 == n / 100 && n / 10 % 10 == n % 100 / 10 && n % 100 % 10 == n % 10;
    assert Decimal.Of(n / 100) == [Decimal.Digit(n / 1000), Decimal.Digit(n / 100 % 10)];
    assert Decimal.Of(n / 10) == Decimal.Of(n / 100) + [Decimal.Digit(n / 10 % 10)];
  }

  lemma ReadTwo(s: string, at: nat, n: nat)
    requires n < 100 && at + 2 <= |s| && s[at] == Two(n)[0] && s[at + 1] == Two(n)[1]
    ensures Decimal.IsDigit(s[at]) && Decimal.IsDigit(s[at + 1]) && Read2(s, at) == n
  {
    Decimal.DigitRoundTrip(n / 10);
    Decimal.DigitRoundTrip(n % 10);
  }

  lemma DateSpread(a: string, b: string, c: string, d: string)
    requires |a| == 2 && |b| == 2 && |c| == 2 && |d| == 2
    ensures var s := (a + b) + "-" + c + "-" + d;
            && |s| == 10 && s[4] == '-' && s[7] == '-'
            && s[0] == a[0] && s[1] == a[1] && s[2] == b[0] && s[3] == b[1]
            && s[5] == c[0] && s[6] == c[1] && s[8] == d[0] && s[9] == d[1]
  {
  }

  lemma DateParts(s: string, d: Date)
    requires ValidDate(d) && 1000 <= d.year <= 9999
    requires s == (Two(d.year / 100) + Two(d.year % 100)) + "-" + Two(d.month) + "-" + Two(d.day)
    ensures |s| == 10 && s[4] == '-' && s[7] == '-'
    ensures TwoDigits(s, 0, d.year / 100, d.year / 100) && TwoDigits(s, 2, d.year % 100, d.year % 100)
    ensures TwoDigits(s, 5, d.month, d.month) && TwoDigits(s, 8, d.day, d.day)
  {
    DateSpread(Two(d.year / 100), Two(d.year % 100), Two(d.month), Two(d.day));
    ReadTwo(s, 0, d.year / 100);
    ReadTwo(s, 2, d.year % 100);
    ReadTwo(s, 5, d.month);
    ReadTwo(s, 8, d.day);
  }

  lemma DateReads(s: string, d: Date)
    requires ValidDate(d) && 1000 <= d.year <= 9999
    requires s == (Two(d.year / 100) + Two(d.year % 100)) + "-" + Two(d.month) + "-" + Two(d.day)
    ensures FullDate(s) && ReadDate(s) == d
  {
    DateParts(s, d);
    assert d.year / 100 * 100 + d.year % 100 == d.year;
  }

  lemma DateReadsBack(d: Date)
    requires ValidDate(d) && 1000 <= d.year <= 9999
    ensures FullDate(RenderDate(d)) && ReadDate(RenderDate(d)) == d
  {
    PadFour(d.year);
    PadTwo(d.month);
    PadTwo(d.day);
    DateReads(RenderDate(d), d);
  }

  lemma TimeReadsBack(hour: nat, minute: nat, second: nat)
    requires hour < 24 && minute < 60 && second < 60
    ensures var s := RenderTime(hour, minute, second);
            PartialTime(s) && Read2(s, 0) == hour && Read2(s, 3) == minute && Read2(s, 6) == second
  {
    PadTwo(hour);
    PadTwo(minute);
    PadTwo(second);
    var s := RenderTime(hour, minute, second);
    ReadTwo(s, 0, hour);
    ReadTwo(s, 3, minute);
    ReadTwo(s, 6, second);
  }

  /** Up to the year 9999 the text is an RFC 3339 timestamp that reads back as the instant. */
  lemma TextReadsBack(secs: u64)
    requires InstantOf(secs).date.year <= 9999
    ensures DateTime(FormatUtc(secs)) && ReadInstant(FormatUtc(secs)) == InstantOf(secs)
  {
    DatesAreSane(secs);
    var t, s := InstantOf(secs), FormatUtc(secs);
    DateReadsBack(t.date);
    TimeReadsBack(t.hour, t.minute, t.second);
    assert s[..10] == RenderDate(t.date);
    assert s[11..19] == RenderTime(t.hour, t.minute, t.second);
  }

  const LAST_DAY := Date(9999, 12, 31)

  /** The 20-character form holds exactly for the seconds before the year 10000. */
  lemma TwentyCharacters(secs: u64)
    ensures |FormatUtc(secs)| == 20 <==> secs < 253_402_300_800
    ensures DateTime(FormatUtc(secs)) <==> secs < 253_402_300_800
  {
    DatesAreSane(secs);
    YearBound(secs);
    var t := InstantOf(secs);
    if t.date.year <= 9999 {
      TextReadsBack(secs);
    } else {
      assert Decimal.Pow10(4) == 10 * Decimal.Pow10(3) == 100 * Decimal.Pow10(2) == 1000 * Decimal.Pow10(1) == 10_000;
      Decimal.PaddedMeaning(t.date.year, 4);
      PadTwo(t.date.month);
      PadTwo(t.date.day);
      PadTwo(t.hour);
      PadTwo(t.minute);
      PadTwo(t.second);
    }
  }

  lemma YearBound(secs: u64)
    ensures InstantOf(secs).date.year <= 9999 <==> secs < 253_402_300_800
  {
    DateBound((secs / 86_400) as i64);
  }

  lemma DateBound(days: i64)
    requires 0 <= days <= 213_503_982_334_601
    ensures CivilFromDays(days).year <= 9999 <==> days <= 2_932_896
  {
    CivilCorrect(days);
    OrderBound(CivilFromDays(days));
  }

  lemma OrderBound(d: Date)
    requires ValidDate(d)
    ensures d.year <= 9999 <==> DaysFromCivil(d) <= 2_932_896
  {
    assert DaysFromCivil(LAST_DAY) == 2_932_896;
    if Before(d, LAST_DAY) {
      CountAscends(d, LAST_DAY);
    } else if Before(LAST_DAY, d) {
      CountAscends(LAST_DAY, d);
    }
  }
}
