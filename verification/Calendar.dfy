/**
 * The calendar arithmetic of cpp/src/common/time_utils.cpp: milliseconds since
 * 1970-01-01 to the fields of the ODBC date, time and timestamp structures.
 *
 * Milliseconds are whole numbers below 2^53 in magnitude, so the source's `double`
 * arithmetic is exact and is modelled on `int`.  The reference the code is proved
 * against is the day number of the proleptic Gregorian calendar in closed form
 * (leap rule of section 3.2.1 of ISO 8601:2004); the code itself only ever walks
 * year by year and month by month.
 */
module Calendar {

  const MS_PER_SECOND := 1000
  const MS_PER_MINUTE := 60_000
  const MS_PER_HOUR := 3_600_000
  const MS_PER_DAY := 86_400_000
  const NANOSECONDS_PER_MS := 1_000_000
  const MIN_YEAR := 1
  const MAX_YEAR := 9999

  // The four instants the source writes as literals, and the two its comments mean.
  const DATE_CLAMP_LOW := -62167219200000   // 0000-01-01T00:00:00.000
  const DATE_CLAMP_HIGH := 252423993599999  // 9968-12-30T23:59:59.999
  const TIMESTAMP_CLAMP_HIGH := 253402300799999  // 9999-12-31T23:59:59.999
  const YEAR_ONE := -62135596800000         // 0001-01-01T00:00:00.000
  const LAST_DAY := 253402214400000         // 9999-12-31T00:00:00.000

  datatype Date = Date(year: int, month: int, day: int)
  datatype Time = Time(hour: int, minute: int, second: int, fraction: int)
  datatype Timestamp = Timestamp(date: Date, time: Time)

  const MIN_DATE := Date(1, 1, 1)
  const MAX_DATE := Date(9999, 12, 31)

  // ---------------------------------------------------------------- reference calendar

  predicate IsLeapYear(y: int) {
    y % 4 == 0 && (y % 100 != 0 || y % 400 == 0)
  }

  function YearLength(y: int): int {
    if IsLeapYear(y) then 366 else 365
  }

  /** The tables of time_utils.h, indexed by month 1..12. */
  function MonthDays(leap: bool): (t: seq<int>) {
    if leap then [0, 31, 29, 31, 30, 31, 30, 31, 31, 30, 31, 30, 31]
    else [0, 31, 28, 31, 30, 31, 30, 31, 31, 30, 31, 30, 31]
  }

  /** Days from 1970-01-01 to 1 January of year `y`, in closed form. */
  function DaysBeforeYear(y: int): int {
    365 * (y - 1) + (y - 1) / 4 - (y - 1) / 100 + (y - 1) / 400 - 719162
  }

  function DaysBeforeMonth(leap: bool, m: int): int
    requires 1 <= m <= 13
    decreases m
  {
    if m == 1 then 0 else DaysBeforeMonth(leap, m - 1) + MonthDays(leap)[m - 1]
  }

  predicate ValidDate(d: Date) {
    && MIN_YEAR <= d.year <= MAX_YEAR
    && 1 <= d.month <= 12
    && 1 <= d.day <= MonthDays(IsLeapYear(d.year))[d.month]
  }

  /** Number of days from 1970-01-01 to `d` in the proleptic Gregorian calendar. */
  function DayNumber(d: Date): int
    requires ValidDate(d)
  {
    DaysBeforeYear(d.year) + DaysBeforeMonth(IsLeapYear(d.year), d.month) + d.day - 1
  }

  predicate ValidTime(t: Time) {
    && 0 <= t.hour < 24 && 0 <= t.minute < 60 && 0 <= t.second < 60
    && 0 <= t.fraction < 1000 * NANOSECONDS_PER_MS
    && t.fraction % NANOSECONDS_PER_MS == 0
  }

  function TimeOfDay(t: Time): int {
    t.hour * MS_PER_HOUR + t.minute * MS_PER_MINUTE + t.second * MS_PER_SECOND
      + t.fraction / NANOSECONDS_PER_MS
  }

  /** The instant a timestamp denotes: the inverse the conversions are measured against. */
  function Recombine(ts: Timestamp): int
    requires ValidDate(ts.date)
  {
    DayNumber(ts.date) * MS_PER_DAY + TimeOfDay(ts.time)
  }

  predicate DateBefore(a: Date, b: Date) {
    || a.year < b.year
    || (a.year == b.year && (a.month < b.month || (a.month == b.month && a.day < b.day)))
  }

  predicate TimeBefore(a: Time, b: Time) {
    || a.hour < b.hour
    || (a.hour == b.hour
        && (|| a.minute < b.minute
            || (a.minute == b.minute
                && (a.second < b.second || (a.second == b.second && a.fraction < b.fraction)))))
  }

  predicate TimestampBefore(a: Timestamp, b: Timestamp) {
    DateBefore(a.date, b.date) || (a.date == b.date && TimeBefore(a.time, b.time))
  }

  // ---------------------------------------------------------------- facts about the reference

  lemma DivStep(k: int, n: int)
    requires n > 0
    ensures (k + 1) / n == k / n + (if (k + 1) % n == 0 then 1 else 0)
  {
    var q, r := k / n, k % n;
    assert k == n * q + r && 0 <= r < n;
    if r + 1 < n {
      DivUnique(k + 1, n, q, r + 1);
    } else {
      assert k + 1 == n * (q + 1);
      DivUnique(k + 1, n, q + 1, 0);
    }
  }

  lemma DivUnique(a: int, n: int, q: int, r: int)
    requires n > 0 && a == n * q + r && 0 <= r < n
    ensures a / n == q && a % n == r
  {
    var q', r' := a / n, a % n;
    assert n * (q - q') == r' - r;
    if q != q' { MultipleIsFar(n, q - q'); }
  }

  lemma MultipleIsFar(n: int, k: int)
    requires n > 0 && k != 0
    ensures n * k >= n || n * k <= -n
  {
    if k > 0 { assert n * (k - 1) >= 0; } else { assert n * (-k - 1) >= 0; }
  }

  /** The closed form advances by exactly the length the loops subtract. */
  lemma YearStep(y: int)
    ensures DaysBeforeYear(y + 1) == DaysBeforeYear(y) + YearLength(y)
  {
    DivStep(y - 1, 4);
    DivStep(y - 1, 100);
    DivStep(y - 1, 400);
    if y % 400 == 0 {
      var k := y / 400;
      DivUnique(y, 100, 4 * k, 0);
      DivUnique(y, 4, 100 * k, 0);
    } else if y % 100 == 0 {
      DivUnique(y, 4, 25 * (y / 100), 0);
    }
  }

  lemma {:induction false} YearsAccumulate(y: int, z: int)
    requires y < z
    ensures DaysBeforeYear(y) + YearLength(y) <= DaysBeforeYear(z)
    decreases z - y
  {
    YearStep(y);
    if y + 1 < z { YearsAccumulate(y + 1, z); }
  }

  lemma {:induction false} MonthsAccumulate(leap: bool, m: int, n: int)
    requires 1 <= m < n <= 13
    ensures DaysBeforeMonth(leap, m) + MonthDays(leap)[m] <= DaysBeforeMonth(leap, n)
    decreases n
  {
    if m + 1 < n { MonthsAccumulate(leap, m, n - 1); }
  }

  lemma MonthsFillTheYear(leap: bool)
    ensures DaysBeforeMonth(leap, 13) == if leap then 366 else 365
  {
    assert DaysBeforeMonth(leap, 4) == if leap then 91 else 90;
    assert DaysBeforeMonth(leap, 7) == if leap then 182 else 181;
    assert DaysBeforeMonth(leap, 10) == if leap then 274 else 273;
  }

  /** The lengths of the months in the Gregorian calendar. */
  lemma MonthLength(leap: bool, m: int)
    requires 1 <= m <= 12
    ensures MonthDays(leap)[m] == if m == 2 then (if leap then 29 else 28)
                                  else if m == 4 || m == 6 || m == 9 || m == 11 then 30
                                  else 31
  {
    var days := MonthDays(leap);
    assert days[1] == days[3] == days[5] == days[7] == days[8] == days[10] == days[12] == 31;
    assert days[4] == days[6] == days[9] == days[11] == 30;
  }

  lemma MonthFollows(leap: bool, m: int)
    requires 1 < m <= 13
    ensures DaysBeforeMonth(leap, m) == DaysBeforeMonth(leap, m - 1) + MonthDays(leap)[m - 1]
  {
  }

  /** How far the closed form moves in a month. */
  lemma Twelfths(m: int)
    requires 1 <= m <= 12
    ensures (367 * (m + 1) - 362) / 12 - (367 * m - 362) / 12
         == if m == 2 || m == 4 || m == 6 || m == 9 || m == 11 then 30 else 31
  {
    if m <= 6 {
      assert m == 1 || m == 2 || m == 3 || m == 4 || m == 5 || m == 6;
    } else {
      assert m == 7 || m == 8 || m == 9 || m == 10 || m == 11 || m == 12;
    }
  }

  /** The days before each month, by a rule that reads no table. */
  lemma {:induction false} MonthsInClosedForm(leap: bool, m: int)
    requires 1 <= m <= 13
    ensures DaysBeforeMonth(leap, m) == (367 * m - 362) / 12 - (if m <= 2 then 0 else if leap then 1 else 2)
    decreases m
  {
    if m > 1 {
      MonthsInClosedForm(leap, m - 1);
      hide DaysBeforeMonth;
      MonthLength(leap, m - 1);
      Twelfths(m - 1);
      MonthFollows(leap, m);
    }
  }

  /** A valid date lies inside its year. */
  lemma DayInYear(d: Date)
    requires ValidDate(d)
    ensures DaysBeforeYear(d.year) <= DayNumber(d) < DaysBeforeYear(d.year) + YearLength(d.year)
  {
    var leap := IsLeapYear(d.year);
    MonthsFillTheYear(leap);
    MonthsAccumulate(leap, d.month, 13);
    if d.month > 1 { MonthsAccumulate(leap, 1, d.month); }
  }

  /** Day numbers order dates exactly as their fields do. */
  lemma DayNumberOrdersDates(a: Date, b: Date)
    requires ValidDate(a) && ValidDate(b)
    ensures DateBefore(a, b) <==> DayNumber(a) < DayNumber(b)
    ensures a == b <==> DayNumber(a) == DayNumber(b)
  {
    if DateBefore(a, b) { DayNumberMonotone(a, b); }
    if DateBefore(b, a) { DayNumberMonotone(b, a); }
  }

  lemma DayNumberMonotone(a: Date, b: Date)
    requires ValidDate(a) && ValidDate(b) && DateBefore(a, b)
    ensures DayNumber(a) < DayNumber(b)
  {
    DayInYear(a);
    DayInYear(b);
    if a.year < b.year {
      YearsAccumulate(a.year, b.year);
    } else if a.month < b.month {
      MonthsAccumulate(IsLeapYear(a.year), a.month, b.month);
    }
  }

  // ---------------------------------------------------------------- createDateStruct

  /** What createDateStruct must answer for the instant `ms`, timezone already applied. */
  ghost predicate IsDateOf(ms: int, d: Date) {
    if ms < YEAR_ONE then d == MIN_DATE
    else if ms >= DATE_CLAMP_HIGH then d == MAX_DATE
    else ValidDate(d) && DayNumber(d) == ms / MS_PER_DAY
  }

  function Clamp(lo: int, x: int, hi: int): int {
    var least := if x < hi then x else hi;
    if lo < least then least else lo
  }

  /** The loop for days on or after the epoch; it gives up one year past the maximum. */
  method YearAfterEpoch(daysSinceEpoch: int) returns (y: int, remainingDays: int)
    requires daysSinceEpoch >= 0
    ensures 1970 <= y <= MAX_YEAR + 1 && remainingDays >= 0
    ensures DaysBeforeYear(y) + remainingDays == daysSinceEpoch
    ensures y <= MAX_YEAR ==> remainingDays < YearLength(y)
  {
    y := 1970;
    remainingDays := daysSinceEpoch;
    while true
      invariant 1970 <= y <= MAX_YEAR && remainingDays >= 0
      invariant DaysBeforeYear(y) + remainingDays == daysSinceEpoch
      decreases remainingDays
    {
      var daysInYear := if IsLeapYear(y) then 366 else 365;
      if remainingDays < daysInYear { return; }
      YearStep(y);
      remainingDays := remainingDays - daysInYear;
      y := y + 1;
      if y > MAX_YEAR { return; }
    }
  }

  /** The loop for days before the epoch; it gives up one year below the minimum. */
  method YearBeforeEpoch(daysSinceEpoch: int) returns (y: int, remainingDays: int)
    requires daysSinceEpoch < 0
    ensures MIN_YEAR - 1 <= y < 1970 && remainingDays < YearLength(y)
    ensures DaysBeforeYear(y) + remainingDays == daysSinceEpoch
    ensures y >= MIN_YEAR ==> remainingDays >= 0
  {
    y := 1970;
    remainingDays := daysSinceEpoch;
    while remainingDays < 0
      invariant MIN_YEAR <= y <= 1970 && (y < 1970 ==> remainingDays < YearLength(y))
      invariant y == 1970 ==> remainingDays < 0
      invariant DaysBeforeYear(y) + remainingDays == daysSinceEpoch
      decreases -remainingDays
    {
      y := y - 1;
      YearStep(y);
      var daysInYear := if IsLeapYear(y) then 366 else 365;
      remainingDays := remainingDays + daysInYear;
      if y < MIN_YEAR { return; }
    }
  }

  /** A day count whose year is known lies between the first and the last supported year. */
  lemma YearIsInRange(y: int, remainingDays: int)
    requires MIN_YEAR - 1 <= y <= MAX_YEAR + 1
    requires y <= MAX_YEAR ==> remainingDays < YearLength(y)
    requires y >= MIN_YEAR ==> remainingDays >= 0
    ensures DaysBeforeYear(y) + remainingDays < DaysBeforeYear(MIN_YEAR) <==> y < MIN_YEAR
    ensures DaysBeforeYear(y) + remainingDays >= DaysBeforeYear(MAX_YEAR + 1) <==> y > MAX_YEAR
  {
    if y > MIN_YEAR { YearsAccumulate(MIN_YEAR, y); }
    if y < MIN_YEAR { YearsAccumulate(y, MIN_YEAR); }
    if y <= MAX_YEAR { YearsAccumulate(y, MAX_YEAR + 1); }
  }

  /** The year and month loops, with the -365 shortcut and both year caps, for any day count. */
  method DateFromDays(daysSinceEpoch: int) returns (date: Date)
    ensures ValidDate(date)
    ensures daysSinceEpoch < DaysBeforeYear(MIN_YEAR) ==> date == MIN_DATE
    ensures daysSinceEpoch >= DaysBeforeYear(MAX_YEAR + 1) ==> date == MAX_DATE
    ensures DaysBeforeYear(MIN_YEAR) <= daysSinceEpoch < DaysBeforeYear(MAX_YEAR + 1) ==>
              DayNumber(date) == daysSinceEpoch
  {
    if daysSinceEpoch == -365 {
      return Date(1969, 1, 1);
    }
    var y, remainingDays;
    if daysSinceEpoch >= 0 {
      y, remainingDays := YearAfterEpoch(daysSinceEpoch);
      YearIsInRange(y, remainingDays);
      if y > MAX_YEAR {
        return Date(MAX_YEAR, 12, 31);
      }
    } else {
      y, remainingDays := YearBeforeEpoch(daysSinceEpoch);
      YearIsInRange(y, remainingDays);
      if y < MIN_YEAR {
        return Date(MIN_YEAR, 1, 1);
      }
    }
    var m, d := MonthAndDay(IsLeapYear(y), remainingDays);
    date := Date(Clamp(MIN_YEAR, y, MAX_YEAR), Clamp(1, m, 12), Clamp(1, d, 31));
  }

  /** The month loop, from a zero-based day of the year to a month and a day. */
  method MonthAndDay(leap: bool, dayOfYear: int) returns (m: int, d: int)
    requires 0 <= dayOfYear < if leap then 366 else 365
    ensures 1 <= m <= 12 && 1 <= d <= MonthDays(leap)[m] <= 31
    ensures DaysBeforeMonth(leap, m) + d - 1 == dayOfYear
  {
    var monthDays := MonthDays(leap);
    MonthsFillTheYear(leap);
    assert DaysBeforeMonth(leap, 13) == DaysBeforeMonth(leap, 12) + monthDays[12];
    var remainingDays := dayOfYear;
    m := 1;
    while remainingDays >= monthDays[m]
      invariant 1 <= m <= 12 && remainingDays >= 0
      invariant DaysBeforeMonth(leap, m) + remainingDays == dayOfYear
      decreases 12 - m
    {
      remainingDays := remainingDays - monthDays[m];
      m := m + 1;
    }
    d := remainingDays + 1;
  }

  /** createDateStruct.  The offset is an `int32_t` whose product by 60000 must fit in one too. */
  method CreateDateStruct(milliseconds: int, offsetMinutes: int) returns (date: Date)
    requires -35791 <= offsetMinutes <= 35791
    ensures ValidDate(date)
    ensures IsDateOf(milliseconds - offsetMinutes * 60 * 1000, date)
  {
    var ms := milliseconds - offsetMinutes * 60 * 1000;
    if ms == DATE_CLAMP_LOW {
      return MIN_DATE;
    }
    if ms == DATE_CLAMP_HIGH {
      return MAX_DATE;
    }
    if ms > DATE_CLAMP_HIGH {
      return MAX_DATE;
    }
    if ms < DATE_CLAMP_LOW {
      return MIN_DATE;
    }
    date := DateFromDays(ms / MS_PER_DAY);
  }

  /** The date of an instant in full, without the tables and the loops. */
  lemma DateInFull(ms: int, date: Date)
    requires IsDateOf(ms, date)
    ensures ms < -62135596800000 ==> date == Date(1, 1, 1)
    ensures ms >= 252423993599999 ==> date == Date(9999, 12, 31)
    ensures -62135596800000 <= ms < 252423993599999 ==>
              (var y, m, d := date.year, date.month, date.day;
               var leap := y % 4 == 0 && (y % 100 != 0 || y % 400 == 0);
               && 1 <= y <= 9999 && 1 <= m <= 12
               && 1 <= d <= (if m == 2 then if leap then 29 else 28
                             else if m == 4 || m == 6 || m == 9 || m == 11 then 30
                             else 31)
               && ms / 86400000 == 365 * (y - 1) + (y - 1) / 4 - (y - 1) / 100 + (y - 1) / 400 - 719162
                                   + (367 * m - 362) / 12 - (if m <= 2 then 0 else if leap then 1 else 2) + d - 1)
  {
    hide DaysBeforeMonth, MonthDays;
    if YEAR_ONE <= ms < DATE_CLAMP_HIGH {
      MonthsInClosedForm(IsLeapYear(date.year), date.month);
      MonthLength(IsLeapYear(date.year), date.month);
    }
  }

  /** Later instants never get an earlier date, and the answer is unique: createDateStruct is monotone. */
  lemma DateIsMonotone(m1: int, d1: Date, m2: int, d2: Date)
    requires m1 <= m2 && IsDateOf(m1, d1) && IsDateOf(m2, d2)
    ensures ValidDate(d1) && ValidDate(d2)
    ensures !DateBefore(d2, d1)
    ensures m1 == m2 ==> d1 == d2
  {
    if YEAR_ONE <= m1 && m2 < DATE_CLAMP_HIGH {
      DivMonotone(m1, m2, MS_PER_DAY);
      DayNumberOrdersDates(d2, d1);
    } else {
      assert MonthDays(IsLeapYear(d1.year))[d1.month] <= 31;
    }
  }

  lemma DivMonotone(a: int, b: int, n: int)
    requires n > 0 && a <= b
    ensures a / n <= b / n
  {
    if a / n > b / n { MultipleIsFar(n, a / n - b / n); }
  }

  /** The date is the true calendar date exactly outside the two clamped stretches. */
  lemma DateIsTrueExactlyWhen(m: int, d: Date)
    requires IsDateOf(m, d)
    ensures ValidDate(d)
    ensures DayNumber(d) == m / MS_PER_DAY
       <==> YEAR_ONE <= m < DATE_CLAMP_HIGH || LAST_DAY <= m < LAST_DAY + MS_PER_DAY
  {
    DayNumberOfBounds();
  }

  lemma DayNumberOfBounds()
    ensures DayNumber(MIN_DATE) * MS_PER_DAY == YEAR_ONE
    ensures DayNumber(MAX_DATE) * MS_PER_DAY == LAST_DAY
  {
    MonthsAccumulate(false, 1, 12);
    MonthsFillTheYear(false);
  }

  // ---------------------------------------------------------------- createTimeStruct

  /** C++ `%`: the remainder takes the sign of the dividend. */
  function TruncMod(a: int, b: int): int
    requires b > 0
  {
    if a >= 0 then a % b else -((-a) % b)
  }

  method CreateTimeStruct(milliseconds: int, offsetMinutes: int) returns (time: Time)
    requires -35791 <= offsetMinutes <= 35791
    ensures ValidTime(time)
    ensures TimeOfDay(time) == (milliseconds - offsetMinutes * 60 * 1000) % MS_PER_DAY
    ensures time.hour * 3600000 + time.minute * 60000 + time.second * 1000 + time.fraction / 1000000
         == (milliseconds - offsetMinutes * 60 * 1000) % 86400000
    ensures 0 <= time.fraction <= 999000000 && time.fraction % 1000000 == 0
  {
    var intMs := milliseconds - offsetMinutes * 60 * 1000;
    var timeMs := TruncMod(TruncMod(intMs, MS_PER_DAY) + MS_PER_DAY, MS_PER_DAY);
    WrapIntoDay(intMs);
    var hour := timeMs / MS_PER_HOUR;
    var minute := TruncMod(timeMs, MS_PER_HOUR) / MS_PER_MINUTE;
    var second := TruncMod(timeMs, MS_PER_MINUTE) / MS_PER_SECOND;
    var msComponent := TruncMod(timeMs, MS_PER_SECOND);
    time := Time(hour, minute, second, msComponent * NANOSECONDS_PER_MS);
    SplitOfDay(timeMs);
  }

  lemma WrapIntoDay(ms: int)
    ensures TruncMod(TruncMod(ms, MS_PER_DAY) + MS_PER_DAY, MS_PER_DAY) == ms % MS_PER_DAY
  {
    if ms < 0 {
      var q, r := (-ms) / MS_PER_DAY, (-ms) % MS_PER_DAY;
      if r == 0 {
        DivUnique(ms, MS_PER_DAY, -q, 0);
      } else {
        DivUnique(ms, MS_PER_DAY, -q - 1, MS_PER_DAY - r);
      }
    }
  }

  lemma SplitOfDay(t: int)
    requires 0 <= t < MS_PER_DAY
    ensures t == t / MS_PER_HOUR * MS_PER_HOUR
              + t % MS_PER_HOUR / MS_PER_MINUTE * MS_PER_MINUTE
              + t % MS_PER_MINUTE / MS_PER_SECOND * MS_PER_SECOND
              + t % MS_PER_SECOND
  {
    var h, r := t / MS_PER_HOUR, t % MS_PER_HOUR;
    DivUnique(t, MS_PER_MINUTE, h * 60 + r / MS_PER_MINUTE, r % MS_PER_MINUTE);
    var q := t / MS_PER_MINUTE;
    var s := t % MS_PER_MINUTE;
    DivUnique(t, MS_PER_SECOND, q * 60 + s / MS_PER_SECOND, s % MS_PER_SECOND);
  }

  /** One step of a mixed-radix comparison. */
  lemma RadixOrders(x: int, r: int, y: int, s: int, n: int)
    requires 0 <= r < n && 0 <= s < n
    ensures x * n + r < y * n + s <==> x < y || (x == y && r < s)
    ensures x * n + r == y * n + s <==> x == y && r == s
  {
    if x != y { MultipleIsFar(n, x - y); }
    assert n * (x - y) == x * n - y * n;
  }

  lemma TimeOfDayOrdersTimes(a: Time, b: Time)
    requires ValidTime(a) && ValidTime(b)
    ensures TimeOfDay(a) < TimeOfDay(b) <==> TimeBefore(a, b)
    ensures TimeOfDay(a) == TimeOfDay(b) <==> a == b
    ensures 0 <= TimeOfDay(a) < MS_PER_DAY
  {
    var fa, fb := a.fraction / NANOSECONDS_PER_MS, b.fraction / NANOSECONDS_PER_MS;
    var sa, sb := a.second * 1000 + fa, b.second * 1000 + fb;
    var ma, mb := a.minute * 60_000 + sa, b.minute * 60_000 + sb;
    assert a.fraction == fa * NANOSECONDS_PER_MS && b.fraction == fb * NANOSECONDS_PER_MS;
    RadixOrders(a.second, fa, b.second, fb, 1000);
    RadixOrders(a.minute, sa, b.minute, sb, 60_000);
    RadixOrders(a.hour, ma, b.hour, mb, 3_600_000);
  }

  // ---------------------------------------------------------------- createTimestampStruct

  const MAX_TIMESTAMP := Timestamp(MAX_DATE, Time(23, 59, 59, 999 * NANOSECONDS_PER_MS))
  const MIN_TIMESTAMP := Timestamp(MIN_DATE, Time(0, 0, 0, 0))

  ghost predicate IsTimestampOf(ms: int, ts: Timestamp) {
    if ms > TIMESTAMP_CLAMP_HIGH then ts == MAX_TIMESTAMP
    else if ms < DATE_CLAMP_LOW then ts == MIN_TIMESTAMP
    else IsDateOf(ms, ts.date) && ValidTime(ts.time) && TimeOfDay(ts.time) == ms % MS_PER_DAY
  }

  method CreateTimestampStruct(milliseconds: int, offsetMinutes: int) returns (ts: Timestamp)
    requires -35791 <= offsetMinutes <= 35791
    ensures IsTimestampOf(milliseconds - offsetMinutes * 60 * 1000, ts)
  {
    var ms := milliseconds - offsetMinutes * 60 * 1000;
    if ms > TIMESTAMP_CLAMP_HIGH {
      return Timestamp(Date(9999, 12, 31), Time(23, 59, 59, 999 * NANOSECONDS_PER_MS));
    }
    if ms < DATE_CLAMP_LOW {
      return Timestamp(Date(1, 1, 1), Time(0, 0, 0, 0));
    }
    var date := CreateDateStruct(ms, 0);
    var time := CreateTimeStruct(ms, 0);
    ts := Timestamp(date, time);
  }

  /** The instants on which createTimestampStruct loses nothing. */
  predicate Faithful(m: int) {
    YEAR_ONE <= m < DATE_CLAMP_HIGH || LAST_DAY <= m <= TIMESTAMP_CLAMP_HIGH
  }

  /** Recombining the fields gives the instant back exactly on the faithful instants. */
  lemma TimestampInverts(m: int, ts: Timestamp)
    requires IsTimestampOf(m, ts)
    ensures ValidDate(ts.date) && ValidTime(ts.time)
    ensures Recombine(ts) == m <==> Faithful(m)
  {
    DayNumberOfBounds();
    assert m == m / MS_PER_DAY * MS_PER_DAY + m % MS_PER_DAY;
    if DATE_CLAMP_LOW <= m <= TIMESTAMP_CLAMP_HIGH {
      DateIsTrueExactlyWhen(m, ts.date);
    }
  }

  /** On the faithful instants createTimestampStruct is strictly monotone, hence injective. */
  lemma TimestampIsStrictlyMonotone(m1: int, ts1: Timestamp, m2: int, ts2: Timestamp)
    requires IsTimestampOf(m1, ts1) && IsTimestampOf(m2, ts2)
    requires Faithful(m1) && Faithful(m2) && m1 < m2
    ensures TimestampBefore(ts1, ts2) && ts1 != ts2
  {
    TimestampInverts(m1, ts1);
    TimestampInverts(m2, ts2);
    DayNumberOrdersDates(ts1.date, ts2.date);
    TimeOfDayOrdersTimes(ts1.time, ts2.time);
    TimeOfDayOrdersTimes(ts2.time, ts1.time);
  }

  /** One instant past the clamp: midnight of 9968-12-31 is reported as midnight of 9999-12-31. */
  lemma ClampedTimestampIsWrong(ts: Timestamp)
    requires IsTimestampOf(DATE_CLAMP_HIGH + 1, ts)
    ensures ts == Timestamp(MAX_DATE, Time(0, 0, 0, 0))
    ensures DayNumber(Date(9968, 12, 31)) * MS_PER_DAY == DATE_CLAMP_HIGH + 1
  {
    TimeOfDayOrdersTimes(ts.time, Time(0, 0, 0, 0));
    MonthsFillTheYear(true);
  }
}
