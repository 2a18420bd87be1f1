/**
 * The proleptic Gregorian calendar in UTC, as ECMAScript's `Date` uses it
 * (section 21.4.1 of ECMA-262): a time value is a count of milliseconds since
 * 1970-01-01T00:00:00Z, and `getUTCFullYear`, `getUTCMonth` and `getUTCDate`
 * give the civil date of the day it falls in.
 */
module Calendar {
  import opened Results
  import opened JsStrings

  const MsPerDay: int := 86400000

  /** Days from 0000-01-01 to 1970-01-01. */
  const EpochDays: int := 719528

  /** A civil date; `month` counts from 1 (one more than `getUTCMonth()`). */
  datatype Date = Date(year: int, month: int, day: int)

  predicate IsLeap(y: int) {
    y % 4 == 0 && (y % 100 != 0 || y % 400 == 0)
  }

  function DaysInYear(y: int): int {
    if IsLeap(y) then 366 else 365
  }

  function DaysInMonth(y: int, m: int): int
    requires 1 <= m <= 12
  {
    if m == 2 then (if IsLeap(y) then 29 else 28)
    else if m == 4 || m == 6 || m == 9 || m == 11 then 30
    else 31
  }

  predicate ValidDate(dt: Date) {
    1 <= dt.month <= 12 && 1 <= dt.day <= DaysInMonth(dt.year, dt.month)
  }

  /** Days of year `y` before the first of month `m`; `m == 13` gives the length of the year. */
  function DaysBeforeMonth(y: int, m: int): int
    requires 1 <= m <= 13
  {
    [0, 31, 59, 90, 120, 151, 181, 212, 243, 273, 304, 334, 365][m - 1]
    + (if IsLeap(y) && m > 2 then 1 else 0)
  }

  lemma MonthLength(y: int, m: int)
    requires 1 <= m <= 12
    ensures DaysBeforeMonth(y, m + 1) == DaysBeforeMonth(y, m) + DaysInMonth(y, m)
    ensures DaysBeforeMonth(y, 13) == DaysInYear(y)
  {
  }

  /** Days from 0000-01-01 to the first of January of year `y` (negative before year 0). */
  function DaysBeforeYear(y: int): int {
    365 * y + LeapsBefore(y)
  }

  /** Leap years before year `y`, counted from year 0 (negative for `y < 0`). */
  function LeapsBefore(y: int): int {
    (y + 3) / 4 - (y + 99) / 100 + (y + 399) / 400
  }

  lemma Step4(y: int)
    ensures (y + 4) / 4 - (y + 3) / 4 == if y % 4 == 0 then 1 else 0
  {
    var q := y / 4;
    assert (y + 4) / 4 == q + 1;
    if y % 4 == 0 { assert (y + 3) / 4 == q; } else { assert (y + 3) / 4 == q + 1; }
  }

  /** Euclidean division is determined by quotient and remainder. */
  lemma DivBy(a: int, d: int, q: int, r: int)
    requires 0 < d && a == d * q + r && 0 <= r < d
    ensures a / d == q && a % d == r
  {
    var k := a / d - q;
    assert d * k == r - a % d by {
      assert d * (a / d) == d * q + d * k;
    }
    if k > 0 {
      MulAtLeast(d, k);
    } else if k < 0 {
      assert d * (-k) == -(d * k);
      MulAtLeast(d, -k);
    }
  }

  lemma {:induction false} MulAtLeast(d: int, k: int)
    requires d > 0 && k >= 1
    ensures d * k >= d
    decreases k
  {
    if k > 1 {
      MulAtLeast(d, k - 1);
      assert d * k == d * (k - 1) + d;
    }
  }

  lemma Step100(y: int)
    ensures (y + 100) / 100 - (y + 99) / 100 == if y % 100 == 0 then 1 else 0
    ensures y % 100 == 0 ==> y % 4 == 0
  {
    var q, r := y / 100, y % 100;
    DivBy(y + 100, 100, q + 1, r);
    if r == 0 {
      DivBy(y + 99, 100, q, 99);
      DivBy(y, 4, 25 * q, 0);
    } else {
      DivBy(y + 99, 100, q + 1, r - 1);
    }
  }

  lemma Step400(y: int)
    ensures (y + 400) / 400 - (y + 399) / 400 == if y % 400 == 0 then 1 else 0
    ensures y % 400 == 0 ==> y % 100 == 0
  {
    var q, r := y / 400, y % 400;
    DivBy(y + 400, 400, q + 1, r);
    if r == 0 {
      DivBy(y + 399, 400, q, 399);
      DivBy(y, 100, 4 * q, 0);
    } else {
      DivBy(y + 399, 400, q + 1, r - 1);
    }
  }

  lemma LeapStep(y: int)
    ensures LeapsBefore(y + 1) == LeapsBefore(y) + if IsLeap(y) then 1 else 0
  {
    Step4(y);
    Step100(y);
    Step400(y);
  }

  lemma YearLength(y: int)
    ensures DaysBeforeYear(y + 1) == DaysBeforeYear(y) + DaysInYear(y)
  {
    LeapStep(y);
  }

  lemma {:induction false} YearsIncrease(a: int, b: int)
    requires a < b
    ensures DaysBeforeYear(a + 1) <= DaysBeforeYear(b)
    decreases b - a
  {
    YearLength(a);
    if a + 1 < b {
      YearsIncrease(a + 1, b);
      YearLength(a + 1);
    }
  }

  function YearUp(y: int, n: int): (r: int)
    requires DaysBeforeYear(y) <= n
    ensures DaysBeforeYear(r) <= n < DaysBeforeYear(r + 1)
    decreases n - DaysBeforeYear(y)
  {
    YearLength(y);
    if n < DaysBeforeYear(y + 1) then y else YearUp(y + 1, n)
  }

  function YearDown(y: int, n: int): (r: int)
    requires n < DaysBeforeYear(y + 1)
    ensures DaysBeforeYear(r) <= n < DaysBeforeYear(r + 1)
    decreases DaysBeforeYear(y + 1) - n
  {
    YearLength(y);
    if DaysBeforeYear(y) <= n then y else YearDown(y - 1, n)
  }

  /** The year day number `n` (counted from 0000-01-01) falls in. */
  function YearOf(n: int): (r: int)
    ensures DaysBeforeYear(r) <= n < DaysBeforeYear(r + 1)
  {
    assert LeapsBefore(0) == 0;
    if n >= 0 then YearUp(0, n) else YearDown(-1, n)
  }

  lemma YearUnique(y: int, z: int, n: int)
    requires DaysBeforeYear(y) <= n < DaysBeforeYear(y + 1)
    requires DaysBeforeYear(z) <= n < DaysBeforeYear(z + 1)
    ensures y == z
  {
    if y < z {
      YearsIncrease(y, z);
    } else if z < y {
      YearsIncrease(z, y);
    }
  }

  lemma MonthsIncrease(y: int, a: int, b: int)
    requires 1 <= a < b <= 13
    ensures DaysBeforeMonth(y, a + 1) <= DaysBeforeMonth(y, b)
  {
  }

  /** The month of year `y` that holds day `doy` (counted from 0), searching from month `m` on. */
  function MonthFrom(y: int, m: int, doy: int): (r: int)
    requires 1 <= m <= 12 && DaysBeforeMonth(y, m) <= doy < DaysInYear(y)
    ensures m <= r <= 12 && DaysBeforeMonth(y, r) <= doy < DaysBeforeMonth(y, r + 1)
    decreases 12 - m
  {
    MonthLength(y, m);
    if m == 12 || doy < DaysBeforeMonth(y, m + 1) then m else MonthFrom(y, m + 1, doy)
  }

  /** Days from 1970-01-01 to the date (`Day(t)` of ECMA-262 for its midnight). */
  function DayNumber(dt: Date): int
    requires ValidDate(dt)
  {
    DaysBeforeYear(dt.year) + DaysBeforeMonth(dt.year, dt.month) + dt.day - 1 - EpochDays
  }

  /** The time value of midnight UTC at the start of the date. */
  function Midnight(dt: Date): int
    requires ValidDate(dt)
  {
    DayNumber(dt) * MsPerDay
  }

  /** The UTC civil date of a time value: the valid date whose day holds it. */
  function UtcDate(ms: int): (dt: Date)
    ensures ValidDate(dt)
    ensures DayNumber(dt) == ms / MsPerDay
    ensures Midnight(dt) <= ms < Midnight(dt) + MsPerDay
  {
    var days := ms / MsPerDay;
    var n := days + EpochDays;
    var y := YearOf(n);
    YearLength(y);
    var doy := n - DaysBeforeYear(y);
    MonthLength(y, 12);
    var m := MonthFrom(y, 1, doy);
    MonthLength(y, m);
    Date(y, m, doy - DaysBeforeMonth(y, m) + 1)
  }

  /** The day of the year a valid date is, counted from 0, lies within its year. */
  lemma DayOfYearBounds(dt: Date)
    requires ValidDate(dt)
    ensures var n := DayNumber(dt) + EpochDays;
            DaysBeforeYear(dt.year) <= n < DaysBeforeYear(dt.year + 1)
  {
    MonthLength(dt.year, dt.month);
    if dt.month < 12 {
      MonthsIncrease(dt.year, dt.month + 1, 13);
    }
    YearLength(dt.year);
  }

  lemma MonthUnique(y: int, a: int, b: int, doy: int)
    requires 1 <= a <= 12 && 1 <= b <= 12
    requires DaysBeforeMonth(y, a) <= doy < DaysBeforeMonth(y, a + 1)
    requires DaysBeforeMonth(y, b) <= doy < DaysBeforeMonth(y, b + 1)
    ensures a == b
  {
    if a < b {
      MonthsIncrease(y, a, b);
    } else if b < a {
      MonthsIncrease(y, b, a);
    }
  }

  /** Distinct valid dates have distinct day numbers. */
  lemma DayNumberInjective(a: Date, b: Date)
    requires ValidDate(a) && ValidDate(b) && DayNumber(a) == DayNumber(b)
    ensures a == b
  {
    var n := DayNumber(a) + EpochDays;
    DayOfYearBounds(a);
    DayOfYearBounds(b);
    YearUnique(a.year, b.year, n);
    var doy := n - DaysBeforeYear(a.year);
    MonthLength(a.year, a.month);
    MonthLength(a.year, b.month);
    MonthUnique(a.year, a.month, b.month, doy);
  }

  /** The date of its own midnight is the date itself. */
  lemma UtcDateOfMidnight(dt: Date)
    requires ValidDate(dt)
    ensures UtcDate(Midnight(dt)) == dt
  {
    var d := UtcDate(Midnight(dt));
    assert Midnight(dt) / MsPerDay == DayNumber(dt);
    DayNumberInjective(d, dt);
  }

  /** Every time value that is a midnight is the midnight of its own date. */
  lemma MidnightOfUtcDate(ms: int)
    requires ms % MsPerDay == 0
    ensures Midnight(UtcDate(ms)) == ms
  {
  }

  /** Time value 0 is the first instant of 1970-01-01, so `EpochDays` is the right offset. */
  lemma EpochIsNewYear1970()
    ensures UtcDate(0) == Date(1970, 1, 1)
  {
    assert DayNumber(Date(1970, 1, 1)) == 0;
    UtcDateOfMidnight(Date(1970, 1, 1));
  }

  // ---------------------------------------------------------------------------
  // The date forms of the ECMAScript Date Time String Format
  // ---------------------------------------------------------------------------

  /** `s[i..i + n]` consists of `n` decimal digits. */
  predicate DigitsAt(s: string, i: nat, n: nat) {
    i + n <= |s| && AllDigits(s[i..i + n])
  }

  /**
   * The date a string of the form `YYYY`, `YYYY-MM` or `YYYY-MM-DD` denotes
   * (a missing month or day is 01); `None` for any other string and for a
   * month or day out of range. Years of the expanded `±YYYYYY` form are not
   * included.
   */
  function ParseDateOnly(s: string): (r: Option<Date>)
    ensures r.Some? ==> ValidDate(r.value) && 0 <= r.value.year <= 9999
  {
    if !DigitsAt(s, 0, 4) then None
    else
      var y := ParseDigits(s[..4]);
      FourDigitsBound(s[..4]);
      if |s| == 4 then Some(Date(y, 1, 1))
      else if !(|s| >= 7 && s[4] == '-' && DigitsAt(s, 5, 2)) then None
      else
        var m := ParseDigits(s[5..7]);
        if !(1 <= m <= 12) then None
        else if |s| == 7 then Some(Date(y, m, 1))
        else if !(|s| == 10 && s[7] == '-' && DigitsAt(s, 8, 2)) then None
        else
          var d := ParseDigits(s[8..10]);
          if 1 <= d <= DaysInMonth(y, m) then Some(Date(y, m, d)) else None
  }

  /** Four digits never denote more than 9999. */
  lemma FourDigitsBound(t: string)
    requires |t| == 4 && AllDigits(t)
    ensures ParseDigits(t) <= 9999
  {
    DigitsBound(t);
  }
}
