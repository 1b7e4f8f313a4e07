/**
 The calendar arithmetic of `Date`: the two closed forms between a Gregorian date and a
 Julian day number, against the leap-year calendar that the unit test walks day by day.
 */
module Date {

  datatype YearMonthDay = YearMonthDay(year: int, month: int, day: int)

  /** C++ integer division: the quotient is rounded toward zero. */
  function Quot(a: int, b: int): int
    requires b > 0
  {
    if a >= 0 then a / b else -(-a / b)
  }

  /** C++ remainder: it takes the sign of the dividend. */
  function Rem(a: int, b: int): int
    requires b > 0
  {
    a - b * Quot(a, b)
  }

  const JULIAN_DAY_OF_1970_01_01 := JulianDayNumber(YearMonthDay(1970, 1, 1))
  const DAYS_PER_WEEK := 7

  function JulianDayNumber(date: YearMonthDay): int {
    var a := Quot(14 - date.month, 12);
    var y := date.year + 4800 - a;
    var m := date.month + 12 * a - 3;
    date.day + Quot(153 * m + 2, 5) + y * 365 + Quot(y, 4) - Quot(y, 100) + Quot(y, 400) - 32045
  }

  function FromJulianDayNumber(jdn: int): YearMonthDay {
    var a := jdn + 32044;
    var b := Quot(4 * a + 3, 146097);
    var c := a - Quot(b * 146097, 4);
    var d := Quot(4 * c + 3, 1461);
    var e := c - Quot(1461 * d, 4);
    var m := Quot(5 * e + 2, 153);
    YearMonthDay(b * 100 + d - 4800 + Quot(m, 10), m + 3 - 12 * Quot(m, 10), e - Quot(153 * m + 2, 5) + 1)
  }

  function WeekDay(jdn: int): int {
    Rem(jdn + 1, DAYS_PER_WEEK)
  }

  // ----- The reference calendar -----

  predicate IsLeapYear(year: int) {
    year % 400 == 0 || (year % 100 != 0 && year % 4 == 0)
  }

  function DaysOfMonth(year: int, month: int): int
    requires 1 <= month <= 12
  {
    if month == 2 then (if IsLeapYear(year) then 29 else 28)
    else if month in {4, 6, 9, 11} then 30
    else 31
  }

  predicate ValidDate(date: YearMonthDay) {
    1 <= date.month <= 12 && 1 <= date.day <= DaysOfMonth(date.year, date.month)
  }

  function NextDay(date: YearMonthDay): YearMonthDay
    requires ValidDate(date)
  {
    if date.day < DaysOfMonth(date.year, date.month) then date.(day := date.day + 1)
    else if date.month < 12 then YearMonthDay(date.year, date.month + 1, 1)
    else YearMonthDay(date.year + 1, 1, 1)
  }

  predicate Before(x: YearMonthDay, y: YearMonthDay) {
    x.year < y.year || (x.year == y.year && (x.month < y.month || (x.month == y.month && x.day < y.day)))
  }

  /** The first day of the range in which C++ division agrees with the formulas' floor division. */
  const FIRST_DAY := YearMonthDay(-4800, 3, 1)
  const FIRST_JULIAN_DAY := -32044

  predicate InRange(date: YearMonthDay) {
    date == FIRST_DAY || Before(FIRST_DAY, date)
  }

  /** The calendar as a reader would count it: one day after another from FIRST_DAY. */
  function DayAt(n: nat): (date: YearMonthDay)
    ensures ValidDate(date) && InRange(date)
  {
    if n == 0 then FIRST_DAY else NextDay(DayAt(n - 1))
  }

  // ----- Years that start in March -----

  // Both formulas count years from 1 March, so that a leap day is the last day of its year.
  // `y` is the March year from -4800, `m` the month in it (0 is March).

  function DaysBeforeYear(y: int): int {
    365 * y + y / 4 - y / 100 + y / 400
  }

  function DaysBeforeMonth(m: int): int {
    (153 * m + 2) / 5
  }

  function MarchYear(date: YearMonthDay): int {
    if date.month <= 2 then date.year + 4799 else date.year + 4800
  }

  function MarchMonth(date: YearMonthDay): int {
    if date.month <= 2 then date.month + 9 else date.month - 3
  }

  /** A month ends where the next one starts; February ends with its year. */
  lemma MonthLength(date: YearMonthDay)
    requires 1 <= date.month <= 12
    ensures var m := MarchMonth(date);
            && 0 <= m <= 11
            && (m < 11 ==> DaysOfMonth(date.year, date.month) == DaysBeforeMonth(m + 1) - DaysBeforeMonth(m))
            && (m == 11 ==> DaysOfMonth(date.year, date.month) == (if IsLeapYear(date.year) then 29 else 28)
                            && DaysBeforeMonth(m) == 337)
  {
    var m := MarchMonth(date);
    assert m in {0, 1, 2, 3, 4, 5, 6, 7, 8, 9, 10, 11};
  }

  lemma YearLength(y: int)
    ensures DaysBeforeYear(y + 1) - DaysBeforeYear(y) == (if IsLeapYear(y - 4799) then 366 else 365)
  {
    QuotientStep(y, 4);
    QuotientStep(y, 100);
    QuotientStep(y, 400);
    SameRemainder(y, 4);
    SameRemainder(y, 100);
    SameRemainder(y, 400);
  }

  /** 4800 years are whole leap-year cycles. */
  lemma SameRemainder(y: int, k: int)
    requires k in {4, 100, 400}
    ensures (y - 4799) % k == (y + 1) % k
  {
  }

  lemma QuotientStep(y: int, k: int)
    requires k in {4, 100, 400}
    ensures (y + 1) / k - y / k == (if (y + 1) % k == 0 then 1 else 0)
  {
  }

  /** The formula for the day number, in the terms of the March year. */
  lemma JulianDayNumberInRange(date: YearMonthDay)
    requires ValidDate(date) && InRange(date)
    ensures MarchYear(date) >= 0
    ensures JulianDayNumber(date) + 32045 == DaysBeforeYear(MarchYear(date)) + DaysBeforeMonth(MarchMonth(date)) + date.day
  {
    assert Quot(14 - date.month, 12) == (if date.month <= 2 then 1 else 0);
  }

  // ----- The inverse -----

  lemma CenturySplit(y: nat)
    ensures DaysBeforeYear(y) == 146097 * (y / 100) / 4 + 1461 * (y % 100) / 4
  {
    var b, d := y / 100, y % 100;
    assert y == 100 * b + d;
    assert y / 4 == 25 * b + d / 4;
    assert y / 400 == b / 4;
    assert 146097 * b / 4 == 36524 * b + b / 4;
    assert 1461 * d / 4 == 365 * d + d / 4;
  }

  /** The year that a day number falls in, found by scaling: this is what `4 * a + 3` is for. */
  lemma ScaledQuotient(p: int, n: int, x: int)
    requires p / 4 <= x < (p + n) / 4
    ensures p <= 4 * x + 3 < p + n
  {
  }

  lemma YearOfDay(y: nat, dayOfYear: int)
    requires 0 <= dayOfYear < DaysBeforeYear(y + 1) - DaysBeforeYear(y)
    ensures var a := DaysBeforeYear(y) + dayOfYear;
            var b := (4 * a + 3) / 146097;
            var c := a - b * 146097 / 4;
            var d := (4 * c + 3) / 1461;
            b == y / 100 && c >= 0 && d == y % 100 && c - 1461 * d / 4 == dayOfYear
  {
    var b, d := y / 100, y % 100;
    var c := 1461 * d / 4 + dayOfYear;
    var a := DaysBeforeYear(y) + dayOfYear;
    CenturySplit(y);
    CenturySplit(y + 1);
    assert a == 146097 * b / 4 + c;
    if d == 99 {
      assert (y + 1) / 100 == b + 1 && (y + 1) % 100 == 0;
    } else {
      assert (y + 1) / 100 == b && (y + 1) % 100 == d + 1;
    }
    assert d == 99 || c < 1461 * (d + 1) / 4;
    assert a < 146097 * (b + 1) / 4;
    ScaledQuotient(146097 * b, 146097, a);
    assert d == 99 ==> c < 146097 * (b + 1) / 4 - 146097 * b / 4 <= 36525;
    ScaledQuotient(1461 * d, 1461, c);
  }

  lemma MonthOfDay(m: int, dayOfMonth: int)
    requires 0 <= m <= 11 && 0 <= dayOfMonth
    requires DaysBeforeMonth(m) + dayOfMonth < (if m == 11 then 366 else DaysBeforeMonth(m + 1))
    ensures (5 * (DaysBeforeMonth(m) + dayOfMonth) + 2) / 153 == m
  {
  }

  /** The date with the given March year, month in it and day of that month. */
  function Civil(y: int, m: int, day: int): YearMonthDay {
    if m < 10 then YearMonthDay(y - 4800, m + 3, day) else YearMonthDay(y - 4799, m - 9, day)
  }

  /** From FIRST_JULIAN_DAY on no intermediate value is negative, so C++ division is floor division. */
  lemma DecodeInSteps(jdn: int, b: nat, c: nat, d: nat, e: nat)
    requires jdn >= FIRST_JULIAN_DAY
    requires b == (4 * (jdn + 32044) + 3) / 146097 && c == jdn + 32044 - b * 146097 / 4
    requires d == (4 * c + 3) / 1461 && e == c - 1461 * d / 4
    ensures e <= 365 ==>
              var m := (5 * e + 2) / 153;
              FromJulianDayNumber(jdn) == Civil(100 * b + d, m, e - DaysBeforeMonth(m) + 1)
  {
    assert Quot(4 * (jdn + 32044) + 3, 146097) == b;
    assert Quot(b * 146097, 4) == b * 146097 / 4;
    assert Quot(4 * c + 3, 1461) == d;
    assert Quot(1461 * d, 4) == 1461 * d / 4;
    var m := Quot(5 * e + 2, 153);
    assert e <= 365 ==> 0 <= m <= 11;
    assert e <= 365 ==> Quot(m, 10) == (if m < 10 then 0 else 1);
  }

  lemma DecodeYear(jdn: int, y: nat, dayOfYear: nat)
    requires jdn == DaysBeforeYear(y) + dayOfYear - 32044
    requires dayOfYear < DaysBeforeYear(y + 1) - DaysBeforeYear(y)
    ensures dayOfYear <= 365
    ensures var m := (5 * dayOfYear + 2) / 153;
            FromJulianDayNumber(jdn) == Civil(y, m, dayOfYear - DaysBeforeMonth(m) + 1)
  {
    hide FromJulianDayNumber, Civil, DaysBeforeMonth;
    var a := jdn + 32044;
    var b := (4 * a + 3) / 146097;
    var c := a - b * 146097 / 4;
    var d := (4 * c + 3) / 1461;
    YearOfDay(y, dayOfYear);
    assert dayOfYear <= 365 && a >= 0 by { YearLength(y); }
    DecodeInSteps(jdn, b, c, d, dayOfYear);
    assert y == 100 * b + d;
  }

  /** The day number determines the date. */
  lemma DateRoundTrip(date: YearMonthDay)
    requires ValidDate(date) && InRange(date)
    ensures JulianDayNumber(date) >= FIRST_JULIAN_DAY
    ensures FromJulianDayNumber(JulianDayNumber(date)) == date
  {
    hide FromJulianDayNumber, JulianDayNumber;
    var y, m := MarchYear(date), MarchMonth(date);
    var dayOfYear := DaysBeforeMonth(m) + date.day - 1;
    MonthLength(date);
    YearLength(y);
    JulianDayNumberInRange(date);
    MonthOfDay(m, date.day - 1);
    DecodeYear(JulianDayNumber(date), y, dayOfYear);
    assert date == Civil(y, m, date.day);
  }

  // ----- The walk -----

  lemma NextDayIsNextNumber(date: YearMonthDay)
    requires ValidDate(date) && InRange(date)
    ensures JulianDayNumber(NextDay(date)) == JulianDayNumber(date) + 1
  {
    hide JulianDayNumber;
    JulianDayNumberInRange(date);
    JulianDayNumberInRange(NextDay(date));
    MonthLength(date);
    YearLength(MarchYear(date));
  }

  /** The closed forms compute what counting days computes. */
  lemma {:induction false} ClosedFormsCountDays(n: nat)
    ensures JulianDayNumber(DayAt(n)) == FIRST_JULIAN_DAY + n
    ensures FromJulianDayNumber(FIRST_JULIAN_DAY + n) == DayAt(n)
  {
    hide JulianDayNumber, FromJulianDayNumber;
    if n == 0 {
      FirstDayNumber();
    } else {
      ClosedFormsCountDays(n - 1);
      NextDayIsNextNumber(DayAt(n - 1));
    }
    DateRoundTrip(DayAt(n));
  }

  lemma FirstDayNumber()
    ensures JulianDayNumber(FIRST_DAY) == FIRST_JULIAN_DAY
  {
  }

  /** A later date has a greater number, and the other way round. */
  lemma NumbersKeepOrder(x: YearMonthDay, y: YearMonthDay)
    requires ValidDate(x) && InRange(x) && ValidDate(y) && InRange(y)
    ensures Before(x, y) <==> JulianDayNumber(x) < JulianDayNumber(y)
  {
    hide FromJulianDayNumber;
    if Before(x, y) {
      EarlierHasSmallerNumber(x, y);
    } else if Before(y, x) {
      EarlierHasSmallerNumber(y, x);
    }
  }

  lemma EarlierHasSmallerNumber(x: YearMonthDay, y: YearMonthDay)
    requires ValidDate(x) && InRange(x) && ValidDate(y) && InRange(y) && Before(x, y)
    ensures JulianDayNumber(x) < JulianDayNumber(y)
  {
    hide JulianDayNumber;
    JulianDayNumberInRange(x);
    JulianDayNumberInRange(y);
    MonthLength(x);
    MonthLength(y);
    if MarchYear(x) < MarchYear(y) {
      YearLength(MarchYear(x));
      YearsAreMonotone(MarchYear(x) + 1, MarchYear(y));
    }
  }

  lemma YearsAreMonotone(y: int, z: int)
    requires y <= z
    ensures DaysBeforeYear(y) <= DaysBeforeYear(z)
  {
  }

  // ----- Where the formulas stop working -----

  /** C++ division of a number that is not positive: the quotient is the ceiling. */
  lemma QuotIsCeiling(x: int, n: int)
    requires x <= 0 && n > 0
    ensures Quot(x, n) <= 0 && x <= n * Quot(x, n) < x + n
  {
    assert -x == n * (-x / n) + (-x % n);
  }

  /** Before FIRST_JULIAN_DAY the decoded day of the month is never positive. */
  lemma DecodedDayBeforeRange(jdn: int)
    requires jdn < FIRST_JULIAN_DAY
    ensures FromJulianDayNumber(jdn).day <= 0
  {
    hide Quot;
    var a := jdn + 32044;
    QuotIsCeiling(4 * a + 3, 146097);
    var b := Quot(4 * a + 3, 146097);
    QuotIsCeiling(b * 146097, 4);
    var c := a - Quot(b * 146097, 4);
    QuotIsCeiling(4 * c + 3, 1461);
    var d := Quot(4 * c + 3, 1461);
    QuotIsCeiling(1461 * d, 4);
    var e := c - Quot(1461 * d, 4);
    assert e < 0;
    QuotIsCeiling(5 * e + 2, 153);
    var m := Quot(5 * e + 2, 153);
    if m < 0 {
      QuotIsCeiling(153 * m + 2, 5);
    } else {
      TwoFifths();
    }
  }

  lemma TwoFifths()
    ensures Quot(2, 5) == 0
  {
  }

  lemma NumberBeforeRange(date: YearMonthDay)
    requires ValidDate(date) && !InRange(date)
    ensures JulianDayNumber(date) < FIRST_JULIAN_DAY || date == YearMonthDay(-4800, 2, 29)
  {
    var y, m := MarchYear(date), MarchMonth(date);
    MonthLength(date);
    assert m in {0, 1, 2, 3, 4, 5, 6, 7, 8, 9, 10, 11};
    assert date.day + DaysBeforeMonth(m) <= 366;
    assert y <= -1;
    NegativeYears(y);
  }

  lemma NegativeYears(y: int)
    requires y < 0
    ensures Quot(y, 4) - Quot(y, 100) + Quot(y, 400) <= 0
  {
    var p := -y;
    assert p / 100 <= p / 4;
  }

  /** A valid date survives the two conversions exactly from -4800-03-01 on. */
  lemma DateRoundTripExactly(date: YearMonthDay)
    requires ValidDate(date)
    ensures FromJulianDayNumber(JulianDayNumber(date)) == date <==> InRange(date)
  {
    hide JulianDayNumber, FromJulianDayNumber;
    if InRange(date) {
      DateRoundTrip(date);
    } else {
      NumberBeforeRange(date);
      if date == YearMonthDay(-4800, 2, 29) {
        LeapDayBeforeRange();
      } else {
        DecodedDayBeforeRange(JulianDayNumber(date));
      }
    }
  }

  /** The day before FIRST_DAY is encoded like FIRST_DAY itself. */
  lemma LeapDayBeforeRange()
    ensures JulianDayNumber(YearMonthDay(-4800, 2, 29)) == FIRST_JULIAN_DAY
    ensures FromJulianDayNumber(FIRST_JULIAN_DAY) == FIRST_DAY
  {
    hide FromJulianDayNumber;
    FirstDayNumber();
    DateRoundTrip(FIRST_DAY);
  }

  /** A day number decodes to a valid date that maps back to it exactly from -32044 on. */
  lemma NumberRoundTripExactly(jdn: int)
    ensures ValidDate(FromJulianDayNumber(jdn)) <==> jdn >= FIRST_JULIAN_DAY
    ensures jdn >= FIRST_JULIAN_DAY ==>
              InRange(FromJulianDayNumber(jdn)) && JulianDayNumber(FromJulianDayNumber(jdn)) == jdn
  {
    hide JulianDayNumber, FromJulianDayNumber;
    if jdn >= FIRST_JULIAN_DAY {
      ClosedFormsCountDays(jdn - FIRST_JULIAN_DAY);
    } else {
      DecodedDayBeforeRange(jdn);
    }
  }

  /** 32-bit `int` holds every intermediate value of the decoding up to this day, in the year 1465001. */
  const LAST_JULIAN_DAY := 536_838_867

  predicate FitsInt32(x: int) {
    -0x8000_0000 <= x < 0x8000_0000
  }

  lemma DecodingFitsInt32(jdn: int)
    requires FIRST_JULIAN_DAY <= jdn <= LAST_JULIAN_DAY
    ensures var a := jdn + 32044;
            var b := Quot(4 * a + 3, 146097);
            var c := a - Quot(b * 146097, 4);
            var d := Quot(4 * c + 3, 1461);
            var e := c - Quot(1461 * d, 4);
            FitsInt32(4 * a + 3) && FitsInt32(b * 146097) && FitsInt32(4 * c + 3) && FitsInt32(1461 * d) && FitsInt32(5 * e + 2)
    ensures jdn == LAST_JULIAN_DAY ==> !FitsInt32(4 * (jdn + 1 + 32044) + 3)
  {
  }

  // ----- Days of the week -----

  /** Consecutive days have consecutive weekdays, and 1970-01-01 was a Thursday. */
  lemma WeekDaysCycle(jdn: int)
    ensures 0 <= WeekDay(jdn) < DAYS_PER_WEEK <==> jdn >= -1 || jdn % 7 == 6
    ensures jdn >= -1 ==> WeekDay(jdn + 1) == (WeekDay(jdn) + 1) % 7
    ensures WeekDay(JULIAN_DAY_OF_1970_01_01) == 4
  {
  }
}
