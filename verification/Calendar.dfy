/** The proleptic Gregorian calendar of Python's `datetime`, years 1 to 9999, in microseconds. */
module Calendar {

  const MAXYEAR := 9999
  const DAY: int := 86_400_000_000

  predicate Leap(y: int) {
    y % 4 == 0 && (y % 100 != 0 || y % 400 == 0)
  }

  function YearLength(y: int): nat {
    if Leap(y) then 366 else 365
  }

  function MonthLength(y: int, m: int): nat {
    if m == 2 then (if Leap(y) then 29 else 28)
    else if m == 4 || m == 6 || m == 9 || m == 11 then 30
    else 31
  }

  /** Days from 1 January of year 1 to 1 January of year `y`. */
  function DaysBeforeYear(y: int): nat
    requires y >= 1
  {
    if y == 1 then 0 else DaysBeforeYear(y - 1) + YearLength(y - 1)
  }

  function DaysBeforeMonth(y: int, m: int): nat
    requires 1 <= m
  {
    if m == 1 then 0 else DaysBeforeMonth(y, m - 1) + MonthLength(y, m - 1)
  }

  datatype Fields = Fields(year: int, month: int, day: int, hour: int, minute: int, second: int, micro: int)

  predicate ValidDate(f: Fields) {
    1 <= f.year <= MAXYEAR && 1 <= f.month <= 12 && 1 <= f.day <= MonthLength(f.year, f.month)
  }

  predicate ValidTime(f: Fields) {
    0 <= f.hour < 24 && 0 <= f.minute < 60 && 0 <= f.second < 60 && 0 <= f.micro < 1_000_000
  }

  predicate Valid(f: Fields) {
    ValidDate(f) && ValidTime(f)
  }

  function DayNumber(f: Fields): int
    requires ValidDate(f)
  {
    DaysBeforeYear(f.year) + DaysBeforeMonth(f.year, f.month) + f.day - 1
  }

  function TimeOfDay(f: Fields): int {
    ((f.hour * 60 + f.minute) * 60 + f.second) * 1_000_000 + f.micro
  }

  /** Microseconds since the start of year 1. */
  function Instant(f: Fields): int
    requires ValidDate(f)
  {
    DayNumber(f) * DAY + TimeOfDay(f)
  }

  /** The first instant after the last representable one. */
  function End(): int {
    DaysBeforeYear(MAXYEAR + 1) * DAY
  }

  // ------------------------------------------------------------------ from days back to dates

  /** The year day `d` falls into, searching from year `y` on. */
  function YearOf(d: int, y: int): (r: int)
    requires y >= 1
    ensures r >= y
    decreases d - DaysBeforeYear(y)
  {
    if d < DaysBeforeYear(y) + YearLength(y) then y else YearOf(d, y + 1)
  }

  /** The month day `r` of year `y` falls into, searching from month `m` on. */
  function MonthOf(y: int, r: int, m: int): (n: int)
    requires 1 <= m <= 12
    ensures m <= n <= 12
    decreases 12 - m
  {
    if m == 12 || r < DaysBeforeMonth(y, m) + MonthLength(y, m) then m else MonthOf(y, r, m + 1)
  }

  lemma {:induction false} YearsGrow(a: int, b: int)
    requires 1 <= a <= b
    ensures DaysBeforeYear(a) + 365 * (b - a) <= DaysBeforeYear(b)
    ensures a < b ==> DaysBeforeYear(a) + YearLength(a) <= DaysBeforeYear(b)
  {
    if a < b {
      YearsGrow(a, b - 1);
    }
  }

  lemma {:induction false} YearOfFinds(d: int, y: int)
    requires y >= 1 && DaysBeforeYear(y) <= d
    ensures DaysBeforeYear(YearOf(d, y)) <= d < DaysBeforeYear(YearOf(d, y)) + YearLength(YearOf(d, y))
    decreases d - DaysBeforeYear(y)
  {
    if d >= DaysBeforeYear(y) + YearLength(y) {
      YearOfFinds(d, y + 1);
    }
  }

  /** Years do not overlap. */
  lemma {:induction false} YearIsUnique(d: int, a: int, b: int)
    requires a >= 1 && b >= 1
    requires DaysBeforeYear(a) <= d < DaysBeforeYear(a) + YearLength(a)
    requires DaysBeforeYear(b) <= d < DaysBeforeYear(b) + YearLength(b)
    ensures a == b
  {
    if a < b {
      YearsGrow(a, b);
    } else if b < a {
      YearsGrow(b, a);
    }
  }

  /** The day of the year each month starts on. */
  lemma {:induction false} MonthStarts(y: int)
    ensures var l := if Leap(y) then 1 else 0;
      && DaysBeforeMonth(y, 1) == 0 && DaysBeforeMonth(y, 2) == 31 && DaysBeforeMonth(y, 3) == 59 + l
      && DaysBeforeMonth(y, 4) == 90 + l && DaysBeforeMonth(y, 5) == 120 + l && DaysBeforeMonth(y, 6) == 151 + l
      && DaysBeforeMonth(y, 7) == 181 + l && DaysBeforeMonth(y, 8) == 212 + l && DaysBeforeMonth(y, 9) == 243 + l
      && DaysBeforeMonth(y, 10) == 273 + l && DaysBeforeMonth(y, 11) == 304 + l && DaysBeforeMonth(y, 12) == 334 + l
  {
    var l := if Leap(y) then 1 else 0;
    assert DaysBeforeMonth(y, 1) == 0;
    assert DaysBeforeMonth(y, 2) == 31;
    assert DaysBeforeMonth(y, 3) == 59 + l;
    assert DaysBeforeMonth(y, 4) == 90 + l;
    assert DaysBeforeMonth(y, 5) == 120 + l;
    assert DaysBeforeMonth(y, 6) == 151 + l;
    assert DaysBeforeMonth(y, 7) == 181 + l;
    assert DaysBeforeMonth(y, 8) == 212 + l;
    assert DaysBeforeMonth(y, 9) == 243 + l;
    assert DaysBeforeMonth(y, 10) == 273 + l;
    assert DaysBeforeMonth(y, 11) == 304 + l;
  }

  /** The twelve months make up the year. */
  lemma {:induction false} MonthsMakeYear(y: int)
    ensures DaysBeforeMonth(y, 12) + MonthLength(y, 12) == YearLength(y)
  {
    MonthStarts(y);
  }

  lemma {:induction false} MonthsGrow(y: int, a: int, b: int)
    requires 1 <= a < b
    ensures DaysBeforeMonth(y, a) + MonthLength(y, a) <= DaysBeforeMonth(y, b)
  {
    if a < b - 1 {
      MonthsGrow(y, a, b - 1);
    }
  }

  lemma {:induction false} MonthOfFinds(y: int, r: int, m: int)
    requires 1 <= m <= 12 && DaysBeforeMonth(y, m) <= r < YearLength(y)
    ensures DaysBeforeMonth(y, MonthOf(y, r, m)) <= r < DaysBeforeMonth(y, MonthOf(y, r, m)) + MonthLength(y, MonthOf(y, r, m))
    decreases 12 - m
  {
    MonthsMakeYear(y);
    if m < 12 && r >= DaysBeforeMonth(y, m) + MonthLength(y, m) {
      MonthOfFinds(y, r, m + 1);
    }
  }

  lemma {:induction false} MonthIsUnique(y: int, r: int, a: int, b: int)
    requires 1 <= a <= 12 && 1 <= b <= 12
    requires DaysBeforeMonth(y, a) <= r < DaysBeforeMonth(y, a) + MonthLength(y, a)
    requires DaysBeforeMonth(y, b) <= r < DaysBeforeMonth(y, b) + MonthLength(y, b)
    ensures a == b
  {
    if a < b {
      MonthsGrow(y, a, b);
    } else if b < a {
      MonthsGrow(y, b, a);
    }
  }

  // ------------------------------------------------------------------ closed forms

  /** Every fourth year is a leap year, save every hundredth, but every four hundredth is. */
  lemma {:induction false} YearsInClosedForm(y: int)
    requires y >= 1
    ensures DaysBeforeYear(y) == 365 * (y - 1) + (y - 1) / 4 - (y - 1) / 100 + (y - 1) / 400
  {
    if y > 1 {
      YearsInClosedForm(y - 1);
      LeapSteps(y - 1);
    }
  }

  lemma LeapSteps(y: int)
    ensures y / 4 - (y - 1) / 4 == if y % 4 == 0 then 1 else 0
    ensures y / 100 - (y - 1) / 100 == if y % 100 == 0 then 1 else 0
    ensures y / 400 - (y - 1) / 400 == if y % 400 == 0 then 1 else 0
    ensures (y % 400 == 0 ==> y % 100 == 0) && (y % 100 == 0 ==> y % 4 == 0)
  {
  }

  /** The range of Python's `datetime` is 3652059 days. */
  lemma LastDay()
    ensures End() == 3_652_059 * 86_400_000_000
  {
    YearsInClosedForm(MAXYEAR + 1);
  }

  /** Months from March start every 30.6 days, rounded. */
  function FromMarch(m: int): int {
    (153 * (if m <= 2 then m + 9 else m - 3) + 2) / 5 - 306
  }

  lemma {:induction false} MonthInClosedForm(y: int, m: int)
    requires 1 <= m <= 12
    ensures DaysBeforeMonth(y, m) == (if m <= 2 then 0 else YearLength(y)) + FromMarch(m)
  {
    MonthStarts(y);
    MarchTable();
  }

  lemma MarchTable()
    ensures FromMarch(1) == 0 && FromMarch(2) == 31 && FromMarch(3) == -306 && FromMarch(4) == -275
    ensures FromMarch(5) == -245 && FromMarch(6) == -214 && FromMarch(7) == -184 && FromMarch(8) == -153
    ensures FromMarch(9) == -122 && FromMarch(10) == -92 && FromMarch(11) == -61 && FromMarch(12) == -31
  {
  }

  /** The day number, counting years and months from March: no table of months, no leap test. */
  lemma {:induction false} DayInClosedForm(f: Fields)
    requires ValidDate(f)
    ensures var y := if f.month <= 2 then f.year - 1 else f.year;
      DayNumber(f) == 365 * y + y / 4 - y / 100 + y / 400 + FromMarch(f.month) + f.day - 1
  {
    MonthInClosedForm(f.year, f.month);
    YearsInClosedForm(f.year);
    YearsInClosedForm(f.year + 1);
    assert DaysBeforeYear(f.year + 1) == DaysBeforeYear(f.year) + YearLength(f.year);
  }

  // ------------------------------------------------------------------ the inverse

  function DateOf(d: int): Fields
    requires 0 <= d
  {
    var y := YearOf(d, 1);
    var r := d - DaysBeforeYear(y);
    var m := MonthOf(y, r, 1);
    Fields(y, m, r - DaysBeforeMonth(y, m) + 1, 0, 0, 0, 0)
  }

  function FieldsOf(i: int): Fields
    requires 0 <= i
  {
    var date := DateOf(i / DAY);
    var t := i % DAY;
    date.(hour := t / 3_600_000_000, minute := t / 60_000_000 % 60, second := t / 1_000_000 % 60, micro := t % 1_000_000)
  }

  lemma DateOfIsValid(d: int)
    requires 0 <= d < DaysBeforeYear(MAXYEAR + 1)
    ensures ValidDate(DateOf(d)) && DayNumber(DateOf(d)) == d
  {
    YearInRange(d);
    var y := YearOf(d, 1);
    MonthOfFinds(y, d - DaysBeforeYear(y), 1);
  }

  lemma {:induction false} YearInRange(d: int)
    requires 0 <= d < DaysBeforeYear(MAXYEAR + 1)
    ensures var y := YearOf(d, 1);
      1 <= y <= MAXYEAR && DaysBeforeYear(y) <= d < DaysBeforeYear(y) + YearLength(y)
  {
    YearOfFinds(d, 1);
    if YearOf(d, 1) > MAXYEAR {
      YearsGrow(MAXYEAR + 1, YearOf(d, 1));
    }
  }

  lemma DayOfYear(f: Fields)
    requires ValidDate(f)
    ensures 0 <= DaysBeforeMonth(f.year, f.month) + f.day - 1 < YearLength(f.year)
  {
    MonthsMakeYear(f.year);
    if f.month < 12 {
      MonthsGrow(f.year, f.month, 12);
    }
  }

  lemma {:induction false} DayInYears(f: Fields, next: int)
    requires ValidDate(f) && f.year < next
    ensures DaysBeforeYear(f.year) <= DayNumber(f) < DaysBeforeYear(f.year) + YearLength(f.year)
    ensures 0 <= DayNumber(f) < DaysBeforeYear(next)
  {
    DayOfYear(f);
    YearsGrow(f.year, next);
  }

  lemma MonthOfDay(f: Fields)
    requires ValidDate(f)
    ensures MonthOf(f.year, DaysBeforeMonth(f.year, f.month) + f.day - 1, 1) == f.month
  {
    var r := DaysBeforeMonth(f.year, f.month) + f.day - 1;
    DayOfYear(f);
    MonthOfFinds(f.year, r, 1);
    MonthIsUnique(f.year, r, MonthOf(f.year, r, 1), f.month);
  }

  lemma DateIsUnique(f: Fields)
    requires ValidDate(f)
    ensures 0 <= DayNumber(f) < DaysBeforeYear(MAXYEAR + 1)
    ensures var g := DateOf(DayNumber(f)); g.year == f.year && g.month == f.month && g.day == f.day
  {
    DayInYears(f, MAXYEAR + 1);
    YearOfFinds(DayNumber(f), 1);
    YearIsUnique(DayNumber(f), YearOf(DayNumber(f), 1), f.year);
    MonthOfDay(f);
  }

  /** Hours, minutes, seconds and microseconds of a time of day. */
  lemma TimeParts(h: int, m: int, s: int, u: int, t: int)
    requires 0 <= m < 60 && 0 <= s < 60 && 0 <= u < 1_000_000
    requires t == ((h * 60 + m) * 60 + s) * 1_000_000 + u
    ensures t / 3_600_000_000 == h && t / 60_000_000 % 60 == m && t / 1_000_000 % 60 == s && t % 1_000_000 == u
  {
    assert t / 1_000_000 == (h * 60 + m) * 60 + s;
    assert t / 60_000_000 == h * 60 + m;
  }

  lemma TimeSplits(t: int)
    requires 0 <= t < DAY
    ensures var h, m, s, u := t / 3_600_000_000, t / 60_000_000 % 60, t / 1_000_000 % 60, t % 1_000_000;
      0 <= h < 24 && t == ((h * 60 + m) * 60 + s) * 1_000_000 + u
  {
    assert t / 60_000_000 == (t / 1_000_000) / 60;
    assert t / 3_600_000_000 == (t / 60_000_000) / 60;
  }

  /** Every instant in range is the instant of its fields. */
  lemma InstantOfFields(i: int)
    requires 0 <= i < End()
    ensures Valid(FieldsOf(i)) && Instant(FieldsOf(i)) == i
  {
    DateOfIsValid(i / DAY);
    TimeSplits(i % DAY);
  }

  /** Every valid reading is the reading of its instant. */
  lemma FieldsOfInstant(f: Fields)
    requires Valid(f)
    ensures 0 <= Instant(f) < End() && FieldsOf(Instant(f)) == f
  {
    DateIsUnique(f);
    TimeParts(f.hour, f.minute, f.second, f.micro, TimeOfDay(f));
    assert 0 <= TimeOfDay(f) < DAY;
    assert Instant(f) / DAY == DayNumber(f) && Instant(f) % DAY == TimeOfDay(f);
  }
}
