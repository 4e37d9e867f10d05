/**
 * The proleptic Gregorian calendar as JavaScript's `Date` sees it in local time:
 * a date is a year, a month 0..11 and a day of the month. `MakeDate` is the
 * constructor `new Date(year, month, day)`, which carries excess months into
 * years and excess (or missing) days into neighbouring months.
 */
module Civil {

  datatype CivilDate = CivilDate(year: int, month: int, day: int)

  predicate IsLeapYear(y: int)
  {
    y % 4 == 0 && (y % 100 != 0 || y % 400 == 0)
  }

  /** Days in month `m` (0 = January) of year `y`. */
  function DaysInMonth(y: int, m: int): (n: int)
    requires 0 <= m < 12
    ensures 28 <= n <= 31
    ensures m == 1 ==> (n == 29 <==> IsLeapYear(y))
  {
    if m == 1 then (if IsLeapYear(y) then 29 else 28)
    else if m == 3 || m == 5 || m == 8 || m == 10 then 30
    else 31
  }

  predicate Valid(d: CivilDate)
  {
    0 <= d.month < 12 && 1 <= d.day <= DaysInMonth(d.year, d.month)
  }

  /** What `getFullYear`/`getMonth`/`getDate` can return. */
  type ValidDate = d: CivilDate | Valid(d) witness CivilDate(1970, 0, 1)

  /** The year and month a possibly out-of-range month number denotes. */
  function NormYear(y: int, m: int): int { y + m / 12 }
  function NormMonth(y: int, m: int): (r: int)
    ensures 0 <= r < 12
  {
    m % 12
  }

  /** `new Date(y, m, d)` read back through the calendar getters. */
  function MakeDate(y: int, m: int, d: int): (r: CivilDate)
    ensures Valid(r)
    ensures 1 <= d <= DaysInMonth(NormYear(y, m), NormMonth(y, m)) ==>
              r == CivilDate(NormYear(y, m), NormMonth(y, m), d)
    decreases if d < 1 then 1 - d else 0, d
  {
    var y1 := NormYear(y, m);
    var m1 := NormMonth(y, m);
    if d < 1 then
      var py := if m1 == 0 then y1 - 1 else y1;
      var pm := if m1 == 0 then 11 else m1 - 1;
      MakeDate(py, pm, d + DaysInMonth(py, pm))
    else if d > DaysInMonth(y1, m1) then
      MakeDate(y1, m1 + 1, d - DaysInMonth(y1, m1))
    else
      CivilDate(y1, m1, d)
  }

  /** The month before `(y, m)`, for a valid month. */
  function PrevMonth(y: int, m: int): (r: (int, int))
    requires 0 <= m < 12
    ensures 0 <= r.1 < 12
  {
    if m == 0 then (y - 1, 11) else (y, m - 1)
  }

  /** The month after `(y, m)`, for a valid month. */
  function NextMonth(y: int, m: int): (r: (int, int))
    requires 0 <= m < 12
    ensures 0 <= r.1 < 12
  {
    if m == 11 then (y + 1, 0) else (y, m + 1)
  }

  lemma NormalizesToPrev(y: int, m: int)
    requires 0 <= m < 12
    ensures NormYear(y, m - 1) == PrevMonth(y, m).0 && NormMonth(y, m - 1) == PrevMonth(y, m).1
  {
  }

  lemma NormalizesToNext(y: int, m: int)
    requires 0 <= m < 12
    ensures NormYear(y, m + 1) == NextMonth(y, m).0 && NormMonth(y, m + 1) == NextMonth(y, m).1
  {
  }

  /**
   * Day 0 of the following month is the last day of this month: the idiom
   * `new Date(y, m + 1, 0).getDate()` yields the Gregorian month length.
   */
  lemma DayZeroOfNextMonth(y: int, m: int)
    requires 0 <= m < 12
    ensures MakeDate(y, m + 1, 0) == CivilDate(y, m, DaysInMonth(y, m))
  {
    NormalizesToNext(y, m);
    var (y1, m1) := NextMonth(y, m);
    assert PrevMonth(y1, m1) == (y, m);
    assert MakeDate(y, m + 1, 0) == MakeDate(y, m, DaysInMonth(y, m));
  }

  /** Days in the years before March of year `y + 1`, counted from a fixed origin. */
  function YearDays(y: int): int
  {
    365 * y + y / 4 - y / 100 + y / 400
  }

  /** Days from 1 March to the first of the `mp`-th month after March. */
  function DaysBeforeMonthFromMarch(mp: int): int
    requires 0 <= mp < 12
  {
    [0, 31, 61, 92, 122, 153, 184, 214, 245, 275, 306, 337][mp]
  }

  /** Days since 1970-01-01 of a valid date. */
  function DaysFromCivil(d: CivilDate): int
    requires Valid(d)
  {
    // Count years from March, so that the leap day is the last day of a counted year.
    var y := if d.month < 2 then d.year - 1 else d.year;
    var mp := (d.month + 10) % 12;
    YearDays(y) + DaysBeforeMonthFromMarch(mp) + d.day - 1 - 719468
  }

  /** `getDay()`: 0 for Sunday .. 6 for Saturday. 1970-01-01 was a Thursday. */
  function Weekday(d: CivilDate): (w: int)
    requires Valid(d)
    ensures 0 <= w < 7
  {
    (DaysFromCivil(d) + 4) % 7
  }

  lemma DivStep4(y: int)
    ensures y / 4 - (y - 1) / 4 == if y % 4 == 0 then 1 else 0
  {
  }

  lemma DivStep100(y: int)
    ensures y / 100 - (y - 1) / 100 == if y % 100 == 0 then 1 else 0
  {
  }

  lemma DivStep400(y: int)
    ensures y / 400 - (y - 1) / 400 == if y % 400 == 0 then 1 else 0
  {
  }

  lemma Divides400(y: int)
    requires y % 400 == 0
    ensures y % 100 == 0
  {
    var q := y / 400;
    assert y == 100 * (4 * q);
  }

  lemma Divides100(y: int)
    requires y % 100 == 0
    ensures y % 4 == 0
  {
    var q := y / 100;
    assert y == 4 * (25 * q);
  }

  /** Between the Marches of `y - 1` and `y` the leap rule adds a day exactly in leap years. */
  lemma LeapCount(y: int)
    ensures (y / 4 - (y - 1) / 4) - (y / 100 - (y - 1) / 100) + (y / 400 - (y - 1) / 400)
            == if IsLeapYear(y) then 1 else 0
  {
    DivStep4(y);
    DivStep100(y);
    DivStep400(y);
    if y % 400 == 0 { Divides400(y); }
    if y % 100 == 0 { Divides100(y); }
  }

  lemma YearLength(y: int)
    ensures YearDays(y) - YearDays(y - 1) == if IsLeapYear(y) then 366 else 365
  {
    LeapCount(y);
  }

  /**
   * The day counts of consecutive months line up: the first of the next month
   * comes `DaysInMonth` days after the first of this one.
   */
  lemma FirstOfNextMonth(y: int, m: int)
    requires 0 <= m < 12
    ensures DaysFromCivil(MakeDate(y, m + 1, 1)) == DaysFromCivil(CivilDate(y, m, 1)) + DaysInMonth(y, m)
  {
    NormalizesToNext(y, m);
    var (ny, nm) := NextMonth(y, m);
    assert MakeDate(y, m + 1, 1) == CivilDate(ny, nm, 1);
    if m == 1 {
      FirstOfMarch(y);
    } else if m == 11 {
      FirstOfJanuary(y);
    } else {
      FirstOfOtherMonth(y, m);
    }
  }

  /** Leap days fall at the end of the counted year, so February's length shows up here. */
  lemma FirstOfMarch(y: int)
    ensures DaysFromCivil(CivilDate(y, 2, 1)) == DaysFromCivil(CivilDate(y, 1, 1)) + DaysInMonth(y, 1)
  {
    assert DaysFromCivil(CivilDate(y, 1, 1)) == YearDays(y - 1) + 337 - 719468;
    assert DaysFromCivil(CivilDate(y, 2, 1)) == YearDays(y) - 719468;
    YearLength(y);
  }

  lemma FirstOfJanuary(y: int)
    ensures DaysFromCivil(CivilDate(y + 1, 0, 1)) == DaysFromCivil(CivilDate(y, 11, 1)) + 31
  {
    assert DaysFromCivil(CivilDate(y, 11, 1)) == YearDays(y) + 275 - 719468;
    assert DaysFromCivil(CivilDate(y + 1, 0, 1)) == YearDays(y) + 306 - 719468;
  }

  lemma FirstOfOtherMonth(y: int, m: int)
    requires 0 <= m < 11 && m != 1
    ensures DaysFromCivil(CivilDate(y, m + 1, 1)) == DaysFromCivil(CivilDate(y, m, 1)) + DaysInMonth(y, m)
  {
    var mp := (m + 10) % 12;
    assert mp == (if m == 0 then 10 else m - 2);
    assert (m + 11) % 12 == mp + 1;
  }

  predicate SameDay(a: CivilDate, b: CivilDate)
  {
    a.day == b.day && a.month == b.month && a.year == b.year
  }

  predicate SameMonth(a: CivilDate, b: CivilDate)
  {
    a.month == b.month && a.year == b.year
  }
}
