/**
 * Calendar dates as Python's `datetime.date` handles them: the proleptic
 * Gregorian calendar, ordered by day number, with dateutil's `relativedelta`
 * month and year steps (which clamp the day to the length of the target month).
 */
module Dates {

  datatype CalendarDate = CalendarDate(year: int, month: int, day: int)

  predicate IsLeapYear(y: int)
  {
    y % 4 == 0 && (y % 100 != 0 || y % 400 == 0)
  }

  function DaysInMonth(y: int, m: int): (n: int)
    requires 1 <= m <= 12
    ensures 28 <= n <= 31
  {
    if m == 2 then (if IsLeapYear(y) then 29 else 28)
    else if m == 4 || m == 6 || m == 9 || m == 11 then 30
    else 31
  }

  predicate ValidDate(d: CalendarDate)
  {
    1 <= d.year && 1 <= d.month <= 12 && 1 <= d.day <= DaysInMonth(d.year, d.month)
  }

  /** A date Python can hold (no upper bound on the year, see README). */
  type Date = d: CalendarDate | ValidDate(d) witness CalendarDate(1, 1, 1)

  /** `datetime.date(1, 1, 1)`, the smallest date. */
  const MinDate: Date := CalendarDate(1, 1, 1)

  /** `datetime.date(datetime.MAXYEAR, 12, 31)`, the ingestion layer's "no end". */
  const MaxDate: Date := CalendarDate(9999, 12, 31)

  function DaysInYear(y: int): int
  {
    if IsLeapYear(y) then 366 else 365
  }

  function DaysBeforeYear(y: int): int
    requires 1 <= y
  {
    var p := y - 1;
    p * 365 + p / 4 - p / 100 + p / 400
  }

  function DaysBeforeMonth(y: int, m: int): int
    requires 1 <= m <= 13
  {
    var leap := if IsLeapYear(y) && m > 2 then 1 else 0;
    leap + (match m
      case 1 => 0 case 2 => 31 case 3 => 59 case 4 => 90 case 5 => 120 case 6 => 151
      case 7 => 181 case 8 => 212 case 9 => 243 case 10 => 273 case 11 => 304 case 12 => 334
      case _ => 365)
  }

  /** Day number, as `date.toordinal()`: 0001-01-01 is day 1. */
  function Ord(d: Date): int
  {
    DaysBeforeYear(d.year) + DaysBeforeMonth(d.year, d.month) + d.day
  }

  /** Day numbers start at 1. */
  lemma OrdIsPositive(d: Date)
    ensures Ord(d) >= 1
  {
  }

  /** Python's `a < b` on dates. */
  predicate Before(a: Date, b: Date)
  {
    Ord(a) < Ord(b)
  }

  /** Python's `a <= b` on dates. */
  predicate NotAfter(a: Date, b: Date)
  {
    Ord(a) <= Ord(b)
  }

  /** The order in which `date` compares its fields: year, then month, then day. */
  predicate CalendarBefore(a: CalendarDate, b: CalendarDate)
  {
    a.year < b.year
    || (a.year == b.year && a.month < b.month)
    || (a.year == b.year && a.month == b.month && a.day < b.day)
  }

  /** Python's `max(a, b)`: the first argument unless the second is later. */
  function Later(a: Date, b: Date): (r: Date)
    ensures NotAfter(a, r) && NotAfter(b, r)
    ensures r == a || r == b
  {
    if Before(a, b) then b else a
  }

  lemma MonthLengthsAddUp(y: int, m: int)
    requires 1 <= m <= 12
    ensures DaysBeforeMonth(y, m) + DaysInMonth(y, m) == DaysBeforeMonth(y, m + 1)
  {
  }

  lemma YearLengthsAddUp(y: int)
    requires 1 <= y
    ensures DaysBeforeYear(y + 1) == DaysBeforeYear(y) + DaysInYear(y)
  {
    var p := y - 1;
    assert (p + 1) / 4 == p / 4 + (if y % 4 == 0 then 1 else 0);
    assert (p + 1) / 100 == p / 100 + (if y % 100 == 0 then 1 else 0);
    assert (p + 1) / 400 == p / 400 + (if y % 400 == 0 then 1 else 0);
  }

  lemma {:induction false} LaterYearStartsLater(y1: int, y2: int)
    requires 1 <= y1 < y2
    ensures DaysBeforeYear(y1) + DaysInYear(y1) <= DaysBeforeYear(y2)
    decreases y2 - y1
  {
    YearLengthsAddUp(y1);
    if y1 + 1 < y2 {
      LaterYearStartsLater(y1 + 1, y2);
    }
  }

  /** The day number grows with the calendar order. */
  lemma OrdIncreases(a: Date, b: Date)
    requires CalendarBefore(a, b)
    ensures Ord(a) < Ord(b)
  {
    if a.year < b.year {
      LaterYearStartsLater(a.year, b.year);
      assert DaysBeforeMonth(a.year, a.month) + a.day <= DaysInYear(a.year) by {
        MonthLengthsAddUp(a.year, a.month);
        if a.month < 12 {
          assert DaysBeforeMonth(a.year, a.month + 1) <= DaysBeforeMonth(a.year, 12) + 31;
        }
      }
    } else if a.month < b.month {
      MonthLengthsAddUp(a.year, a.month);
      assert DaysBeforeMonth(a.year, a.month + 1) <= DaysBeforeMonth(a.year, b.month);
    }
  }

  /** Comparing day numbers is comparing dates field by field, as Python does. */
  lemma BeforeIsCalendarOrder(a: Date, b: Date)
    ensures Before(a, b) <==> CalendarBefore(a, b)
    ensures Ord(a) == Ord(b) <==> a == b
  {
    if CalendarBefore(a, b) {
      OrdIncreases(a, b);
    } else if a != b {
      OrdIncreases(b, a);
    }
  }

  /** `d + relativedelta(months=k)`: same day, clamped to the target month's length. */
  function AddMonths(d: Date, k: nat): (r: Date)
    ensures r.year * 12 + r.month == d.year * 12 + d.month + k
    ensures d.day <= DaysInMonth(r.year, r.month) ==> r.day == d.day
    ensures DaysInMonth(r.year, r.month) < d.day ==> r.day == DaysInMonth(r.year, r.month)
  {
    var total := d.month - 1 + k;
    var y := d.year + total / 12;
    var m := total % 12 + 1;
    CalendarDate(y, m, if d.day <= DaysInMonth(y, m) then d.day else DaysInMonth(y, m))
  }

  /** `d + relativedelta(years=n)`: same month and day, the day clamped for 29 February. */
  function AddYears(d: Date, n: nat): (r: Date)
    ensures r.year == d.year + n && r.month == d.month
    ensures if d.month == 2 && d.day == 29 && !IsLeapYear(d.year + n) then r.day == 28 else r.day == d.day
  {
    var y := d.year + n;
    CalendarDate(y, d.month, if d.day <= DaysInMonth(y, d.month) then d.day else DaysInMonth(y, d.month))
  }

  /** `d + timedelta(days=1)` (also `relativedelta(days=+1)`). */
  function NextDay(d: Date): (r: Date)
    ensures Ord(r) == Ord(d) + 1
  {
    if d.day < DaysInMonth(d.year, d.month) then CalendarDate(d.year, d.month, d.day + 1)
    else if d.month < 12 then
      MonthLengthsAddUp(d.year, d.month);
      CalendarDate(d.year, d.month + 1, 1)
    else
      YearLengthsAddUp(d.year);
      CalendarDate(d.year + 1, 1, 1)
  }

  /** A positive month step moves strictly forward. */
  lemma AddMonthsAdvances(d: Date, k: nat)
    requires 1 <= k
    ensures Before(d, AddMonths(d, k))
  {
    BeforeIsCalendarOrder(d, AddMonths(d, k));
  }

  /** A year step moves forward, strictly for a positive number of years. */
  lemma AddYearsAdvances(d: Date, n: nat)
    ensures NotAfter(d, AddYears(d, n))
    ensures 1 <= n ==> Before(d, AddYears(d, n))
  {
    BeforeIsCalendarOrder(d, AddYears(d, n));
  }

  /** dateutil's clamping: 31 January plus one month is 28 February. */
  lemma EndOfJanuaryPlusOneMonth()
    ensures AddMonths(CalendarDate(2010, 1, 31), 1) == CalendarDate(2010, 2, 28)
  {
  }

  /** 29 February plus 65 years is 28 February (the 65th year is never a leap year). */
  lemma LeapDayPlusYears(d: Date)
    requires d.month == 2 && d.day == 29
    ensures AddYears(d, 65) == CalendarDate(d.year + 65, 2, 28)
    ensures AddYears(d, 75) == CalendarDate(d.year + 75, 2, 28)
  {
  }

  /** The decimal digits of `n`, most significant first. */
  function Digits(n: nat): (r: string)
    ensures |r| >= 1
    ensures forall i :: 0 <= i < |r| ==> '0' <= r[i] <= '9'
  {
    var last := [(48 + n % 10) as char];
    if n < 10 then last else Digits(n / 10) + last
  }

  /** `"%0*d" % (width, n)`: the digits of `n`, left-padded with zeros. */
  function ZeroPadded(n: nat, width: nat): (r: string)
    ensures |r| >= width
  {
    var ds := Digits(n);
    if |ds| >= width then ds else seq(width - |ds|, _ => '0') + ds
  }

  /** `str(d)`, the ISO form `YYYY-MM-DD`. */
  function IsoFormat(d: Date): string
  {
    ZeroPadded(d.year, 4) + "-" + ZeroPadded(d.month, 2) + "-" + ZeroPadded(d.day, 2)
  }
}
