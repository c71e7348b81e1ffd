/**
 * The proleptic Gregorian calendar: the day-by-day enumeration that the tracker
 * obtains from a daily date range, written out as an explicit successor function,
 * and the "date + i days" arithmetic the forecasting scripts use.
 */
module Calendar {

  datatype Date = Date(year: int, month: int, day: int)

  predicate IsLeapYear(y: int) {
    y % 4 == 0 && (y % 100 != 0 || y % 400 == 0)
  }

  function DaysInYear(y: int): int {
    if IsLeapYear(y) then 366 else 365
  }

  function DaysInMonth(y: int, m: int): int
    requires 1 <= m <= 12
  {
    if m == 2 then (if IsLeapYear(y) then 29 else 28)
    else if m == 4 || m == 6 || m == 9 || m == 11 then 30
    else 31
  }

  /** A real calendar day from year 1 onwards. */
  predicate Valid(d: Date) {
    d.year >= 1 && 1 <= d.month <= 12 && 1 <= d.day <= DaysInMonth(d.year, d.month)
  }

  /** Calendar order: `a` is strictly earlier than `b`. */
  predicate Before(a: Date, b: Date) {
    a.year < b.year ||
    (a.year == b.year && (a.month < b.month || (a.month == b.month && a.day < b.day)))
  }

  /** The following calendar day. */
  function NextDay(d: Date): (r: Date)
    requires Valid(d)
    ensures Valid(r) && Before(d, r)
  {
    if d.day < DaysInMonth(d.year, d.month) then Date(d.year, d.month, d.day + 1)
    else if d.month < 12 then Date(d.year, d.month + 1, 1)
    else Date(d.year + 1, 1, 1)
  }

  /** NextDay is the successor in calendar order: exactly the dates after `d`
      are the dates from NextDay(d) on, so no day is skipped. */
  lemma NextDayIsSuccessor(d: Date, e: Date)
    requires Valid(d) && Valid(e)
    ensures Before(d, e) <==> !Before(e, NextDay(d))
  {
  }

  // Day numbers: day 1 is 0001-01-01.

  function DaysBeforeYear(y: int): int
    requires y >= 1
  {
    365 * (y - 1) + (y - 1) / 4 - (y - 1) / 100 + (y - 1) / 400
  }

  function DaysBeforeMonth(y: int, m: int): int
    requires 1 <= m <= 12
  {
    if m == 1 then 0 else DaysBeforeMonth(y, m - 1) + DaysInMonth(y, m - 1)
  }

  function DayNumber(d: Date): int
    requires Valid(d)
  {
    DaysBeforeYear(d.year) + DaysBeforeMonth(d.year, d.month) + d.day
  }

  // Stepping a year on changes each quotient by one exactly at a multiple.

  lemma QuotientStep4(y: int)
    ensures y / 4 == (y - 1) / 4 + (if y % 4 == 0 then 1 else 0)
  {
  }

  lemma QuotientStep100(y: int)
    ensures y / 100 == (y - 1) / 100 + (if y % 100 == 0 then 1 else 0)
  {
  }

  lemma QuotientStep400(y: int)
    ensures y / 400 == (y - 1) / 400 + (if y % 400 == 0 then 1 else 0)
  {
  }

  lemma YearLength(y: int)
    requires y >= 1
    ensures DaysBeforeYear(y + 1) == DaysBeforeYear(y) + DaysInYear(y)
  {
    QuotientStep4(y);
    QuotientStep100(y);
    QuotientStep400(y);
    var a, b, c := y / 4 - (y - 1) / 4, y / 100 - (y - 1) / 100, y / 400 - (y - 1) / 400;
    if y % 400 == 0 {
      MultipleDivides(y, 100, 4);
      MultipleDivides(y, 4, 100);
      assert a == 1 && b == 1 && c == 1;
    } else if y % 100 == 0 {
      MultipleDivides(y, 25, 4);
      assert a == 1 && b == 1 && c == 0;
    } else {
      assert b == 0 && c == 0;
    }
    assert DaysBeforeYear(y + 1) - DaysBeforeYear(y) == 365 + a - b + c;
  }

  /** A multiple of p * q is a multiple of q. */
  lemma MultipleDivides(y: int, p: int, q: int)
    requires p > 0 && q > 0 && y % (p * q) == 0
    ensures y % q == 0
  {
    var t := y / (p * q);
    assert y == (p * q) * t;
    assert y == q * (p * t);
  }

  lemma DaysBeforeDecember(y: int)
    ensures DaysBeforeMonth(y, 12) + 31 == DaysInYear(y)
  {
    assert DaysBeforeMonth(y, 2) == 31;
    assert DaysBeforeMonth(y, 3) == 31 + DaysInMonth(y, 2);
    assert DaysBeforeMonth(y, 4) == 62 + DaysInMonth(y, 2);
    assert DaysBeforeMonth(y, 5) == 92 + DaysInMonth(y, 2);
    assert DaysBeforeMonth(y, 6) == 123 + DaysInMonth(y, 2);
    assert DaysBeforeMonth(y, 7) == 153 + DaysInMonth(y, 2);
    assert DaysBeforeMonth(y, 8) == 184 + DaysInMonth(y, 2);
    assert DaysBeforeMonth(y, 9) == 215 + DaysInMonth(y, 2);
    assert DaysBeforeMonth(y, 10) == 245 + DaysInMonth(y, 2);
    assert DaysBeforeMonth(y, 11) == 276 + DaysInMonth(y, 2);
  }

  /** Each step of NextDay advances the day number by exactly one. */
  lemma NextDayNumber(d: Date)
    requires Valid(d)
    ensures DayNumber(NextDay(d)) == DayNumber(d) + 1
  {
    if d.day == DaysInMonth(d.year, d.month) && d.month == 12 {
      YearLength(d.year);
      DaysBeforeDecember(d.year);
    }
  }

  lemma {:induction false} MonthsAdvance(y: int, m1: int, m2: int)
    requires 1 <= m1 < m2 <= 12
    ensures DaysBeforeMonth(y, m1) + DaysInMonth(y, m1) <= DaysBeforeMonth(y, m2)
    decreases m2
  {
    if m1 < m2 - 1 {
      MonthsAdvance(y, m1, m2 - 1);
    }
  }

  lemma {:induction false} YearsAdvance(y1: int, y2: int)
    requires 1 <= y1 < y2
    ensures DaysBeforeYear(y1) + DaysInYear(y1) <= DaysBeforeYear(y2)
    decreases y2
  {
    YearLength(y2 - 1);
    if y1 < y2 - 1 {
      YearsAdvance(y1, y2 - 1);
    }
  }

  /** The day of the year lies between 1 and the length of the year. */
  lemma DayOfYearBounds(d: Date)
    requires Valid(d)
    ensures 1 <= DaysBeforeMonth(d.year, d.month) + d.day <= DaysInYear(d.year)
  {
    if d.month < 12 {
      MonthsAdvance(d.year, d.month, 12);
    }
    if d.month > 1 {
      MonthsAdvance(d.year, 1, d.month);
    }
    DaysBeforeDecember(d.year);
  }

  /** Day numbers order valid dates exactly as the calendar does. */
  lemma DayNumberOrder(a: Date, b: Date)
    requires Valid(a) && Valid(b)
    ensures Before(a, b) <==> DayNumber(a) < DayNumber(b)
    ensures a == b <==> DayNumber(a) == DayNumber(b)
  {
    DayOfYearBounds(a);
    DayOfYearBounds(b);
    if a.year < b.year {
      YearsAdvance(a.year, b.year);
    } else if b.year < a.year {
      YearsAdvance(b.year, a.year);
    } else if a.month < b.month {
      MonthsAdvance(a.year, a.month, b.month);
    } else if b.month < a.month {
      MonthsAdvance(a.year, b.month, a.month);
    }
  }

  /** The date `k` days after `d`. */
  function AddDays(d: Date, k: nat): (r: Date)
    requires Valid(d)
    ensures Valid(r)
    decreases k
  {
    if k == 0 then d else NextDay(AddDays(d, k - 1))
  }

  lemma {:induction false} AddDaysNumber(d: Date, k: nat)
    requires Valid(d)
    ensures DayNumber(AddDays(d, k)) == DayNumber(d) + k
    decreases k
  {
    if k > 0 {
      AddDaysNumber(d, k - 1);
      NextDayNumber(AddDays(d, k - 1));
    }
  }

  /** `count` consecutive days from `first`, built by appending one day at a time. */
  function Days(first: Date, count: nat): (r: seq<Date>)
    requires Valid(first)
    ensures |r| == count
    ensures forall i :: 0 <= i < count ==> r[i] == AddDays(first, i)
    decreases count
  {
    if count == 0 then [] else Days(first, count - 1) + [AddDays(first, count - 1)]
  }

  /** Every day from `first` through `last`, both included, in calendar order;
      empty when `last` is earlier than `first`. */
  function DateRange(first: Date, last: Date): seq<Date>
    requires Valid(first) && Valid(last)
  {
    if DayNumber(last) < DayNumber(first) then []
    else Days(first, DayNumber(last) - DayNumber(first) + 1)
  }

  lemma DateRangeLength(first: Date, last: Date)
    requires Valid(first) && Valid(last)
    ensures DateRange(first, last) == [] <==> Before(last, first)
    ensures !Before(last, first) ==>
              |DateRange(first, last)| == DayNumber(last) - DayNumber(first) + 1
  {
    DayNumberOrder(last, first);
  }

  lemma DateRangeEnds(first: Date, last: Date)
    requires Valid(first) && Valid(last) && !Before(last, first)
    ensures var r := DateRange(first, last);
            |r| >= 1 && r[0] == first && r[|r| - 1] == last
  {
    DayNumberOrder(last, first);
    var n := DayNumber(last) - DayNumber(first);
    AddDaysNumber(first, n);
    DayNumberOrder(AddDays(first, n), last);
  }

  /** No gaps: each day of the range is followed by the next calendar day. */
  lemma DateRangeConsecutive(first: Date, last: Date)
    requires Valid(first) && Valid(last)
    ensures var r := DateRange(first, last);
            forall i :: 0 <= i < |r| - 1 ==> Valid(r[i]) && r[i + 1] == NextDay(r[i])
  {
  }

  /** Strictly increasing, so no day appears twice. */
  lemma DateRangeIncreasing(first: Date, last: Date)
    requires Valid(first) && Valid(last)
    ensures var r := DateRange(first, last);
            forall i, j :: 0 <= i < j < |r| ==> Before(r[i], r[j])
  {
    var r := DateRange(first, last);
    forall i, j | 0 <= i < j < |r|
      ensures Before(r[i], r[j])
    {
      AddDaysNumber(first, i);
      AddDaysNumber(first, j);
      DayNumberOrder(r[i], r[j]);
    }
  }

  /** The range holds exactly the valid dates between its ends. */
  lemma DateRangeMembers(first: Date, last: Date, d: Date)
    requires Valid(first) && Valid(last) && Valid(d)
    ensures d in DateRange(first, last) <==> !Before(d, first) && !Before(last, d)
  {
    var r := DateRange(first, last);
    DayNumberOrder(d, first);
    DayNumberOrder(last, d);
    if d in r {
      var i :| 0 <= i < |r| && r[i] == d;
      AddDaysNumber(first, i);
    }
    if !Before(d, first) && !Before(last, d) {
      var i := DayNumber(d) - DayNumber(first);
      AddDaysNumber(first, i);
      DayNumberOrder(AddDays(first, i), d);
      assert r[i] == d;
    }
  }
}
