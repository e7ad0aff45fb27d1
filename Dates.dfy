/**
  Instants as wall-clock readings: milliseconds from 1 January 1970, 00:00
  on the local clock, built from calendar fields by the day arithmetic of
  ECMAScript's `MakeDay` / `DayFromYear` (proleptic Gregorian calendar, month
  and day arguments out of range roll over into the neighbouring month or
  year, a year argument in 0..99 means 1900 + year). JavaScript's `Date`
  stores UTC milliseconds and converts local fields through the time-zone
  offset; here that offset is taken as zero, so daylight-saving shifts are
  not represented.
*/
module Dates {

  /** Milliseconds since 1 January 1970, 00:00 on the local clock. */
  type Time = int


  /** `new Date(y, ...)` reads a year 0..99 as 1900..1999. */
  function FullYear(y: int): int
  {
    if 0 <= y <= 99 then 1900 + y else y
  }

  predicate IsLeapYear(y: int)
  {
    y % 4 == 0 && (y % 100 != 0 || y % 400 == 0)
  }

  /** Day number of 1 January of year `y`; `/` is floor division here as in the standard. */
  function DayFromYear(y: int): int
  {
    365 * (y - 1970) + (y - 1969) / 4 - (y - 1901) / 100 + (y - 1601) / 400
  }

  /** Days of the year before the first of month index `m` (0 = January). */
  function DaysBeforeMonth(y: int, m: int): int
    requires 0 <= m < 12
  {
    [0, 31, 59, 90, 120, 151, 181, 212, 243, 273, 304, 334][m]
      + (if m >= 2 && IsLeapYear(y) then 1 else 0)
  }

  /** Day number of day `d` of month index `m` of year `y`, any `m` and `d`. */
  function MakeDay(y: int, m: int, d: int): int
  {
    var ym := y + m / 12;
    var mn := m % 12;
    DayFromYear(ym) + DaysBeforeMonth(ym, mn) + d - 1
  }

  /** `new Date(year, monthIndex, day, hours, minutes, seconds).getTime()` */
  function MakeDate(year: int, monthIndex: int, day: int, h: int, mi: int, s: int): Time
  {
    MakeDay(FullYear(year), monthIndex, day) * 86_400_000 + ((h * 60 + mi) * 60 + s) * 1000
  }

  /** `new Date(year, month - 1, 1)`: midnight on day 1 of `month` (1-based). */
  function StartOfMonth(month: int, year: int): Time
  {
    MakeDate(year, month - 1, 1, 0, 0, 0)
  }

  /** `new Date(year, month, 0, 23, 59, 59)`: 23:59:59 on the last day of `month`. */
  function EndOfMonth(month: int, year: int): Time
  {
    MakeDate(year, month, 0, 23, 59, 59)
  }

  predicate WithinMonth(t: Time, month: int, year: int)
  {
    StartOfMonth(month, year) <= t <= EndOfMonth(month, year)
  }

  function DaysInMonth(y: int, month: int): (n: int)
    requires 1 <= month <= 12
    ensures 28 <= n <= 31
  {
    if month == 2 then (if IsLeapYear(y) then 29 else 28)
    else if month in {4, 6, 9, 11} then 30
    else 31
  }

  /** Day zero of a month is the last day of the month before it. */
  lemma EndIsLastSecondOfMonth(month: int, year: int)
    ensures EndOfMonth(month, year) == StartOfMonth(month + 1, year) - 1000
  {
  }

  /** The count of multiples of 4 below a year gains one exactly at a multiple of 4. */
  lemma StepOf4(y: int)
    ensures (y - 1968) / 4 - (y - 1969) / 4 == if y % 4 == 0 then 1 else 0
  {
    var q, r := (y - 1969) / 4, (y - 1969) % 4;
    assert y - 1969 == 4 * q + r && 0 <= r < 4;
    if r == 3 {
      assert y - 1968 == 4 * (q + 1);
      assert y == 4 * (q + 493);
    } else {
      assert y - 1968 == 4 * q + (r + 1);
      assert y == 4 * (q + 492) + (r + 1);
    }
  }

  /** The same for multiples of 100. */
  lemma StepOf100(y: int)
    ensures (y - 1900) / 100 - (y - 1901) / 100 == if y % 100 == 0 then 1 else 0
  {
    var q, r := (y - 1901) / 100, (y - 1901) % 100;
    assert y - 1901 == 100 * q + r && 0 <= r < 100;
    if r == 99 {
      assert y - 1900 == 100 * (q + 1);
      assert y == 100 * (q + 20);
    } else {
      assert y - 1900 == 100 * q + (r + 1);
      assert y == 100 * (q + 19) + (r + 1);
    }
  }

  /** The same for multiples of 400. */
  lemma StepOf400(y: int)
    ensures (y - 1600) / 400 - (y - 1601) / 400 == if y % 400 == 0 then 1 else 0
  {
    var q, r := (y - 1601) / 400, (y - 1601) % 400;
    assert y - 1601 == 400 * q + r && 0 <= r < 400;
    if r == 399 {
      assert y - 1600 == 400 * (q + 1);
      assert y == 400 * (q + 5);
    } else {
      assert y - 1600 == 400 * q + (r + 1);
      assert y == 400 * (q + 4) + (r + 1);
    }
  }

  /** Every multiple of 400 is a multiple of 100, and every multiple of 100 one of 4. */
  lemma DivisibilityChain(y: int)
    ensures y % 400 == 0 ==> y % 100 == 0
    ensures y % 100 == 0 ==> y % 4 == 0
  {
    var q4, r4 := y / 4, y % 4;
    var q100, r100 := y / 100, y % 100;
    var q400, r400 := y / 400, y % 400;
    assert y == 4 * q4 + r4 && 0 <= r4 < 4;
    assert y == 100 * q100 + r100 && 0 <= r100 < 100;
    assert y == 400 * q400 + r400 && 0 <= r400 < 400;
    if r400 == 0 {
      assert y == 100 * (4 * q400) + 0;
      assert r100 == 0 by {
        assert 100 * (4 * q400 - q100) == r100;
      }
    }
    if r100 == 0 {
      assert y == 4 * (25 * q100) + 0;
      assert r4 == 0 by {
        assert 4 * (25 * q100 - q4) == r4;
      }
    }
  }

  /** A year has 366 days when it is a leap year and 365 otherwise. */
  lemma YearLength(y: int)
    ensures DayFromYear(y + 1) - DayFromYear(y) == if IsLeapYear(y) then 366 else 365
  {
    var a := (y - 1968) / 4 - (y - 1969) / 4;
    var b := (y - 1900) / 100 - (y - 1901) / 100;
    var c := (y - 1600) / 400 - (y - 1601) / 400;
    StepOf4(y);
    StepOf100(y);
    StepOf400(y);
    assert DayFromYear(y + 1) - DayFromYear(y) == 365 + a - b + c;
    DivisibilityChain(y);
  }

  /** Consecutive entries of the days-before-month table differ by the length of the month between them. */
  lemma DaysBeforeMonthStep(y: int, month: int)
    requires 1 <= month < 12
    ensures DaysBeforeMonth(y, month) - DaysBeforeMonth(y, month - 1) == DaysInMonth(y, month)
  {
  }

  /** Day 1 of the month after `month` comes `DaysInMonth` days after day 1 of `month`. */
  lemma FirstDayStep(y: int, month: int)
    requires 1 <= month <= 12
    ensures MakeDay(y, month, 1) - MakeDay(y, month - 1, 1) == DaysInMonth(y, month)
  {
    assert (month - 1) / 12 == 0 && (month - 1) % 12 == month - 1;
    if month == 12 {
      assert month / 12 == 1 && month % 12 == 0;
      YearLength(y);
    } else {
      assert month / 12 == 0 && month % 12 == month;
      DaysBeforeMonthStep(y, month);
    }
  }

  /**
    The window of `month` covers exactly its days: the next month starts
    `DaysInMonth` days after it.
  */
  lemma MonthLength(month: int, year: int)
    requires 1 <= month <= 12
    ensures StartOfMonth(month + 1, year) - StartOfMonth(month, year)
         == DaysInMonth(FullYear(year), month) * 86_400_000
  {
    var y := FullYear(year);
    var next, first := MakeDay(y, month, 1), MakeDay(y, month - 1, 1);
    assert StartOfMonth(month + 1, year) == next * 86_400_000;
    assert StartOfMonth(month, year) == first * 86_400_000;
    FirstDayStep(y, month);
    assert next - first == DaysInMonth(y, month);
  }

  /**
    Month windows follow each other in time; the last 999 ms of a month
    (after 23:59:59.000 on its last day) belong to no window.
  */
  lemma MonthWindowsOrdered(month: int, year: int)
    requires 1 <= month <= 12
    ensures StartOfMonth(month, year) < EndOfMonth(month, year) < StartOfMonth(month + 1, year)
    ensures forall t :: EndOfMonth(month, year) < t < StartOfMonth(month + 1, year) ==>
      !WithinMonth(t, month, year) && !WithinMonth(t, month + 1, year)
  {
    var s0, e, s1 := StartOfMonth(month, year), EndOfMonth(month, year), StartOfMonth(month + 1, year);
    MonthLength(month, year);
    EndIsLastSecondOfMonth(month, year);
    assert s1 - s0 >= 28 * 86_400_000;
    assert e == s1 - 1000;
    forall t | e < t < s1
      ensures !WithinMonth(t, month, year) && !WithinMonth(t, month + 1, year)
    {
    }
  }
}
