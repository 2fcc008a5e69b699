/** Calendar arithmetic of JavaScript's `Date`, on day numbers counted from
    1970-01-01 (day 0) in the proleptic Gregorian calendar, as ECMAScript's
    MakeDay, the `Date(year, month, day)` constructor and the date-only ISO
    format define it. Every date is taken in one fixed time zone. */
module Dates {
  import opened Js

  /** Milliseconds in a day (`1000 * 3600 * 24`). */
  const MsPerDay: int := 86400000

  /** The largest distance from the epoch, in milliseconds, that a `Date` can hold. */
  const MaxTime: int := 8640000000000000

  predicate IsLeap(y: int)
  {
    y % 4 == 0 && (y % 100 != 0 || y % 400 == 0)
  }

  function DaysInYear(y: int): (n: int)
    ensures n == 365 || n == 366
  {
    if IsLeap(y) then 366 else 365
  }

  /** Days in month m0 (0 = January) of year y. */
  function DaysInMonth(y: int, m0: int): (n: int)
    requires 0 <= m0 < 12
    ensures 28 <= n <= 31
  {
    if m0 == 1 then (if IsLeap(y) then 29 else 28)
    else if m0 == 3 || m0 == 5 || m0 == 8 || m0 == 10 then 30
    else 31
  }

  /** Days in the months of year y before month m0. */
  function DaysBeforeMonth(y: int, m0: int): (n: int)
    requires 0 <= m0 <= 12
    ensures 0 <= n <= 31 * m0
    ensures m0 > 0 ==> n >= 28 * m0
  {
    if m0 == 0 then 0 else DaysBeforeMonth(y, m0 - 1) + DaysInMonth(y, m0 - 1)
  }

  /** ECMAScript's DayFromYear: the day number of January 1st of year y. */
  function DaysBeforeYear(y: int): int
  {
    365 * (y - 1970) + (y - 1969) / 4 - (y - 1901) / 100 + (y - 1601) / 400
  }

  /** The day number of day d of month m0 of year y; d may lie outside the
      month, as MakeDay allows, and counts on from the month's first day. */
  function DayNumber(y: int, m0: int, d: int): int
    requires 0 <= m0 < 12
  {
    DaysBeforeYear(y) + DaysBeforeMonth(y, m0) + d - 1
  }

  /** ECMAScript's MakeDay on integer arguments: a month outside 0..11 moves the year. */
  function MakeDay(y: int, m: int, d: int): (n: int)
    ensures 0 <= m < 12 ==> n == DayNumber(y, m, d)
  {
    DayNumber(y + m / 12, m % 12, d)
  }

  // ---------------------------------------------------------------------
  // Steps between years

  /** The leap days counted by DaysBeforeYear grow by one exactly after a year divisible by 4, 100 or 400. */
  lemma LeapStep4(y: int)
    ensures (y + 1 - 1969) / 4 == (y - 1969) / 4 + (if y % 4 == 0 then 1 else 0)
  {
    var q := (y - 1969) / 4;
    var r := (y - 1969) % 4;
    assert y - 1969 == 4 * q + r;
    if r == 4 - 1 {
      assert y + 1 - 1969 == 4 * (q + 1);
      assert y == 4 * (q + 492 + 1);
    } else {
      assert y + 1 - 1969 == 4 * q + (r + 1);
      assert y == 4 * (q + 492) + (r + 1);
    }
  }

  lemma LeapStep100(y: int)
    ensures (y + 1 - 1901) / 100 == (y - 1901) / 100 + (if y % 100 == 0 then 1 else 0)
  {
    var q := (y - 1901) / 100;
    var r := (y - 1901) % 100;
    assert y - 1901 == 100 * q + r;
    if r == 100 - 1 {
      assert y + 1 - 1901 == 100 * (q + 1);
      assert y == 100 * (q + 19 + 1);
    } else {
      assert y + 1 - 1901 == 100 * q + (r + 1);
      assert y == 100 * (q + 19) + (r + 1);
    }
  }

  lemma LeapStep400(y: int)
    ensures (y + 1 - 1601) / 400 == (y - 1601) / 400 + (if y % 400 == 0 then 1 else 0)
  {
    var q := (y - 1601) / 400;
    var r := (y - 1601) % 400;
    assert y - 1601 == 400 * q + r;
    if r == 400 - 1 {
      assert y + 1 - 1601 == 400 * (q + 1);
      assert y == 400 * (q + 4 + 1);
    } else {
      assert y + 1 - 1601 == 400 * q + (r + 1);
      assert y == 400 * (q + 4) + (r + 1);
    }
  }

  /** Consecutive years are one year length apart. */
  lemma YearStep(y: int)
    ensures DaysBeforeYear(y + 1) == DaysBeforeYear(y) + DaysInYear(y)
  {
    var d4 := if y % 4 == 0 then 1 else 0;
    var d100 := if y % 100 == 0 then 1 else 0;
    var d400 := if y % 400 == 0 then 1 else 0;
    assert DaysBeforeYear(y + 1) == DaysBeforeYear(y) + 365 + d4 - d100 + d400 by {
      LeapStep4(y);
      LeapStep100(y);
      LeapStep400(y);
    }
    LeapCount(y);
  }

  /** Divisibility by 400 implies by 100, and by 100 implies by 4, so the
      three corrections add up to the leap day. */
  lemma LeapCount(y: int)
    ensures (if y % 4 == 0 then 1 else 0) - (if y % 100 == 0 then 1 else 0) + (if y % 400 == 0 then 1 else 0)
      == DaysInYear(y) - 365
  {
    if y % 400 == 0 {
      var k := y / 400;
      assert y == 100 * (4 * k);
      assert y == 4 * (100 * k);
    } else if y % 100 == 0 {
      var k := y / 100;
      assert y == 4 * (25 * k);
    }
  }

  /** The twelve months make up the year. */
  lemma MonthsMakeYear(y: int)
    ensures DaysBeforeMonth(y, 12) == DaysInYear(y)
  {
    var feb := DaysInMonth(y, 1);
    assert DaysBeforeMonth(y, 1) == 31;
    assert DaysBeforeMonth(y, 2) == 31 + feb;
    assert DaysBeforeMonth(y, 3) == 62 + feb;
    assert DaysBeforeMonth(y, 4) == 92 + feb;
    assert DaysBeforeMonth(y, 5) == 123 + feb;
    assert DaysBeforeMonth(y, 6) == 153 + feb;
    assert DaysBeforeMonth(y, 7) == 184 + feb;
    assert DaysBeforeMonth(y, 8) == 215 + feb;
    assert DaysBeforeMonth(y, 9) == 245 + feb;
    assert DaysBeforeMonth(y, 10) == 276 + feb;
    assert DaysBeforeMonth(y, 11) == 306 + feb;
  }

  /** Every month ends within its year. */
  lemma MonthWithinYear(y: int, m0: int)
    requires 0 <= m0 < 12
    ensures DaysBeforeMonth(y, m0) + DaysInMonth(y, m0) <= DaysInYear(y)
  {
    MonthsMakeYear(y);
    if m0 < 11 {
      MonthsApart(y, m0, 11);
    }
  }

  /** The day after the last day of December is January 1st of the next year. */
  lemma NextYear(y: int)
    ensures DayNumber(y, 11, 32) == DayNumber(y + 1, 0, 1)
  {
    YearStep(y);
    MonthsMakeYear(y);
  }

  /** Counting past the end of a month carries into the next month. */
  lemma MonthCarry(y: int, m0: int, d: int)
    requires 0 <= m0 < 12
    ensures m0 < 11 ==> DayNumber(y, m0, d) == DayNumber(y, m0 + 1, d - DaysInMonth(y, m0))
    ensures m0 == 11 ==> DayNumber(y, m0, d) == DayNumber(y + 1, 0, d - DaysInMonth(y, m0))
  {
    if m0 == 11 {
      NextYear(y);
    }
  }

  // ---------------------------------------------------------------------
  // Valid calendar dates

  /** A calendar date: year, month (0 = January, as `getMonth` counts) and day of month. */
  datatype Date = Date(year: int, month: int, day: int)

  predicate Valid(dt: Date)
  {
    0 <= dt.month < 12 && 1 <= dt.day <= DaysInMonth(dt.year, dt.month)
  }

  function Days(dt: Date): int
    requires 0 <= dt.month < 12
  {
    DayNumber(dt.year, dt.month, dt.day)
  }

  /** The valid date that day d of month m of year y denotes, as `Date`
      normalises the overflow of `setDate` and `setMonth`. */
  function Normalize(y: int, m: int, d: int): (dt: Date)
    ensures Valid(dt)
    ensures Days(dt) == MakeDay(y, m, d)
  {
    NormalizeDay(y + m / 12, m % 12, d)
  }

  /** Normalize for a month in range: the day carries across month ends. */
  function NormalizeDay(y: int, m: int, d: int): (dt: Date)
    requires 0 <= m < 12
    ensures Valid(dt)
    ensures Days(dt) == DayNumber(y, m, d)
    decreases if d < 1 then 1 - d else 0, d
  {
    if d < 1 then
      var py := if m == 0 then y - 1 else y;
      var pm := if m == 0 then 11 else m - 1;
      var pd := d + DaysInMonth(py, pm);
      MonthCarry(py, pm, pd);
      NormalizeDay(py, pm, pd)
    else if d > DaysInMonth(y, m) then
      var nd := d - DaysInMonth(y, m);
      MonthCarry(y, m, d);
      if m == 11 then NormalizeDay(y + 1, 0, nd)
      else NormalizeDay(y, m + 1, nd)
    else Date(y, m, d)
  }

  /** The date of a day number. */
  function FromDays(n: int): (dt: Date)
    ensures Valid(dt) && Days(dt) == n
  {
    Normalize(1970, 0, n + 1)
  }

  /** Different valid dates have different day numbers. */
  lemma {:induction false} DaysInjective(a: Date, b: Date)
    requires Valid(a) && Valid(b) && Days(a) == Days(b)
    ensures a == b
  {
    MonthWithinYear(a.year, a.month);
    MonthWithinYear(b.year, b.month);
    if a.year < b.year {
      YearsApart(a.year, b.year);
      assert false;
    } else if b.year < a.year {
      YearsApart(b.year, a.year);
      assert false;
    } else if a.month < b.month {
      MonthsApart(a.year, a.month, b.month);
      assert false;
    } else if b.month < a.month {
      MonthsApart(a.year, b.month, a.month);
      assert false;
    }
  }

  /** A later year starts at least a whole year after an earlier one. */
  lemma {:induction false} YearsApart(y1: int, y2: int)
    requires y1 < y2
    ensures DaysBeforeYear(y2) >= DaysBeforeYear(y1) + DaysInYear(y1)
    decreases y2 - y1
  {
    YearStep(y1);
    if y1 + 1 < y2 {
      YearsApart(y1 + 1, y2);
    }
  }

  /** A later month of the same year starts after the earlier month ends. */
  lemma {:induction false} MonthsApart(y: int, m1: int, m2: int)
    requires 0 <= m1 < m2 < 12
    ensures DaysBeforeMonth(y, m2) >= DaysBeforeMonth(y, m1) + DaysInMonth(y, m1)
    decreases m2 - m1
  {
    if m1 + 1 < m2 {
      MonthsApart(y, m1 + 1, m2);
    }
  }

  /** Day of the week of a day number, 0 = Sunday (1970-01-01 was a Thursday). */
  function Weekday(n: int): (w: int)
    ensures 0 <= w < 7
    ensures n % 7 == 3 ==> w == 0
  {
    (n + 4) % 7
  }

  // ---------------------------------------------------------------------
  // The `Date` constructor and the ISO date format

  /** `new Date(y, m, d).getTime() / MsPerDay` with number arguments: NaN
      arguments and results beyond the representable range are invalid; the
      arguments are truncated toward zero, and a year from 0 to 99 means 19xx. */
  function ConstructDate(y: Num, m: Num, d: Num): (r: Option<int>)
    ensures y.NaN? || m.NaN? || d.NaN? ==> r.None?
    ensures r.Some? ==> -MaxTime <= r.value * MsPerDay <= MaxTime
  {
    if y.NaN? || m.NaN? || d.NaN? then None
    else
      var yi := Trunc(y.r);
      var year := if 0 <= yi <= 99 then 1900 + yi else yi;
      var day := MakeDay(year, Trunc(m.r), Trunc(d.r));
      if -MaxTime <= day * MsPerDay <= MaxTime then Some(day) else None
  }

  /** Subtracting 1 from a number, as in `Number(month) - 1`. */
  function MinusOne(n: Num): Num
  {
    if n.NaN? then NaN else Fin(n.r - 1.0)
  }

  /** Four digits, a hyphen, two digits, a hyphen and two digits. */
  predicate IsoShape(s: string)
  {
    |s| == 10 && s[4] == '-' && s[7] == '-'
    && AllDigits(s[..4]) && AllDigits(s[5..7]) && AllDigits(s[8..])
  }

  /** A year, month and day written with four, two and two digits and joined
      by hyphens read back as that year, month and day. */
  lemma IsoTextReads(y: string, m: string, d: string)
    requires |y| == 4 && |m| == 2 && |d| == 2 && AllDigits(y) && AllDigits(m) && AllDigits(d)
    requires 1 <= DigitsValue(m) <= 12 && 1 <= DigitsValue(d) <= 31
    ensures IsoFields(y + "-" + m + "-" + d) == Some((DigitsValue(y), DigitsValue(m), DigitsValue(d)))
  {
    IsoParts(y, m, d);
  }

  /** Where the parts of a hyphenated date lie in its text. */
  lemma IsoParts(y: string, m: string, d: string)
    requires |y| == 4 && |m| == 2 && |d| == 2
    ensures var s := y + "-" + m + "-" + d;
      |s| == 10 && s[4] == '-' && s[7] == '-' && s[..4] == y && s[5..7] == m && s[8..] == d
  {
    var s := y + "-" + m + "-" + d;
    assert s[..4] == y by {
      assert forall i | 0 <= i < 4 :: s[i] == y[i];
    }
    assert s[5..7] == m by {
      assert forall i | 0 <= i < 2 :: s[5 + i] == m[i];
    }
    assert s[8..] == d by {
      assert forall i | 0 <= i < 2 :: s[8 + i] == d[i];
    }
  }

  /** The year, month and day an ISO date text spells, when it has the
      `YYYY-MM-DD` shape with month 1 to 12 and day 1 to 31. */
  function IsoFields(s: string): (r: Option<(nat, nat, nat)>)
    ensures r.Some? <==> IsoShape(s) && 1 <= DigitsValue(s[5..7]) <= 12 && 1 <= DigitsValue(s[8..]) <= 31
    ensures r.Some? ==> r.value == (DigitsValue(s[..4]), DigitsValue(s[5..7]), DigitsValue(s[8..]))
  {
    if IsoShape(s) && 1 <= DigitsValue(s[5..7]) <= 12 && 1 <= DigitsValue(s[8..]) <= 31
    then Some((DigitsValue(s[..4]), DigitsValue(s[5..7]), DigitsValue(s[8..])))
    else None
  }

  /** `new Date(s)` for the date-only ISO format `YYYY-MM-DD`: month 1 to 12 and
      day 1 to 31, a day past the end of its month running on into the next. */
  function ParseIsoDate(s: string): (r: Option<int>)
    ensures r.Some? <==> IsoShape(s) && 1 <= DigitsValue(s[5..7]) <= 12 && 1 <= DigitsValue(s[8..]) <= 31
    ensures r.Some? ==> r.value == MakeDay(DigitsValue(s[..4]), DigitsValue(s[5..7]) - 1, DigitsValue(s[8..]))
  {
    var f := IsoFields(s);
    if f.Some? then Some(MakeDay(f.value.0, f.value.1 - 1, f.value.2)) else None
  }
}
