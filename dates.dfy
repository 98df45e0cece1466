/**
 * Calendar dates as the source uses them through Python's datetime:
 * parsing with strptime(s, "%Y-%m-%d"), rendering with strftime, day ordinals
 * (date.toordinal, where 0001-01-01 is day 1) and adding whole days
 * (date + timedelta(days=n)).
 */
module Dates {
  import opened Wrappers
  import opened Digits

  datatype Date = Date(year: int, month: int, day: int)

  predicate IsLeap(y: int) {
    y % 4 == 0 && (y % 100 != 0 || y % 400 == 0)
  }

  function DaysInMonth(y: int, m: int): (n: int)
    requires 1 <= m <= 12
    ensures 28 <= n <= 31
  {
    if m == 2 then (if IsLeap(y) then 29 else 28)
    else if m == 4 || m == 6 || m == 9 || m == 11 then 30
    else 31
  }

  /** The dates datetime.date accepts: years 1 to 9999 and a day that exists in its month. */
  predicate Valid(d: Date) {
    1 <= d.year <= 9999 && 1 <= d.month <= 12 && 1 <= d.day <= DaysInMonth(d.year, d.month)
  }

  const MaxDate := Date(9999, 12, 31)

  /** Days of year y before the first day of month m (m == 13 gives the length of the year). */
  function DaysBeforeMonth(y: int, m: int): (n: int)
    requires 1 <= m <= 13
    ensures 0 <= n
  {
    var common :=
      if m == 1 then 0 else if m == 2 then 31 else if m == 3 then 59
      else if m == 4 then 90 else if m == 5 then 120 else if m == 6 then 151
      else if m == 7 then 181 else if m == 8 then 212 else if m == 9 then 243
      else if m == 10 then 273 else if m == 11 then 304 else if m == 12 then 334
      else 365;
    common + (if m > 2 && IsLeap(y) then 1 else 0)
  }

  /** Days in the years 1 .. y-1 of the proleptic Gregorian calendar. */
  function DaysBeforeYear(y: int): int
    requires y >= 1
  {
    var a := y - 1;
    a * 365 + a / 4 - a / 100 + a / 400
  }

  /** date.toordinal(): 0001-01-01 is day 1. */
  function Ordinal(d: Date): int
    requires 1 <= d.year && 1 <= d.month <= 12
  {
    DaysBeforeYear(d.year) + DaysBeforeMonth(d.year, d.month) + d.day
  }

  lemma MonthStep(y: int, m: int)
    requires 1 <= m <= 12
    ensures DaysBeforeMonth(y, m + 1) == DaysBeforeMonth(y, m) + DaysInMonth(y, m)
  {
  }

  /** Going from y - 1 to y adds one multiple of n exactly when y is one. */
  lemma DivisionsStep(y: int)
    requires y >= 1
    ensures y / 4 == (y - 1) / 4 + (if y % 4 == 0 then 1 else 0)
    ensures y / 100 == (y - 1) / 100 + (if y % 100 == 0 then 1 else 0)
    ensures y / 400 == (y - 1) / 400 + (if y % 400 == 0 then 1 else 0)
  {
  }

  /** Multiples of 400 are multiples of 100, and those are multiples of 4. */
  lemma MultiplesNest(y: int)
    ensures y % 100 == 0 ==> y % 4 == 0
    ensures y % 400 == 0 ==> y % 100 == 0
  {
    var c, q := y / 100, y / 400;
    assert y == 100 * c + y % 100;
    assert y == 400 * q + y % 400;
    assert y % 100 == 0 ==> y == 4 * (25 * c);
    assert y % 400 == 0 ==> y == 100 * (4 * q);
  }

  lemma YearLength(y: int)
    requires y >= 1
    ensures DaysBeforeYear(y + 1) == DaysBeforeYear(y) + DaysBeforeMonth(y, 13)
  {
    DivisionsStep(y);
    MultiplesNest(y);
    assert DaysBeforeMonth(y, 13) == 365 + (if IsLeap(y) then 1 else 0);
    assert DaysBeforeYear(y + 1) == y * 365 + y / 4 - y / 100 + y / 400;
  }

  lemma DaysBeforeYearMonotone(y1: int, y2: int)
    requires 1 <= y1 <= y2
    ensures DaysBeforeYear(y1) <= DaysBeforeYear(y2)
    decreases y2 - y1
  {
    if y1 < y2 {
      YearLength(y1);
      DaysBeforeYearMonotone(y1 + 1, y2);
    }
  }

  /** Every valid date has an ordinal between that of 0001-01-01 and that of 9999-12-31. */
  lemma {:induction false} OrdinalBounds(d: Date)
    requires Valid(d)
    ensures 1 <= Ordinal(d) <= Ordinal(MaxDate)
  {
    var m := d.month;
    MonthStep(d.year, m);
    assert DaysBeforeMonth(d.year, m + 1) <= DaysBeforeMonth(d.year, 13);
    YearLength(d.year);
    DaysBeforeYearMonotone(d.year + 1, 10000);
    YearLength(9999);
  }

  /** The day after d, as d + timedelta(days=1); 9999-12-31 has no successor. */
  function NextDay(d: Date): (r: Date)
    requires Valid(d) && d != MaxDate
    ensures Valid(r) && Ordinal(r) == Ordinal(d) + 1
  {
    if d.day < DaysInMonth(d.year, d.month) then
      Date(d.year, d.month, d.day + 1)
    else if d.month < 12 then
      MonthStep(d.year, d.month);
      Date(d.year, d.month + 1, 1)
    else
      MonthStep(d.year, 12);
      YearLength(d.year);
      Date(d.year + 1, 1, 1)
  }

  /** d + timedelta(days=n), for a sum that stays within datetime's range. */
  function AddDays(d: Date, n: nat): (r: Date)
    requires Valid(d) && Ordinal(d) + n <= Ordinal(MaxDate)
    ensures Valid(r) && Ordinal(r) == Ordinal(d) + n
    decreases n
  {
    if n == 0 then d else AddDays(NextDay(d), n - 1)
  }

  /**
   * (end - start).days: when end is not before start, the number of days
   * to add to start to reach end; negative exactly when end is before start.
   */
  function DaysBetween(start: Date, end: Date): (r: int)
    requires Valid(start) && Valid(end)
    ensures r >= 0 ==> Ordinal(start) + r <= Ordinal(MaxDate) && AddDays(start, r) == end
    ensures r < 0 <==> Ordinal(end) < Ordinal(start)
  {
    var r := Ordinal(end) - Ordinal(start);
    if r >= 0 then
      AddDaysReaches(start, end, r);
      r
    else
      r
  }

  /** Adding the difference n of the ordinals to the earlier date gives the later one. */
  lemma AddDaysReaches(a: Date, b: Date, n: int)
    requires Valid(a) && Valid(b) && n == Ordinal(b) - Ordinal(a) >= 0
    ensures Ordinal(a) + n <= Ordinal(MaxDate) && AddDays(a, n) == b
  {
    OrdinalBounds(b);
    OrdinalsDetermineDates(AddDays(a, n), b);
  }

  /** Adding n + 1 days is adding n days and then one more. */
  lemma {:induction false} AddDaysStep(d: Date, n: nat)
    requires Valid(d) && Ordinal(d) + n + 1 <= Ordinal(MaxDate)
    ensures AddDays(d, n) != MaxDate
    ensures AddDays(d, n + 1) == NextDay(AddDays(d, n))
    decreases n
  {
    if n > 0 {
      AddDaysStep(NextDay(d), n - 1);
    }
  }

  /** Two valid dates with the same ordinal are the same date. */
  lemma OrdinalsDetermineDates(a: Date, b: Date)
    requires Valid(a) && Valid(b) && Ordinal(a) == Ordinal(b)
    ensures a == b
  {
    if a.year < b.year {
      OrdinalBeforeNextYear(a);
      DaysBeforeYearMonotone(a.year + 1, b.year);
    } else if b.year < a.year {
      OrdinalBeforeNextYear(b);
      DaysBeforeYearMonotone(b.year + 1, a.year);
    } else if a.month < b.month {
      MonthStep(a.year, a.month);
      MonthsMonotone(a.year, a.month + 1, b.month);
    } else if b.month < a.month {
      MonthStep(b.year, b.month);
      MonthsMonotone(b.year, b.month + 1, a.month);
    }
  }

  lemma OrdinalBeforeNextYear(d: Date)
    requires Valid(d)
    ensures Ordinal(d) <= DaysBeforeYear(d.year + 1)
  {
    YearLength(d.year);
    MonthStep(d.year, d.month);
    MonthsMonotone(d.year, d.month + 1, 13);
  }

  lemma MonthsMonotone(y: int, m1: int, m2: int)
    requires 1 <= m1 <= m2 <= 13
    ensures DaysBeforeMonth(y, m1) <= DaysBeforeMonth(y, m2)
  {
  }

  /* ---------------- strptime(s, "%Y-%m-%d") ---------------- */

  /**
   * "%m" matches 1[0-2] | 0[1-9] | [1-9]: one or two ASCII digits naming a
   * month, and the month is the number they denote.
   */
  function ParseMonthField(f: string): (r: Option<int>)
    ensures r.Some? ==> 1 <= |f| <= 2 && AllDigits(f) && r.value == Value(f) && 1 <= r.value <= 12
  {
    if 1 <= |f| <= 2 && AllDigits(f) && 1 <= Value(f) <= 12 then Some(Value(f)) else None
  }

  /**
   * "%d" matches 3[01] | [12]\d | 0[1-9] | [1-9] | " "[1-9]: one or two
   * ASCII digits, or a space and one digit, and the day is the number the
   * digits denote.
   */
  function ParseDayField(f: string): (r: Option<int>)
    ensures r.Some? ==> 1 <= r.value <= 31 && 1 <= |f| <= 2
    ensures r.Some? ==>
      || (AllDigits(f) && r.value == Value(f))
      || (f[0] == ' ' && IsDigit(f[|f| - 1]) && r.value == DigitValue(f[|f| - 1]))
  {
    if 1 <= |f| <= 2 && AllDigits(f) && 1 <= Value(f) <= 31 then Some(Value(f))
    else if |f| == 2 && f[0] == ' ' && IsDigit(f[1]) && DigitValue(f[1]) >= 1 then Some(DigitValue(f[1]))
    else None
  }

  /**
   * datetime.strptime(s, "%Y-%m-%d"): four digits, a dash, the month field,
   * a dash and the day field, with nothing left over; the date must exist
   * (otherwise strptime raises ValueError, here None).
   */
  function ParseIso(s: string): (r: Option<Date>)
    ensures r.Some? ==> Valid(r.value)
  {
    if |s| < 8 || !AllDigits(s[..4]) || s[4] != '-' then None
    else
      var p := if s[6] == '-' then 6 else 7;
      if s[p] != '-' then None
      else
        var y := Value(s[..4]);
        ValueBelow(s[..4]);
        match (ParseMonthField(s[5..p]), ParseDayField(s[p + 1..]))
        case (Some(m), Some(d)) =>
          if 1 <= y && d <= DaysInMonth(y, m) then Some(Date(y, m, d)) else None
        case _ => None
  }

  /**
   * What strptime accepted: the year is the number the first four digits
   * denote, and a dash at index 6 or 7 splits the rest into a month field
   * naming the month and a day field, running to the end, naming the day.
   */
  lemma ParseIsoFields(s: string, d: Date)
    requires ParseIso(s) == Some(d)
    ensures |s| >= 8 && s[4] == '-' && AllDigits(s[..4]) && Value(s[..4]) == d.year
    ensures exists p :: 6 <= p <= 7 && s[p] == '-' && ParseMonthField(s[5..p]) == Some(d.month)
                        && ParseDayField(s[p + 1..]) == Some(d.day)
  {
    var p := if s[6] == '-' then 6 else 7;
    assert s[p] == '-' && ParseMonthField(s[5..p]) == Some(d.month) && ParseDayField(s[p + 1..]) == Some(d.day);
  }

  /** How a day field may be written: zero-padded, bare, or padded with a space. */
  datatype DayStyle = ZeroPadded | Unpadded | SpacePadded

  /** A month written with or without its leading zero (only months 1 to 9 have one). */
  function MonthText(m: int, padded: bool): (f: string)
    requires 1 <= m <= 12
    ensures ParseMonthField(f) == Some(m)
  {
    if m < 10 && !padded then
      var f := [DigitChar(m)];
      assert f[..0] == [] && AllDigits(f) && Value(f) == m;
      f
    else Pad2(m)
  }

  /** A day written in the given style (only days 1 to 9 can drop or replace the zero). */
  function DayText(day: int, style: DayStyle): (f: string)
    requires 1 <= day <= 31
    ensures ParseDayField(f) == Some(day)
  {
    if day >= 10 then Pad2(day)
    else match style
      case ZeroPadded => Pad2(day)
      case Unpadded =>
        var f := [DigitChar(day)];
        assert f[..0] == [] && AllDigits(f) && Value(f) == day;
        f
      case SpacePadded => [' ', DigitChar(day)]
  }

  /**
   * strptime is lenient: every valid date parses back from its ISO form
   * with the month's leading zero kept or dropped and the day's leading
   * zero kept, dropped or replaced by a space.
   */
  lemma {:induction false} ParseIsoAccepts(d: Date, padMonth: bool, style: DayStyle)
    requires Valid(d)
    ensures ParseIso(Pad4(d.year) + "-" + MonthText(d.month, padMonth) + "-" + DayText(d.day, style)) == Some(d)
  {
    var y, m, t := Pad4(d.year), MonthText(d.month, padMonth), DayText(d.day, style);
    var s := y + "-" + m + "-" + t;
    var p := 5 + |m|;
    assert s[..4] == y && s[4] == '-' && s[p] == '-';
    assert |m| == 2 ==> s[6] == m[1];
    assert s[5..p] == m && s[p + 1..] == t;
  }

  /**
   * strftime("%Y-%m-%d"): the canonical ISO rendering, ten characters that
   * strptime with the same format reads back as the same date.
   */
  function FormatIso(d: Date): (r: string)
    requires Valid(d)
    ensures |r| == 10 && ParseIso(r) == Some(d)
  {
    ParseIsoAccepts(d, true, ZeroPadded);
    Pad4(d.year) + "-" + Pad2(d.month) + "-" + Pad2(d.day)
  }

  /**
   * strftime("%d-%m-%Y"): the day first, as the price API expects; ten
   * characters with the two-digit day, the two-digit month and the
   * four-digit year.
   */
  function FormatApi(d: Date): (r: string)
    requires Valid(d)
    ensures |r| == 10 && r[2] == '-' && r[5] == '-'
    ensures AllDigits(r[0..2]) && Value(r[0..2]) == d.day
    ensures AllDigits(r[3..5]) && Value(r[3..5]) == d.month
    ensures AllDigits(r[6..10]) && Value(r[6..10]) == d.year
  {
    var r := Pad2(d.day) + "-" + Pad2(d.month) + "-" + Pad4(d.year);
    assert r[0..2] == Pad2(d.day) && r[3..5] == Pad2(d.month) && r[6..10] == Pad4(d.year);
    r
  }

  /** Moves the fields of a DD-MM-YYYY string back into YYYY-MM-DD order. */
  function ReorderToIso(api: string): string
    requires |api| == 10
  {
    api[6..10] + "-" + api[3..5] + "-" + api[0..2]
  }

  /** Moving the fields of the API rendering back gives the ISO rendering. */
  lemma ApiReordersToIso(d: Date)
    requires Valid(d)
    ensures ReorderToIso(FormatApi(d)) == FormatIso(d)
  {
    var api := FormatApi(d);
    assert api[0..2] == Pad2(d.day);
    assert api[3..5] == Pad2(d.month);
    assert api[6..10] == Pad4(d.year);
  }
}
