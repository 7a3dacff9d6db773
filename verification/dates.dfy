/**
 The calendar arithmetic behind `subset_netcdf_by_time`: parsing a date
 with the format `%m/%d/%Y`, comparing dates, and the number of days
 between two dates in the proleptic Gregorian calendar (Python's
 `datetime` subtraction).
 */
module Dates {

  import opened Errors
  import opened Text

  datatype Date = Date(year: int, month: int, day: int)

  predicate IsLeap(y: int) {
    y % 4 == 0 && (y % 100 != 0 || y % 400 == 0)
  }

  function DaysInYear(y: int): int {
    if IsLeap(y) then 366 else 365
  }

  function DaysInMonth(y: int, m: int): (n: int)
    requires 1 <= m <= 12
    ensures 28 <= n <= 31
  {
    if m == 2 then (if IsLeap(y) then 29 else 28)
    else if m == 4 || m == 6 || m == 9 || m == 11 then 30
    else 31
  }

  /** A date `datetime` can represent: year 1 to 9999, an existing month and day. */
  predicate ValidDate(d: Date) {
    1 <= d.year <= 9999 && 1 <= d.month <= 12 && 1 <= d.day <= DaysInMonth(d.year, d.month)
  }

  /** Days in the months of year `y` before month `m`. */
  function DaysBeforeMonth(y: int, m: int): int
    requires 1 <= m <= 12
  {
    [0, 31, 59, 90, 120, 151, 181, 212, 243, 273, 304, 334][m - 1] + (if m > 2 && IsLeap(y) then 1 else 0)
  }

  /** Days in the years before year `y`, counted from year 1. */
  function DaysBeforeYear(y: int): int
    requires y >= 1
  {
    var p := y - 1;
    p * 365 + p / 4 - p / 100 + p / 400
  }

  /** The day number of a date, 1 for January 1 of year 1 (`date.toordinal`). */
  function Ordinal(d: Date): int
    requires ValidDate(d)
  {
    DaysBeforeYear(d.year) + DaysBeforeMonth(d.year, d.month) + d.day
  }

  /** Chronological order, as `datetime` compares: by year, then month, then day. */
  predicate Earlier(a: Date, b: Date) {
    a.year < b.year || (a.year == b.year && (a.month < b.month || (a.month == b.month && a.day < b.day)))
  }

  /** A month ends before the next one starts. */
  lemma MonthFits(y: int, m: int)
    requires 1 <= m < 12
    ensures DaysBeforeMonth(y, m) + DaysInMonth(y, m) == DaysBeforeMonth(y, m + 1)
  {
  }

  /** December ends where the year does. */
  lemma YearFits(y: int)
    ensures DaysBeforeMonth(y, 12) + DaysInMonth(y, 12) == DaysInYear(y)
  {
  }

  lemma {:induction false} MonthsOrdered(y: int, m1: int, m2: int)
    requires 1 <= m1 < m2 <= 12
    ensures DaysBeforeMonth(y, m1) + DaysInMonth(y, m1) <= DaysBeforeMonth(y, m2)
    decreases m2 - m1
  {
    MonthFits(y, m1);
    if m1 + 1 < m2 {
      MonthsOrdered(y, m1 + 1, m2);
    }
  }

  lemma DivStep4(p: nat)
    ensures (p + 1) / 4 == p / 4 + (if (p + 1) % 4 == 0 then 1 else 0)
  {
    var q, r := p / 4, p % 4;
    assert p == 4 * q + r;
    if r == 3 {
      assert p + 1 == 4 * (q + 1) + 0;
    } else {
      assert p + 1 == 4 * q + (r + 1);
    }
  }

  lemma DivStep100(p: nat)
    ensures (p + 1) / 100 == p / 100 + (if (p + 1) % 100 == 0 then 1 else 0)
  {
    var q, r := p / 100, p % 100;
    assert p == 100 * q + r;
    if r == 99 {
      assert p + 1 == 100 * (q + 1) + 0;
    } else {
      assert p + 1 == 100 * q + (r + 1);
    }
  }

  lemma DivStep400(p: nat)
    ensures (p + 1) / 400 == p / 400 + (if (p + 1) % 400 == 0 then 1 else 0)
  {
    var q, r := p / 400, p % 400;
    assert p == 400 * q + r;
    if r == 399 {
      assert p + 1 == 400 * (q + 1) + 0;
    } else {
      assert p + 1 == 400 * q + (r + 1);
    }
  }

  lemma CenturyIsLeapCandidate(y: int)
    ensures y % 100 == 0 ==> y % 4 == 0
    ensures y % 400 == 0 ==> y % 100 == 0
  {
    if y % 100 == 0 {
      var q := y / 100;
      assert y == 4 * (25 * q);
    }
    if y % 400 == 0 {
      var q := y / 400;
      assert y == 100 * (4 * q);
    }
  }

  /** One year later, the count has grown by the length of that year. */
  lemma YearStep(y: int)
    requires y >= 1
    ensures DaysBeforeYear(y + 1) == DaysBeforeYear(y) + DaysInYear(y)
  {
    var p := y - 1;
    DivStep4(p);
    DivStep100(p);
    DivStep400(p);
    CenturyIsLeapCandidate(y);
    var a, b, c := p / 4, p / 100, p / 400;
    assert DaysBeforeYear(y) == p * 365 + a - b + c;
    assert DaysBeforeYear(y + 1) == y * 365 + y / 4 - y / 100 + y / 400;
  }

  lemma {:induction false} YearsOrdered(y1: int, y2: int)
    requires 1 <= y1 < y2
    ensures DaysBeforeYear(y1) + DaysInYear(y1) <= DaysBeforeYear(y2)
    decreases y2 - y1
  {
    YearStep(y1);
    if y1 + 1 < y2 {
      YearsOrdered(y1 + 1, y2);
      YearStep(y1 + 1);
    }
  }

  /** The day number orders valid dates exactly as the calendar does. */
  lemma OrdinalOrder(a: Date, b: Date)
    requires ValidDate(a) && ValidDate(b)
    ensures Earlier(a, b) <==> Ordinal(a) < Ordinal(b)
    ensures a == b <==> Ordinal(a) == Ordinal(b)
  {
    if Earlier(a, b) {
      OrdinalBefore(a, b);
    } else if Earlier(b, a) {
      OrdinalBefore(b, a);
    }
  }

  lemma OrdinalBefore(a: Date, b: Date)
    requires ValidDate(a) && ValidDate(b) && Earlier(a, b)
    ensures Ordinal(a) < Ordinal(b)
  {
    if a.year < b.year {
      YearsOrdered(a.year, b.year);
      if a.month < 12 {
        MonthsOrdered(a.year, a.month, 12);
      }
      YearFits(a.year);
    } else if a.month < b.month {
      MonthsOrdered(a.year, a.month, b.month);
    }
  }

  /** A month or day field of `%m` or `%d`: one or two digits with a value in `1..hi`. */
  function SmallField(s: string, hi: int): (r: Option<int>)
    ensures r.Some? ==> 1 <= r.value <= hi
  {
    if 1 <= |s| <= 2 && AllDigits(s) && 1 <= DigitsValue(s) <= hi then Some(DigitsValue(s)) else None
  }

  /** The year field of `%Y`: exactly four digits, and a year `datetime` accepts. */
  function YearField(s: string): (r: Option<int>)
    ensures r.Some? ==> 1 <= r.value <= 9999
  {
    if |s| == 4 && AllDigits(s) && DigitsValue(s) >= 1 then
      DigitsLessThan(s);
      Some(DigitsValue(s))
    else None
  }

  lemma {:induction false} DigitsLessThan(s: string)
    requires AllDigits(s)
    ensures DigitsValue(s) < Pow10(|s|)
    decreases |s|
  {
    if |s| > 0 {
      DigitsLessThan(s[..|s| - 1]);
    }
  }

  function Pow10(n: nat): nat {
    if n == 0 then 1 else 10 * Pow10(n - 1)
  }

  /**
   `datetime.strptime(s, '%m/%d/%Y')`: the whole text is month, day and
   year separated by slashes, and the day exists in that month of that
   year. None stands for the `ValueError` raised otherwise.
   */
  function ParseDate(s: string): (r: Option<Date>)
    ensures r.Some? ==> ValidDate(r.value)
  {
    var parts := Split(s, '/');
    if |parts| != 3 then None
    else
      var m := SmallField(parts[0], 12);
      var d := SmallField(parts[1], 31);
      var y := YearField(parts[2]);
      if m.None? || d.None? || y.None? then None
      else if d.value > DaysInMonth(y.value, m.value) then None
      else Some(Date(y.value, m.value, d.value))
  }

  /** Two-digit decimal text of `n` with a leading zero. */
  function TwoDigits(n: int): (s: string)
    requires 0 <= n < 100
    ensures |s| == 2 && AllDigits(s) && DigitsValue(s) == n
  {
    var s := [(n / 10 + '0' as int) as char, (n % 10 + '0' as int) as char];
    assert s[..1] == [s[0]];
    s
  }

  /** Four-digit decimal text of `n` with leading zeros. */
  function FourDigits(n: int): (s: string)
    requires 0 <= n < 10000
    ensures |s| == 4 && AllDigits(s) && DigitsValue(s) == n
  {
    var s := TwoDigits(n / 100) + TwoDigits(n % 100);
    assert s[..3][..2] == s[..2] == TwoDigits(n / 100);
    assert s[..2][..1] == [s[0]];
    s
  }

  /** The text `date.strftime('%m/%d/%Y')` writes for a date. */
  function Format(d: Date): string
    requires ValidDate(d)
  {
    TwoDigits(d.month) + "/" + TwoDigits(d.day) + "/" + FourDigits(d.year)
  }

  /** Parsing the formatted text of a date gives back that date. */
  lemma ParseFormat(d: Date)
    requires ValidDate(d)
    ensures ParseDate(Format(d)) == Some(d)
  {
    var m := TwoDigits(d.month);
    var dd := TwoDigits(d.day);
    var y := FourDigits(d.year);
    assert Lacks(m, '/') && Lacks(dd, '/') && Lacks(y, '/');
    SplitThree(m, dd, y, '/');
  }
}
