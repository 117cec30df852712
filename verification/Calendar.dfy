/** Calendar dates, their ISO texts, and how both are ordered. */
module Calendar {
  import opened Division

  datatype Date = Date(year: int, month: int, day: int)

  predicate LeapYear(y: int) {
    y % 4 == 0 && (y % 100 != 0 || y % 400 == 0)
  }

  function MonthLength(y: int, m: int): (n: int)
    ensures 28 <= n <= 31
  {
    if m == 2 then (if LeapYear(y) then 29 else 28)
    else if m == 4 || m == 6 || m == 9 || m == 11 then 30
    else 31
  }

  /** A date as Python's `date` has them, years of up to four digits. */
  predicate Valid(d: Date) {
    1 <= d.year <= 9999 && 1 <= d.month <= 12 && 1 <= d.day <= MonthLength(d.year, d.month)
  }

  predicate Before(a: Date, b: Date) {
    || a.year < b.year
    || (a.year == b.year && (a.month < b.month || (a.month == b.month && a.day < b.day)))
  }

  predicate SameMonth(a: Date, b: Date) {
    a.year == b.year && a.month == b.month
  }

  // ---------------------------------------------------------------- counting days

  function YearLength(y: int): int {
    if LeapYear(y) then 366 else 365
  }

  function DaysBeforeYear(y: nat): int {
    if y <= 1 then 0 else DaysBeforeYear(y - 1) + YearLength(y - 1)
  }

  function DaysBeforeMonth(y: int, m: nat): int {
    if m <= 1 then 0 else DaysBeforeMonth(y, m - 1) + MonthLength(y, m - 1)
  }

  /** The number of a day, the first day of year 1 being day 1. */
  function DayNumber(d: Date): int
    requires Valid(d)
  {
    DaysBeforeYear(d.year) + DaysBeforeMonth(d.year, d.month) + d.day
  }

  /** The lengths of the months, and the days of all the years before one: a leap day every fourth year, but only every
      fourth time at the turn of a century. */
  lemma MonthLengths(y: int, m: int)
    requires 1 <= m <= 12
    ensures MonthLength(y, m)
         == [31, 28, 31, 30, 31, 30, 31, 31, 30, 31, 30, 31][m - 1] + if m == 2 && LeapYear(y) then 1 else 0
  {
  }

  lemma {:induction false} YearsInDays(y: nat)
    requires y >= 1
    ensures DaysBeforeYear(y) == 365 * (y - 1) + (y - 1) / 4 - (y - 1) / 100 + (y - 1) / 400
  {
    if y > 1 {
      YearsInDays(y - 1);
      OneMoreYear(y - 1);
    }
  }

  lemma OneMoreYear(y: nat)
    requires y >= 1
    ensures y / 4 - y / 100 + y / 400 == (y - 1) / 4 - (y - 1) / 100 + (y - 1) / 400 + if LeapYear(y) then 1 else 0
  {
    OneMore(y, 4);
    OneMore(y, 100);
    OneMore(y, 400);
    Multiple(y, 4, 25);
    Multiple(y, 100, 4);
    LeapCount(y % 4 == 0, y % 100 == 0, y % 400 == 0, y);
  }

  lemma LeapCount(fourth: bool, turn: bool, cycle: bool, y: nat)
    requires fourth == (y % 4 == 0) && turn == (y % 100 == 0) && cycle == (y % 400 == 0)
    requires (cycle ==> turn) && (turn ==> fourth)
    ensures (if LeapYear(y) then 1 else 0)
         == (if fourth then 1 else 0) - (if turn then 1 else 0) + if cycle then 1 else 0
  {
  }

  lemma {:induction false} MonthsGrow(y: int, m: nat, n: nat)
    requires 1 <= m < n
    ensures DaysBeforeMonth(y, m) + MonthLength(y, m) <= DaysBeforeMonth(y, n)
  {
    if m < n - 1 {
      MonthsGrow(y, m, n - 1);
    }
  }

  lemma {:induction false} YearsGrow(y: nat, z: nat)
    requires 1 <= y < z
    ensures DaysBeforeYear(y) + YearLength(y) <= DaysBeforeYear(z)
  {
    if y < z - 1 {
      YearsGrow(y, z - 1);
    }
  }

  lemma YearHasTwelveMonths(y: int)
    ensures DaysBeforeMonth(y, 12) + 31 == YearLength(y)
  {
    assert DaysBeforeMonth(y, 2) == 31;
    assert DaysBeforeMonth(y, 4) == DaysBeforeMonth(y, 2) + MonthLength(y, 2) + 31;
    assert DaysBeforeMonth(y, 6) == DaysBeforeMonth(y, 4) + 30 + 31;
    assert DaysBeforeMonth(y, 8) == DaysBeforeMonth(y, 6) + 30 + 31;
    assert DaysBeforeMonth(y, 10) == DaysBeforeMonth(y, 8) + 31 + 30;
    assert DaysBeforeMonth(y, 12) == DaysBeforeMonth(y, 10) + 31 + 30;
  }

  lemma DayWithinYear(d: Date)
    requires Valid(d)
    ensures 1 <= DaysBeforeMonth(d.year, d.month) + d.day <= YearLength(d.year)
  {
    YearHasTwelveMonths(d.year);
    if d.month > 1 {
      MonthsGrow(d.year, 1, d.month);
    }
    if d.month < 12 {
      MonthsGrow(d.year, d.month, 12);
    }
  }

  /** Days are numbered in order. */
  lemma BeforeIsLess(a: Date, b: Date)
    requires Valid(a) && Valid(b)
    ensures Before(a, b) <==> DayNumber(a) < DayNumber(b)
  {
    NumberedInOrder(a, b);
    NumberedInOrder(b, a);
  }

  lemma NumberedInOrder(a: Date, b: Date)
    requires Valid(a) && Valid(b)
    ensures Before(a, b) ==> DayNumber(a) < DayNumber(b)
  {
    DayWithinYear(a);
    DayWithinYear(b);
    if a.year < b.year {
      YearsGrow(a.year, b.year);
    } else if a.year == b.year && a.month < b.month {
      MonthsGrow(a.year, a.month, b.month);
    }
  }

  function PreviousDay(d: Date): Date {
    if d.day > 1 then d.(day := d.day - 1)
    else if d.month > 1 then Date(d.year, d.month - 1, MonthLength(d.year, d.month - 1))
    else Date(d.year - 1, 12, 31)
  }

  lemma PreviousDayNumber(d: Date)
    requires Valid(d) && DayNumber(d) > 1
    ensures Valid(PreviousDay(d)) && DayNumber(PreviousDay(d)) == DayNumber(d) - 1
  {
    if d.day == 1 && d.month == 1 {
      YearHasTwelveMonths(d.year - 1);
    }
  }

  /** `n` days earlier, Python's `d - timedelta(days=n)`. */
  function DaysEarlier(d: Date, n: nat): Date {
    if n == 0 then d else PreviousDay(DaysEarlier(d, n - 1))
  }

  lemma {:induction false} DaysEarlierNumber(d: Date, n: nat)
    requires Valid(d) && n < DayNumber(d)
    ensures var e := DaysEarlier(d, n); Valid(e) && DayNumber(e) == DayNumber(d) - n
  {
    if n > 0 {
      DaysEarlierNumber(d, n - 1);
      PreviousDayNumber(DaysEarlier(d, n - 1));
    }
  }

  // ---------------------------------------------------------------- ISO texts

  function Digit(n: int): (c: char)
    requires 0 <= n < 10
    ensures c as int == '0' as int + n
  {
    ('0' as int + n) as char
  }

  function TwoDigits(n: int): (s: string)
    requires 0 <= n < 100
    ensures |s| == 2
  {
    [Digit(n / 10), Digit(n % 10)]
  }

  /** The month part of an ISO text, dash included. */
  function MonthText(d: Date): (s: string)
    requires Valid(d)
    ensures |s| == 8
  {
    (TwoDigits(d.year / 100) + TwoDigits(d.year % 100)) + ("-" + (TwoDigits(d.month) + "-"))
  }

  /** `date.isoformat`: YYYY-MM-DD. */
  function Iso(d: Date): (s: string)
    requires Valid(d)
    ensures |s| == 10 && s[..8] == MonthText(d)
  {
    MonthText(d) + TwoDigits(d.day)
  }

  /** Python's `<` on texts. */
  predicate TextLess(s: string, t: string) {
    t != [] && (s == [] || s[0] < t[0] || (s[0] == t[0] && TextLess(s[1..], t[1..])))
  }

  /** Texts with parts of equal length are ordered by the first parts, then by the second. */
  lemma {:induction false} TextLessParts(a: string, b: string, s: string, t: string)
    requires |a| == |b|
    ensures TextLess(a + s, b + t) <==> TextLess(a, b) || (a == b && TextLess(s, t))
  {
    if a == [] {
      assert a + s == s && b + t == t;
    } else {
      assert (a + s)[1..] == a[1..] + s && (b + t)[1..] == b[1..] + t;
      assert a == [a[0]] + a[1..] && b == [b[0]] + b[1..];
      TextLessParts(a[1..], b[1..], s, t);
    }
  }

  lemma TwoDigitsOrder(m: int, n: int)
    requires 0 <= m < 100 && 0 <= n < 100
    ensures TextLess(TwoDigits(m), TwoDigits(n)) <==> m < n
    ensures TwoDigits(m) == TwoDigits(n) <==> m == n
  {
    var s, t := TwoDigits(m), TwoDigits(n);
    assert s[1..][0] == s[1] && t[1..][0] == t[1];
    assert !TextLess(s[1..][1..], t[1..][1..]);
    assert TextLess(s[1..], t[1..]) <==> s[1] < t[1];
    assert s == t ==> s[0] == t[0] && s[1] == t[1];
  }

  lemma {:induction false} TextNotLess(s: string)
    ensures !TextLess(s, s)
  {
    if s != [] {
      TextNotLess(s[1..]);
    }
  }

  lemma YearTextOrder(y: int, z: int)
    requires 1 <= y <= 9999 && 1 <= z <= 9999
    ensures var s, t := TwoDigits(y / 100) + TwoDigits(y % 100), TwoDigits(z / 100) + TwoDigits(z % 100);
            (TextLess(s, t) <==> y < z) && (s == t <==> y == z)
  {
    TwoDigitsOrder(y / 100, z / 100);
    TwoDigitsOrder(y % 100, z % 100);
    TextLessParts(TwoDigits(y / 100), TwoDigits(z / 100), TwoDigits(y % 100), TwoDigits(z % 100));
    SameParts(TwoDigits(y / 100), TwoDigits(z / 100), TwoDigits(y % 100), TwoDigits(z % 100));
  }

  lemma SameParts(a: string, b: string, s: string, t: string)
    requires |a| == |b|
    ensures a + s == b + t <==> a == b && s == t
  {
    if a + s == b + t {
      assert a == (a + s)[..|a|] && b == (b + t)[..|b|];
      assert s == (a + s)[|a|..] && t == (b + t)[|b|..];
    }
  }

  lemma MonthTextOrder(a: Date, b: Date)
    requires Valid(a) && Valid(b)
    ensures TextLess(MonthText(a), MonthText(b)) <==> a.year < b.year || (a.year == b.year && a.month < b.month)
    ensures MonthText(a) == MonthText(b) <==> SameMonth(a, b)
  {
    var m, n := TwoDigits(a.month), TwoDigits(b.month);
    var y, z := TwoDigits(a.year / 100) + TwoDigits(a.year % 100), TwoDigits(b.year / 100) + TwoDigits(b.year % 100);
    YearTextOrder(a.year, b.year);
    TwoDigitsOrder(a.month, b.month);
    TextNotLess("-");
    TextLessParts(m, n, "-", "-");
    SameParts(m, n, "-", "-");
    TextLessParts("-", "-", m + "-", n + "-");
    SameParts("-", "-", m + "-", n + "-");
    TextLessParts(y, z, "-" + (m + "-"), "-" + (n + "-"));
    SameParts(y, z, "-" + (m + "-"), "-" + (n + "-"));
  }

  /** ISO texts are ordered as the dates are, and no two dates share one. */
  lemma IsoOrder(a: Date, b: Date)
    requires Valid(a) && Valid(b)
    ensures TextLess(Iso(a), Iso(b)) <==> Before(a, b)
    ensures Iso(a) == Iso(b) <==> a == b
  {
    MonthTextOrder(a, b);
    TwoDigitsOrder(a.day, b.day);
    TextLessParts(MonthText(a), MonthText(b), TwoDigits(a.day), TwoDigits(b.day));
    SameParts(MonthText(a), MonthText(b), TwoDigits(a.day), TwoDigits(b.day));
  }

  /** An ISO text read as numbers is the date. */
  lemma IsoDigits(d: Date)
    requires Valid(d)
    ensures var s := Iso(d);
            && s[4] == '-' && s[7] == '-'
            && d.year == 1000 * DigitAt(s, 0) + 100 * DigitAt(s, 1) + 10 * DigitAt(s, 2) + DigitAt(s, 3)
            && d.month == 10 * DigitAt(s, 5) + DigitAt(s, 6) && d.day == 10 * DigitAt(s, 8) + DigitAt(s, 9)
  {
  }

  function DigitAt(s: string, i: nat): int
    requires i < |s|
  {
    s[i] as int - '0' as int
  }
}
