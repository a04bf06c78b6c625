/**
 `iso()`: the text form of a UTC instant, whose fraction is left out at zero
 microseconds, and the claim every lease and retry comparison in SQL rests on:
 comparing these texts is comparing the instants.
 */
module IsoText {

  datatype DateTime = DateTime(year: nat, month: nat, day: nat, hour: nat, minute: nat, second: nat, micro: nat)

  predicate Leap(y: nat) { y % 4 == 0 && (y % 100 != 0 || y % 400 == 0) }

  function DaysIn(y: nat, m: nat): nat {
    if m == 2 then (if Leap(y) then 29 else 28) else if m in {4, 6, 9, 11} then 30 else 31
  }

  // What Python's datetime can hold.
  predicate Valid(t: DateTime) {
    1 <= t.year <= 9999 && 1 <= t.month <= 12 && 1 <= t.day <= DaysIn(t.year, t.month)
    && t.hour < 24 && t.minute < 60 && t.second < 60 && t.micro < 1_000_000
  }

  // ------------------------------------------------------------------------- the text

  function Digits(n: nat, width: nat): string {
    if width == 0 then "" else Digits(n / 10, width - 1) + [('0' as int + n % 10) as char]
  }

  function Fraction(micro: nat): string {
    if micro == 0 then "+00:00" else "." + Digits(micro, 6) + "+00:00"
  }

  function Iso(t: DateTime): string {
    Digits(t.year, 4) + ("-" + (Digits(t.month, 2) + ("-" + (Digits(t.day, 2) +
    ("T" + (Digits(t.hour, 2) + (":" + (Digits(t.minute, 2) + (":" + (Digits(t.second, 2) + Fraction(t.micro)))))))))))
  }

  // Text comparison, as SQLite's BINARY collation does it.
  predicate Less(s: string, t: string) {
    t != "" && (s == "" || s[0] < t[0] || (s[0] == t[0] && Less(s[1..], t[1..])))
  }

  // ---------------------------------------------------------------------- the instant

  function DaysBeforeYear(y: nat): int
    requires y >= 1
  {
    var p := y - 1;
    365 * p + p / 4 - p / 100 + p / 400
  }

  function DaysBeforeMonth(y: nat, m: nat): nat {
    if m <= 1 then 0 else DaysBeforeMonth(y, m - 1) + DaysIn(y, m - 1)
  }

  function Days(t: DateTime): int
    requires Valid(t)
  {
    DaysBeforeYear(t.year) + DaysBeforeMonth(t.year, t.month) + t.day
  }

  // Microseconds on the proleptic Gregorian calendar.
  function Instant(t: DateTime): int
    requires Valid(t)
  {
    (((Days(t) * 24 + t.hour) * 60 + t.minute) * 60 + t.second) * 1_000_000 + t.micro
  }

  // ---------------------------------------------------- texts compare like their fields

  lemma {:induction false} LessConcat(u: string, v: string, x: string, y: string)
    requires |u| == |v|
    ensures Less(u + x, v + y) <==> Less(u, v) || (u == v && Less(x, y))
  {
    if u == "" {
      assert u + x == x && v + y == y;
    } else {
      LessConcat(u[1..], v[1..], x, y);
      assert (u + x)[1..] == u[1..] + x && (v + y)[1..] == v[1..] + y;
      assert u == [u[0]] + u[1..] && v == [v[0]] + v[1..];
    }
  }

  function Power10(k: nat): nat { if k == 0 then 1 else 10 * Power10(k - 1) }

  lemma {:induction false} DigitsCompare(a: nat, b: nat, k: nat)
    requires a < Power10(k) && b < Power10(k)
    ensures |Digits(a, k)| == |Digits(b, k)| == k
    ensures Less(Digits(a, k), Digits(b, k)) <==> a < b
    ensures Digits(a, k) == Digits(b, k) <==> a == b
  {
    if k > 0 {
      DigitsCompare(a / 10, b / 10, k - 1);
      var u, v := Digits(a / 10, k - 1), Digits(b / 10, k - 1);
      var x, y := [('0' as int + a % 10) as char], [('0' as int + b % 10) as char];
      LessConcat(u, v, x, y);
      assert Less(x, y) <==> a % 10 < b % 10;
      assert u + x == v + y <==> u == v && x == y by {
        assert (u + x)[..k - 1] == u && (v + y)[..k - 1] == v && (u + x)[k - 1..] == x && (v + y)[k - 1..] == y;
      }
      assert a == 10 * (a / 10) + a % 10 && b == 10 * (b / 10) + b % 10;
    }
  }

  lemma Widths()
    ensures Power10(2) == 100 && Power10(4) == 10_000 && Power10(6) == 1_000_000
  {
    assert Power10(3) == 1000 && Power10(5) == 100_000;
  }

  // '+' sorts before '.', so a missing fraction sorts before every fraction.
  lemma FractionCompare(a: nat, b: nat)
    requires a < 1_000_000 && b < 1_000_000
    ensures Less(Fraction(a), Fraction(b)) <==> a < b
    ensures Fraction(a) == Fraction(b) <==> a == b
  {
    if a != 0 && b != 0 {
      Widths();
      DigitsCompare(a, b, 6);
      var x, y := Digits(a, 6) + "+00:00", Digits(b, 6) + "+00:00";
      LessConcat(Digits(a, 6), Digits(b, 6), "+00:00", "+00:00");
      LessIrreflexive("+00:00");
      assert x[..6] == Digits(a, 6) && y[..6] == Digits(b, 6);
      assert Fraction(a) == "." + x && Fraction(b) == "." + y;
      assert Fraction(a)[1..] == x && Fraction(b)[1..] == y;
    } else if a != b {
      assert Fraction(a)[0] != Fraction(b)[0];
    } else {
      LessIrreflexive(Fraction(a));
    }
  }

  lemma {:induction false} LessIrreflexive(s: string)
    ensures !Less(s, s)
  {
    if s != "" { LessIrreflexive(s[1..]); }
  }

  // One field in front: a separator, two digits and what follows.
  lemma FieldCompare(sep: string, a: nat, b: nat, x: string, y: string)
    requires a < 100 && b < 100
    ensures var s, t := sep + (Digits(a, 2) + x), sep + (Digits(b, 2) + y);
            (Less(s, t) <==> a < b || (a == b && Less(x, y))) && (s == t <==> a == b && x == y)
  {
    Widths();
    DigitsCompare(a, b, 2);
    LessConcat(Digits(a, 2), Digits(b, 2), x, y);
    LessConcat(sep, sep, Digits(a, 2) + x, Digits(b, 2) + y);
    LessIrreflexive(sep);
    var u, v := Digits(a, 2) + x, Digits(b, 2) + y;
    assert u[..2] == Digits(a, 2) && u[2..] == x && v[..2] == Digits(b, 2) && v[2..] == y;
    assert (sep + u)[|sep|..] == u && (sep + v)[|sep|..] == v;
  }

  // Field by field, most significant first.
  predicate Earlier(s: DateTime, t: DateTime) {
    s.year < t.year || (s.year == t.year &&
    (s.month < t.month || (s.month == t.month && (s.day < t.day || (s.day == t.day &&
    (s.hour < t.hour || (s.hour == t.hour && (s.minute < t.minute || (s.minute == t.minute &&
    (s.second < t.second || (s.second == t.second && s.micro < t.micro)))))))))))
  }

  function SecondOn(t: DateTime): string { ":" + (Digits(t.second, 2) + Fraction(t.micro)) }
  function MinuteOn(t: DateTime): string { ":" + (Digits(t.minute, 2) + SecondOn(t)) }
  function HourOn(t: DateTime): string { "T" + (Digits(t.hour, 2) + MinuteOn(t)) }
  function DayOn(t: DateTime): string { "-" + (Digits(t.day, 2) + HourOn(t)) }
  function MonthOn(t: DateTime): string { "-" + (Digits(t.month, 2) + DayOn(t)) }

  lemma TextIsFieldOrder(s: DateTime, t: DateTime)
    requires Valid(s) && Valid(t)
    ensures Less(Iso(s), Iso(t)) <==> Earlier(s, t)
    ensures Iso(s) == Iso(t) <==> s == t
  {
    FractionCompare(s.micro, t.micro);
    FieldCompare(":", s.second, t.second, Fraction(s.micro), Fraction(t.micro));
    FieldCompare(":", s.minute, t.minute, SecondOn(s), SecondOn(t));
    FieldCompare("T", s.hour, t.hour, MinuteOn(s), MinuteOn(t));
    FieldCompare("-", s.day, t.day, HourOn(s), HourOn(t));
    FieldCompare("-", s.month, t.month, DayOn(s), DayOn(t));
    Widths();
    DigitsCompare(s.year, t.year, 4);
    LessConcat(Digits(s.year, 4), Digits(t.year, 4), MonthOn(s), MonthOn(t));
    assert Iso(s) == Digits(s.year, 4) + MonthOn(s) && Iso(t) == Digits(t.year, 4) + MonthOn(t);
    assert Iso(s)[..4] == Digits(s.year, 4) && Iso(s)[4..] == MonthOn(s);
    assert Iso(t)[..4] == Digits(t.year, 4) && Iso(t)[4..] == MonthOn(t);
  }

  // -------------------------------------------------- fields compare like their instants

  // Counting multiples one at a time.
  lemma MultiplesStep(y: nat, d: nat)
    requires y >= 1 && d >= 1
    ensures y / d == (y - 1) / d + (if y % d == 0 then 1 else 0)
  {
    var p := y - 1;
    var q, r := p / d, p % d;
    assert p == d * q + r;
    if r + 1 == d {
      assert y == d * (q + 1);
      QuotientIs(y, d, q + 1, 0);
    } else {
      QuotientIs(y, d, q, r + 1);
    }
  }

  lemma QuotientIs(n: nat, d: nat, q: nat, r: nat)
    requires d >= 1 && n == d * q + r && r < d
    ensures n / d == q && n % d == r
  {
    var k: int := n / d - q;
    assert n == d * (n / d) + n % d;
    assert d * k == r - n % d by { assert d * k == d * (n / d) - d * q; }
    assert (k >= 1 ==> d * k >= d) && (k < 0 ==> d * k + d <= 0);
  }

  lemma YearLength(y: nat)
    requires y >= 1
    ensures DaysBeforeYear(y + 1) == DaysBeforeYear(y) + (if Leap(y) then 366 else 365)
  {
    MultiplesStep(y, 4);
    MultiplesStep(y, 100);
    MultiplesStep(y, 400);
    Century(y);
    var p := y - 1;
    assert DaysBeforeYear(y) == 365 * p + p / 4 - p / 100 + p / 400;
    assert DaysBeforeYear(y + 1) == 365 * y + y / 4 - y / 100 + y / 400;
  }

  lemma Century(y: nat)
    ensures y % 400 == 0 ==> y % 100 == 0
    ensures y % 100 == 0 ==> y % 4 == 0
  {
    if y % 400 == 0 { QuotientIs(y, 100, 4 * (y / 400), 0); }
    if y % 100 == 0 { QuotientIs(y, 4, 25 * (y / 100), 0); }
  }

  lemma {:induction false} YearsGrow(a: nat, b: nat)
    requires 1 <= a < b
    ensures DaysBeforeYear(a) + (if Leap(a) then 366 else 365) <= DaysBeforeYear(b)
    decreases b
  {
    YearLength(a);
    if a + 1 < b {
      YearsGrow(a, b - 1);
      YearLength(b - 1);
    }
  }

  lemma {:induction false} MonthsGrow(y: nat, a: nat, b: nat)
    requires 1 <= a < b
    ensures DaysBeforeMonth(y, a) + DaysIn(y, a) <= DaysBeforeMonth(y, b)
    decreases b
  {
    if a + 1 < b { MonthsGrow(y, a, b - 1); }
  }

  lemma DayOfYear(y: nat, m: nat, d: nat)
    requires 1 <= m <= 12 && 1 <= d <= DaysIn(y, m)
    ensures 1 <= DaysBeforeMonth(y, m) + d <= (if Leap(y) then 366 else 365)
  {
    MonthsGrow(y, m, 13);
    assert DaysBeforeMonth(y, 7) == (if Leap(y) then 182 else 181) by {
      assert DaysBeforeMonth(y, 3) == 59 + (if Leap(y) then 1 else 0);
      assert DaysBeforeMonth(y, 5) == 120 + (if Leap(y) then 1 else 0);
    }
    assert DaysBeforeMonth(y, 10) == DaysBeforeMonth(y, 7) + 92 by {
      assert DaysBeforeMonth(y, 9) == DaysBeforeMonth(y, 7) + 62;
    }
    assert DaysBeforeMonth(y, 13) == DaysBeforeMonth(y, 10) + 92 by {
      assert DaysBeforeMonth(y, 12) == DaysBeforeMonth(y, 10) + 61;
    }
  }

  lemma EarlierDay(s: DateTime, t: DateTime)
    requires Valid(s) && Valid(t)
    requires s.year < t.year || (s.year == t.year && (s.month < t.month || (s.month == t.month && s.day < t.day)))
    ensures Days(s) < Days(t)
  {
    DayOfYear(s.year, s.month, s.day);
    if s.year < t.year {
      YearsGrow(s.year, t.year);
      DayOfYear(t.year, t.month, t.day);
    } else if s.month < t.month {
      MonthsGrow(s.year, s.month, t.month);
    }
  }

  lemma EarlierIsBefore(s: DateTime, t: DateTime)
    requires Valid(s) && Valid(t) && Earlier(s, t)
    ensures Instant(s) < Instant(t)
  {
    if s.year != t.year || s.month != t.month || s.day != t.day {
      EarlierDay(s, t);
    }
  }

  /** For all UTC datetimes, text order is chronological order, and equal texts are equal instants. */
  lemma TextOrderIsTimeOrder(s: DateTime, t: DateTime)
    requires Valid(s) && Valid(t)
    ensures Less(Iso(s), Iso(t)) <==> Instant(s) < Instant(t)
    ensures Iso(s) == Iso(t) <==> Instant(s) == Instant(t)
  {
    TextIsFieldOrder(s, t);
    if Earlier(s, t) { EarlierIsBefore(s, t); }
    else if s != t { EarlierIsBefore(t, s); }
  }
}
