/**
  UTC instants, the text `datetime.isoformat()` prints for them, and the proof that comparing
  those texts code point by code point is the same as comparing the instants.
  The fraction is printed with six digits, or not at all when it is zero, so the texts do not
  all have the same length.
 */
module IsoTime {

  // ----- the proleptic Gregorian calendar -----

  predicate LeapYear(y: nat) {
    y % 4 == 0 && (y % 100 != 0 || y % 400 == 0)
  }

  function DaysInYear(y: nat): nat {
    if LeapYear(y) then 366 else 365
  }

  function DaysInMonth(y: nat, m: nat): nat {
    if m == 2 then (if LeapYear(y) then 29 else 28)
    else if m in {4, 6, 9, 11} then 30
    else 31
  }

  function DaysBeforeYear(y: nat): nat {
    if y <= 1 then 0 else DaysBeforeYear(y - 1) + DaysInYear(y - 1)
  }

  function DaysBeforeMonth(y: nat, m: nat): nat {
    if m <= 1 then 0 else DaysBeforeMonth(y, m - 1) + DaysInMonth(y, m - 1)
  }

  /** A `datetime` whose offset is UTC. */
  datatype Fields = Fields(year: nat, month: nat, day: nat, hour: nat, minute: nat, second: nat, micro: nat) {
    predicate Valid() {
      && 1 <= year <= 9999
      && 1 <= month <= 12
      && 1 <= day <= DaysInMonth(year, month)
      && hour < 24 && minute < 60 && second < 60 && micro < 1_000_000
    }

    function Date(): nat {
      DaysBeforeYear(year) + DaysBeforeMonth(year, month) + day
    }

    /** Microseconds since the start of year 1: the chronological order of instants. */
    function Micros(): nat {
      (((Date() * 24 + hour) * 60 + minute) * 60 + second) * 1_000_000 + micro
    }
  }

  type Instant = t: Fields | t.Valid() witness Fields(1, 1, 1, 0, 0, 0, 0)

  predicate Before(a: Instant, b: Instant) {
    a.Micros() < b.Micros()
  }

  predicate NotAfter(a: Instant, b: Instant) {
    a.Micros() <= b.Micros()
  }

  // ----- the printed form -----

  function Digit(d: nat): char
    requires d < 10
  {
    '0' + d as char
  }

  /** `n` in decimal, padded with zeros to `width` characters. */
  function Digits(n: nat, width: nat): (s: string)
    ensures |s| == width
  {
    if width == 0 then "" else Digits(n / 10, width - 1) + [Digit(n % 10)]
  }

  function Fraction(micro: nat): string {
    if micro == 0 then "" else "." + Digits(micro, 6)
  }

  function Iso(t: Instant): string {
    Digits(t.year, 4) + ("-" + (Digits(t.month, 2) + ("-" + (Digits(t.day, 2) + ("T" + IsoClock(t))))))
  }

  function IsoClock(t: Instant): string {
    Digits(t.hour, 2) + (":" + (Digits(t.minute, 2) + (":" + (Digits(t.second, 2) + IsoTail(t.micro)))))
  }

  function IsoTail(micro: nat): string {
    Fraction(micro) + "+00:00"
  }

  // ----- comparing text, code point by code point (SQLite's BINARY collation on ASCII) -----

  predicate TextLess(s: string, t: string) {
    && t != ""
    && (s == "" || s[0] < t[0] || (s[0] == t[0] && TextLess(s[1..], t[1..])))
  }

  predicate TextLeq(s: string, t: string) {
    s == t || TextLess(s, t)
  }

  lemma TextLessIrreflexive(s: string)
    ensures !TextLess(s, s)
  {
  }

  lemma DropFirst(a: string, s: string)
    requires a != ""
    ensures a + s != "" && (a + s)[0] == a[0] && (a + s)[1..] == a[1..] + s
  {
  }

  lemma EqualParts(a: string, b: string, s: string, t: string)
    requires |a| == |b|
    ensures a + s == b + t <==> a == b && s == t
  {
    if a + s == b + t {
      assert a == (a + s)[..|a|] && b == (b + t)[..|b|];
      assert s == (a + s)[|a|..] && t == (b + t)[|b|..];
    }
  }

  lemma EqualStrings(a: string, b: string)
    requires a != "" && b != ""
    ensures a == b <==> a[0] == b[0] && a[1..] == b[1..]
  {
    if a[0] == b[0] && a[1..] == b[1..] {
      assert a == [a[0]] + a[1..] && b == [b[0]] + b[1..];
    }
  }

  /** Two leading parts of equal length decide the comparison unless they are equal. */
  lemma {:induction false} TextLessParts(a: string, b: string, s: string, t: string)
    requires |a| == |b|
    ensures TextLess(a + s, b + t) == (TextLess(a, b) || (a == b && TextLess(s, t)))
    ensures a + s == b + t <==> a == b && s == t
  {
    if a == "" {
      assert a + s == s && b + t == t;
    } else {
      DropFirst(a, s);
      DropFirst(b, t);
      TextLessParts(a[1..], b[1..], s, t);
      EqualStrings(a, b);
    }
    EqualParts(a, b, s, t);
  }

  function Pow10(k: nat): nat {
    if k == 0 then 1 else 10 * Pow10(k - 1)
  }

  /** Zero-padded numbers of one width compare as text exactly as they compare as numbers. */
  lemma {:induction false} DigitsOrder(n: nat, m: nat, width: nat)
    requires n < Pow10(width) && m < Pow10(width)
    ensures TextLess(Digits(n, width), Digits(m, width)) <==> n < m
    ensures Digits(n, width) == Digits(m, width) <==> n == m
  {
    if width > 0 {
      DigitsOrder(n / 10, m / 10, width - 1);
      var x, y := [Digit(n % 10)], [Digit(m % 10)];
      TextLessParts(Digits(n / 10, width - 1), Digits(m / 10, width - 1), x, y);
      assert TextLess(x, y) <==> n % 10 < m % 10;
    }
  }

  /** One numeric field followed by the rest of the text. */
  lemma FieldOrder(n: nat, m: nat, width: nat, s: string, t: string)
    requires n < Pow10(width) && m < Pow10(width)
    ensures TextLess(Digits(n, width) + s, Digits(m, width) + t) <==> n < m || (n == m && TextLess(s, t))
    ensures Digits(n, width) + s == Digits(m, width) + t <==> n == m && s == t
  {
    DigitsOrder(n, m, width);
    TextLessParts(Digits(n, width), Digits(m, width), s, t);
  }

  lemma SeparatorOrder(c: string, s: string, t: string)
    ensures TextLess(c + s, c + t) <==> TextLess(s, t)
    ensures c + s == c + t <==> s == t
  {
    TextLessIrreflexive(c);
    TextLessParts(c, c, s, t);
  }

  /** The optional fraction: '+' sorts before '.', so a zero fraction sorts first. */
  lemma TailOrder(n: nat, m: nat)
    requires n < 1_000_000 && m < 1_000_000
    ensures TextLess(IsoTail(n), IsoTail(m)) <==> n < m
    ensures IsoTail(n) == IsoTail(m) <==> n == m
  {
    assert Pow10(6) == 1_000_000 by { assert Pow10(3) == 1000; }
    var zone := "+00:00";
    if n > 0 && m > 0 {
      assert IsoTail(n) == "." + (Digits(n, 6) + zone) && IsoTail(m) == "." + (Digits(m, 6) + zone);
      SeparatorOrder(".", Digits(n, 6) + zone, Digits(m, 6) + zone);
      FieldOrder(n, m, 6, zone, zone);
      TextLessIrreflexive(zone);
    } else if n == 0 && m == 0 {
      TextLessIrreflexive(IsoTail(0));
    } else {
      assert IsoTail(0)[0] == '+';
      assert n > 0 ==> IsoTail(n)[0] == '.';
      assert m > 0 ==> IsoTail(m)[0] == '.';
    }
  }

  // ----- chronological order, field by field -----

  lemma {:induction false} YearsAscend(y: nat, z: nat)
    requires 1 <= y < z
    ensures DaysBeforeYear(y) + DaysInYear(y) <= DaysBeforeYear(z)
    decreases z
  {
    if y < z - 1 {
      YearsAscend(y, z - 1);
    }
  }

  lemma {:induction false} MonthsAscend(y: nat, m: nat, n: nat)
    requires 1 <= m < n
    ensures DaysBeforeMonth(y, m) + DaysInMonth(y, m) <= DaysBeforeMonth(y, n)
    decreases n
  {
    if m < n - 1 {
      MonthsAscend(y, m, n - 1);
    }
  }

  lemma YearHasItsMonths(y: nat)
    ensures DaysBeforeMonth(y, 13) == DaysInYear(y)
  {
    assert DaysBeforeMonth(y, 2) == DaysBeforeMonth(y, 1) + 31;
    assert DaysBeforeMonth(y, 3) == 31 + DaysInMonth(y, 2);
    assert DaysBeforeMonth(y, 5) == DaysBeforeMonth(y, 3) + 61;
    assert DaysBeforeMonth(y, 7) == DaysBeforeMonth(y, 5) + 61;
    assert DaysBeforeMonth(y, 9) == DaysBeforeMonth(y, 7) + 62;
    assert DaysBeforeMonth(y, 11) == DaysBeforeMonth(y, 9) + 61;
    assert DaysBeforeMonth(y, 13) == DaysBeforeMonth(y, 11) + 61;
  }

  predicate DateLess(a: Fields, b: Fields) {
    a.year < b.year || (a.year == b.year && (a.month < b.month || (a.month == b.month && a.day < b.day)))
  }

  lemma DateOrderOneWay(a: Instant, b: Instant)
    requires DateLess(a, b)
    ensures a.Date() < b.Date()
  {
    if a.year < b.year {
      YearsAscend(a.year, b.year);
      YearHasItsMonths(a.year);
      MonthsAscend(a.year, a.month, 13);
    } else if a.month < b.month {
      MonthsAscend(a.year, a.month, b.month);
    }
  }

  lemma DateOrder(a: Instant, b: Instant)
    ensures a.Date() < b.Date() <==> DateLess(a, b)
    ensures a.Date() == b.Date() <==> a.year == b.year && a.month == b.month && a.day == b.day
  {
    if DateLess(a, b) {
      DateOrderOneWay(a, b);
    } else if DateLess(b, a) {
      DateOrderOneWay(b, a);
    }
  }

  predicate ClockLess(a: Fields, b: Fields) {
    a.hour < b.hour || (a.hour == b.hour && (a.minute < b.minute || (a.minute == b.minute &&
    (a.second < b.second || (a.second == b.second && a.micro < b.micro)))))
  }

  lemma MicrosOrder(a: Instant, b: Instant)
    ensures Before(a, b) <==> DateLess(a, b) || (a.Date() == b.Date() && ClockLess(a, b))
    ensures a.Micros() == b.Micros() <==> a == b
  {
    DateOrder(a, b);
  }

  /** The clock part of the text compares as the time of day. */
  lemma ClockTextOrder(a: Instant, b: Instant)
    ensures TextLess(IsoClock(a), IsoClock(b)) <==> ClockLess(a, b)
    ensures IsoClock(a) == IsoClock(b) <==> a.hour == b.hour && a.minute == b.minute && a.second == b.second && a.micro == b.micro
  {
    assert Pow10(2) == 100;
    var sa, sb := Digits(a.second, 2) + IsoTail(a.micro), Digits(b.second, 2) + IsoTail(b.micro);
    var ma, mb := Digits(a.minute, 2) + (":" + sa), Digits(b.minute, 2) + (":" + sb);
    TailOrder(a.micro, b.micro);
    FieldOrder(a.second, b.second, 2, IsoTail(a.micro), IsoTail(b.micro));
    SeparatorOrder(":", sa, sb);
    FieldOrder(a.minute, b.minute, 2, ":" + sa, ":" + sb);
    SeparatorOrder(":", ma, mb);
    FieldOrder(a.hour, b.hour, 2, ":" + ma, ":" + mb);
  }

  /**
    The text order is the chronological order, and the text determines the instant.
    RFC 3339, section 5.1, promises this only for equal digit counts.
   */
  lemma IsoOrder(a: Instant, b: Instant)
    ensures TextLess(Iso(a), Iso(b)) <==> Before(a, b)
    ensures Iso(a) == Iso(b) <==> a == b
    ensures TextLeq(Iso(a), Iso(b)) <==> NotAfter(a, b)
  {
    assert Pow10(2) == 100 && Pow10(4) == 10000;
    var ta, tb := "T" + IsoClock(a), "T" + IsoClock(b);
    var da, db := Digits(a.day, 2) + ta, Digits(b.day, 2) + tb;
    var ma, mb := Digits(a.month, 2) + ("-" + da), Digits(b.month, 2) + ("-" + db);
    ClockTextOrder(a, b);
    SeparatorOrder("T", IsoClock(a), IsoClock(b));
    FieldOrder(a.day, b.day, 2, ta, tb);
    SeparatorOrder("-", da, db);
    FieldOrder(a.month, b.month, 2, "-" + da, "-" + db);
    SeparatorOrder("-", ma, mb);
    FieldOrder(a.year, b.year, 4, "-" + ma, "-" + mb);
    DateOrder(a, b);
    MicrosOrder(a, b);
  }
}
