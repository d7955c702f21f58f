/**
 The UTC time text the tables hold. `datetime.isoformat()` writes six zero-padded fields, then the
 microseconds only when they are not zero, then the offset "+00:00"; SQLite compares the column byte by
 byte. The main result, `TextOrderIsTimeOrder`, says that this comparison decides the real order of the
 two instants, although texts of different length are compared.
 */
module Timestamps {
  const SECOND: nat := 1_000_000
  const DAY: nat := 86_400 * SECOND
  const UNIX_EPOCH_DAY: nat := 719_163  // proleptic ordinal of 1970-01-01
  const END: nat := 2_932_897 * DAY     // 10000-01-01T00:00:00, past the last datetime

  // ---------- the calendar ----------

  datatype Date = Date(year: nat, month: nat, day: nat)

  predicate Leap(y: nat) {
    y % 4 == 0 && (y % 100 != 0 || y % 400 == 0)
  }

  function YearDays(y: nat): nat {
    if Leap(y) then 366 else 365
  }

  function MonthDays(leap: bool, m: nat): nat {
    if m == 2 then (if leap then 29 else 28)
    else if m == 4 || m == 6 || m == 9 || m == 11 then 30
    else 31
  }

  /** Days of the months m..12. */
  function DaysFromMonth(leap: bool, m: nat): nat
    requires 1 <= m <= 13
    decreases 13 - m
  {
    if m == 13 then 0 else MonthDays(leap, m) + DaysFromMonth(leap, m + 1)
  }

  /** The month and day `days` days after the first day of month m. */
  function MonthAndDay(leap: bool, m: nat, days: nat): (r: (nat, nat))
    requires 1 <= m <= 12 && days < DaysFromMonth(leap, m)
    ensures m <= r.0 <= 12 && 1 <= r.1 <= MonthDays(leap, r.0)
    decreases 13 - m
  {
    if days < MonthDays(leap, m) then (m, days + 1) else MonthAndDay(leap, m + 1, days - MonthDays(leap, m))
  }

  lemma YearIsItsMonths(leap: bool)
    ensures DaysFromMonth(leap, 1) == if leap then 366 else 365
  {
    assert DaysFromMonth(leap, 11) == 61;
    assert DaysFromMonth(leap, 9) == 122;
    assert DaysFromMonth(leap, 7) == 184;
    assert DaysFromMonth(leap, 5) == 245;
    assert DaysFromMonth(leap, 3) == 306;
  }

  /** The date `days` days after 1 January of year y. */
  function DateAfter(y: nat, days: nat): (d: Date)
    ensures d.year >= y && 1 <= d.month <= 12 && 1 <= d.day <= MonthDays(Leap(d.year), d.month)
    decreases days
  {
    YearIsItsMonths(Leap(y));
    if days < YearDays(y) then
      var (month, day) := MonthAndDay(Leap(y), 1, days);
      Date(y, month, day)
    else DateAfter(y + 1, days - YearDays(y))
  }

  /** The proleptic Gregorian ordinal by its closed formula, independent of `DateAfter`. */
  function Ordinal(d: Date): int
    requires d.year >= 1 && 1 <= d.month <= 12
  {
    DaysBeforeYear(d.year) + YearDays(d.year) - DaysFromMonth(Leap(d.year), d.month) + d.day
  }

  function DaysBeforeYear(y: nat): int
    requires y >= 1
  {
    (y - 1) * 365 + (y - 1) / 4 - (y - 1) / 100 + (y - 1) / 400
  }

  lemma NextQuotient4(y: nat)
    requires y >= 1
    ensures y / 4 == (y - 1) / 4 + if y % 4 == 0 then 1 else 0
  {
  }

  lemma NextQuotient100(y: nat)
    requires y >= 1
    ensures y / 100 == (y - 1) / 100 + if y % 100 == 0 then 1 else 0
  {
  }

  lemma NextQuotient400(y: nat)
    requires y >= 1
    ensures y / 400 == (y - 1) / 400 + if y % 400 == 0 then 1 else 0
  {
  }

  lemma CenturiesNest(y: nat)
    ensures y % 400 == 0 ==> y % 100 == 0
    ensures y % 100 == 0 ==> y % 4 == 0
  {
    if y % 400 == 0 {
      var q := y / 400;
      assert y == 100 * (4 * q);
    }
    if y % 100 == 0 {
      var q := y / 100;
      assert y == 4 * (25 * q);
    }
  }

  lemma NextYear(y: nat)
    requires y >= 1
    ensures DaysBeforeYear(y + 1) == DaysBeforeYear(y) + YearDays(y)
  {
    NextQuotient4(y);
    NextQuotient100(y);
    NextQuotient400(y);
    CenturiesNest(y);
  }

  lemma {:induction false} MonthAndDayOrdinal(leap: bool, m: nat, days: nat)
    requires 1 <= m <= 12 && days < DaysFromMonth(leap, m)
    ensures
      var (month, day) := MonthAndDay(leap, m, days);
      day - DaysFromMonth(leap, month) == days + 1 - DaysFromMonth(leap, m)
    decreases 13 - m
  {
    if days >= MonthDays(leap, m) {
      MonthAndDayOrdinal(leap, m + 1, days - MonthDays(leap, m));
    }
  }

  /** Counting days forward and the closed formula agree: the calendar used here is the Gregorian one. */
  lemma {:induction false} DateAfterOrdinal(y: nat, days: nat)
    requires y >= 1
    ensures Ordinal(DateAfter(y, days)) == DaysBeforeYear(y) + days + 1
    decreases days
  {
    hide Leap, DaysBeforeYear, DaysFromMonth, MonthDays;
    YearIsItsMonths(Leap(y));
    if days < YearDays(y) {
      MonthAndDayOrdinal(Leap(y), 1, days);
    } else {
      DateAfterOrdinal(y + 1, days - YearDays(y));
      NextYear(y);
    }
  }

  lemma FourDigitYear(days: nat)
    requires days * DAY < END
    ensures DateAfter(1970, days).year <= 9999
  {
    DateAfterOrdinal(1970, days);
    OrdinalBoundsYear(DateAfter(1970, days));
  }

  lemma OrdinalBoundsYear(d: Date)
    requires d.year >= 1 && 1 <= d.month <= 12 && d.day >= 1
    requires Ordinal(d) < UNIX_EPOCH_DAY + 2_932_897
    ensures d.year <= 9999
  {
    if d.year >= 10_000 {
      LaterYearsStartLater(10_000, d.year);
      DaysFromMonthBounded(Leap(d.year), d.month);
    }
  }

  lemma {:induction false} LaterYearsStartLater(a: nat, b: nat)
    requires 1 <= a <= b
    ensures DaysBeforeYear(a) <= DaysBeforeYear(b)
    decreases b - a
  {
    if a < b {
      LaterYearsStartLater(a, b - 1);
      NextYear(b - 1);
    }
  }

  lemma {:induction false} DaysFromMonthBounded(leap: bool, m: nat)
    requires 1 <= m <= 13
    ensures DaysFromMonth(leap, m) <= if leap then 366 else 365
    decreases m
  {
    if m == 1 {
      YearIsItsMonths(leap);
    } else {
      DaysFromMonthBounded(leap, m - 1);
    }
  }

  // ---------- the fields of an instant ----------

  function DayOf(t: nat): nat {
    t / DAY
  }

  function SecondOf(t: nat): nat {
    t % DAY / SECOND
  }

  function MicroOf(t: nat): nat {
    t % SECOND
  }

  /** Year, month, day, hour, minute and second of a number of microseconds since 1970-01-01T00:00:00Z. */
  function Fields(t: nat): (fs: seq<nat>)
    ensures |fs| == 6
  {
    var d := DateAfter(1970, DayOf(t));
    var s := SecondOf(t);
    [d.year, d.month, d.day, s / 3600, s / 60 % 60, s % 60]
  }

  predicate FieldsLess(a: seq<nat>, b: seq<nat>)
    requires |a| == |b|
  {
    a != [] && (a[0] < b[0] || (a[0] == b[0] && FieldsLess(a[1..], b[1..])))
  }

  lemma {:induction false} MonthAndDayIncreases(leap: bool, m: nat, a: nat, b: nat)
    requires 1 <= m <= 12 && a < b < DaysFromMonth(leap, m)
    ensures
      var d, e := MonthAndDay(leap, m, a), MonthAndDay(leap, m, b);
      d.0 < e.0 || (d.0 == e.0 && d.1 < e.1)
    decreases 13 - m
  {
    hide MonthDays;
    if a >= MonthDays(leap, m) {
      MonthAndDayIncreases(leap, m + 1, a - MonthDays(leap, m), b - MonthDays(leap, m));
    } else if b >= MonthDays(leap, m) {
      assert MonthAndDay(leap, m, b) == MonthAndDay(leap, m + 1, b - MonthDays(leap, m));
    }
  }

  predicate DateLess(d: Date, e: Date) {
    d.year < e.year || (d.year == e.year && (d.month < e.month || (d.month == e.month && d.day < e.day)))
  }

  lemma {:induction false} DateAfterIncreases(y: nat, a: nat, b: nat)
    requires a < b
    ensures DateLess(DateAfter(y, a), DateAfter(y, b))
    decreases b
  {
    YearIsItsMonths(Leap(y));
    if b < YearDays(y) {
      MonthAndDayIncreases(Leap(y), 1, a, b);
    } else if a >= YearDays(y) {
      DateAfterIncreases(y + 1, a - YearDays(y), b - YearDays(y));
    }
  }

  lemma TimeOfDayIncreases(s: nat, r: nat)
    requires s < r
    ensures
      s / 3600 < r / 3600 || (s / 3600 == r / 3600 &&
      (s / 60 % 60 < r / 60 % 60 || (s / 60 % 60 == r / 60 % 60 && s % 60 < r % 60)))
  {
    HoursMinutesSeconds(s);
    HoursMinutesSeconds(r);
  }

  lemma HoursMinutesSeconds(s: nat)
    ensures s == 3600 * (s / 3600) + 60 * (s / 60 % 60) + s % 60
  {
    assert s == 60 * (s / 60) + s % 60;
    assert s / 60 == 60 * (s / 60 / 60) + s / 60 % 60;
    assert s / 60 / 60 == s / 3600;
  }

  lemma SixFieldsLess(a: seq<nat>, b: seq<nat>, k: nat)
    requires |a| == |b| && k < |a| && a[..k] == b[..k] && a[k] < b[k]
    ensures FieldsLess(a, b)
  {
    if k > 0 {
      assert a[0] == a[..k][0] == b[..k][0] == b[0];
      assert a[1..][..k - 1] == a[..k][1..] == b[..k][1..] == b[1..][..k - 1];
      SixFieldsLess(a[1..], b[1..], k - 1);
    }
  }

  /** An instant is its day, the second of that day and the microsecond. */
  lemma Parts(t: nat)
    ensures t == 86_400_000_000 * DayOf(t) + 1_000_000 * SecondOf(t) + MicroOf(t)
    ensures SecondOf(t) < 86_400 && MicroOf(t) < 1_000_000
  {
    var d, x := t / DAY, t % DAY;
    var s, u := x / SECOND, x % SECOND;
    assert t == SECOND * (86_400 * d + s) + u;
    RemainderIs(86_400 * d + s, u);
  }

  lemma RemainderIs(q: nat, u: nat)
    requires u < SECOND
    ensures (SECOND * q + u) % SECOND == u
  {
  }

  lemma PartsIncrease(a: nat, b: nat)
    requires a < b
    ensures
      DayOf(a) < DayOf(b) || (DayOf(a) == DayOf(b) &&
      (SecondOf(a) < SecondOf(b) || (SecondOf(a) == SecondOf(b) && MicroOf(a) < MicroOf(b))))
  {
    hide *;
    Parts(a);
    Parts(b);
    LexFromLinear(DayOf(a), SecondOf(a), MicroOf(a), DayOf(b), SecondOf(b), MicroOf(b));
  }

  lemma LexFromLinear(d: int, s: int, u: int, e: int, r: int, v: int)
    requires 0 <= s < 86_400 && 0 <= r < 86_400 && 0 <= u < 1_000_000 && 0 <= v < 1_000_000
    requires 86_400_000_000 * d + 1_000_000 * s + u < 86_400_000_000 * e + 1_000_000 * r + v
    ensures d < e || (d == e && (s < r || (s == r && u < v)))
  {
  }

  lemma FieldsIncrease(a: nat, b: nat)
    requires a < b
    ensures FieldsLess(Fields(a), Fields(b)) || (Fields(a) == Fields(b) && MicroOf(a) < MicroOf(b))
  {
    PartsIncrease(a, b);
    if DayOf(a) < DayOf(b) {
      DayFieldsIncrease(a, b);
    } else if SecondOf(a) < SecondOf(b) {
      SecondFieldsIncrease(a, b);
    }
  }

  lemma DayFieldsIncrease(a: nat, b: nat)
    requires DayOf(a) < DayOf(b)
    ensures FieldsLess(Fields(a), Fields(b))
  {
    var d, e := DateAfter(1970, DayOf(a)), DateAfter(1970, DayOf(b));
    DateAfterIncreases(1970, DayOf(a), DayOf(b));
    var k := if d.year < e.year then 0 else if d.month < e.month then 1 else 2;
    assert Fields(a)[..k] == Fields(b)[..k];
    SixFieldsLess(Fields(a), Fields(b), k);
  }

  lemma SecondFieldsIncrease(a: nat, b: nat)
    requires DayOf(a) == DayOf(b) && SecondOf(a) < SecondOf(b)
    ensures FieldsLess(Fields(a), Fields(b))
  {
    var s, r := SecondOf(a), SecondOf(b);
    TimeOfDayIncreases(s, r);
    var k := if s / 3600 < r / 3600 then 3 else if s / 60 % 60 < r / 60 % 60 then 4 else 5;
    assert Fields(a)[..k] == Fields(b)[..k];
    SixFieldsLess(Fields(a), Fields(b), k);
  }

  lemma {:induction false} FieldsLessAsymmetric(a: seq<nat>, b: seq<nat>)
    requires |a| == |b| && FieldsLess(a, b)
    ensures !FieldsLess(b, a) && a != b
  {
    if a[0] == b[0] {
      FieldsLessAsymmetric(a[1..], b[1..]);
    }
  }

  /** Order on the fields, then on the microsecond, is exactly the order of time. */
  lemma FieldOrderIsTimeOrder(a: nat, b: nat)
    ensures a < b <==> FieldsLess(Fields(a), Fields(b)) || (Fields(a) == Fields(b) && MicroOf(a) < MicroOf(b))
  {
    if a < b {
      FieldsIncrease(a, b);
    } else if b < a {
      FieldsIncrease(b, a);
      if FieldsLess(Fields(b), Fields(a)) {
        FieldsLessAsymmetric(Fields(b), Fields(a));
      } else if FieldsLess(Fields(a), Fields(b)) {
        FieldsLessAsymmetric(Fields(a), Fields(b));
      }
    } else if FieldsLess(Fields(a), Fields(b)) {
      FieldsLessAsymmetric(Fields(a), Fields(b));
    }
  }

  // ---------- the text ----------

  function Digits(n: nat, width: nat): (s: string)
    ensures |s| == width
  {
    if width == 0 then "" else Digits(n / 10, width - 1) + [(n % 10) as char + '0']
  }

  function Pow10(k: nat): nat {
    if k == 0 then 1 else 10 * Pow10(k - 1)
  }

  /** The separators and widths of the six fixed fields. */
  const LAYOUT: seq<(string, nat)> := [("", 4), ("-", 2), ("-", 2), ("T", 2), (":", 2), (":", 2)]

  function Render(fs: seq<nat>, layout: seq<(string, nat)>): string
    requires |fs| == |layout|
  {
    if fs == [] then "" else layout[0].0 + Digits(fs[0], layout[0].1) + Render(fs[1..], layout[1..])
  }

  function Tail(micro: nat): string {
    (if micro == 0 then "" else "." + Digits(micro, 6)) + "+00:00"
  }

  /** `datetime.fromtimestamp(t, tz=timezone.utc).isoformat()`. */
  function Iso(t: nat): string
    requires t < END
  {
    Render(Fields(t), LAYOUT) + Tail(MicroOf(t))
  }

  /** SQLite's BINARY comparison of two texts. */
  predicate Less(a: string, b: string) {
    b != "" && (a == "" || a[0] < b[0] || (a[0] == b[0] && Less(a[1..], b[1..])))
  }

  lemma {:induction false} LessAppend(a: string, b: string, c: string, d: string)
    requires |a| == |b|
    ensures Less(a + c, b + d) <==> Less(a, b) || (a == b && Less(c, d))
  {
    if a == "" {
      assert a + c == c && b + d == d;
    } else {
      assert (a + c)[1..] == a[1..] + c && (b + d)[1..] == b[1..] + d;
      LessAppend(a[1..], b[1..], c, d);
      assert a == [a[0]] + a[1..] && b == [b[0]] + b[1..];
    }
  }

  lemma LessSingle(c: char, d: char)
    ensures Less([c], [d]) <==> c < d
  {
    assert [c][1..] == "" && [d][1..] == "";
  }

  lemma {:induction false} DigitsOrder(n: nat, m: nat, width: nat)
    requires n < Pow10(width) && m < Pow10(width)
    ensures Less(Digits(n, width), Digits(m, width)) <==> n < m
    ensures Digits(n, width) == Digits(m, width) <==> n == m
  {
    if width > 0 {
      var p, q := Digits(n / 10, width - 1), Digits(m / 10, width - 1);
      var c, d := (n % 10) as char + '0', (m % 10) as char + '0';
      DigitsOrder(n / 10, m / 10, width - 1);
      LessAppend(p, q, [c], [d]);
      LessSingle(c, d);
      assert n == 10 * (n / 10) + n % 10 && m == 10 * (m / 10) + m % 10;
      assert p == (p + [c])[..width - 1] && q == (q + [d])[..width - 1];
      assert c == (p + [c])[width - 1] && d == (q + [d])[width - 1];
    }
  }

  predicate Fits(fs: seq<nat>, layout: seq<(string, nat)>)
    requires |fs| == |layout|
  {
    forall i :: 0 <= i < |fs| ==> fs[i] < Pow10(layout[i].1)
  }

  lemma {:induction false} RenderOrder(a: seq<nat>, b: seq<nat>, layout: seq<(string, nat)>)
    requires |a| == |b| == |layout| && Fits(a, layout) && Fits(b, layout)
    ensures |Render(a, layout)| == |Render(b, layout)|
    ensures Less(Render(a, layout), Render(b, layout)) <==> FieldsLess(a, b)
    ensures Render(a, layout) == Render(b, layout) <==> a == b
  {
    if a != [] {
      var sep, width := layout[0].0, layout[0].1;
      var p, q := Digits(a[0], width), Digits(b[0], width);
      var r, s := Render(a[1..], layout[1..]), Render(b[1..], layout[1..]);
      forall i | 0 <= i < |a| - 1
        ensures a[1..][i] < Pow10(layout[1..][i].1) && b[1..][i] < Pow10(layout[1..][i].1)
      {
        assert a[i + 1] < Pow10(layout[i + 1].1) && b[i + 1] < Pow10(layout[i + 1].1);
      }
      RenderOrder(a[1..], b[1..], layout[1..]);
      DigitsOrder(a[0], b[0], width);
      LessAppend(sep + p, sep + q, r, s);
      LessAppend(sep, sep, p, q);
      LessIrreflexive(sep);
      SameParts(sep, p, r, q, s);
      assert a == [a[0]] + a[1..] && b == [b[0]] + b[1..];
    }
  }

  lemma SameParts(sep: string, p: string, r: string, q: string, s: string)
    requires |p| == |q|
    ensures sep + p + r == sep + q + s <==> p == q && r == s
    ensures sep + p == sep + q <==> p == q
  {
    assert p == (sep + p + r)[|sep|..|sep| + |p|] && q == (sep + q + s)[|sep|..|sep| + |q|];
    assert r == (sep + p + r)[|sep| + |p|..] && s == (sep + q + s)[|sep| + |q|..];
    assert p == (sep + p)[|sep|..] && q == (sep + q)[|sep|..];
  }

  lemma {:induction false} LessIrreflexive(a: string)
    ensures !Less(a, a)
  {
    if a != "" {
      LessIrreflexive(a[1..]);
    }
  }

  /** The '+' of an omitted microsecond part sorts before the '.' of a present one. */
  lemma TailOrder(a: nat, b: nat)
    requires a < SECOND && b < SECOND
    ensures Less(Tail(a), Tail(b)) <==> a < b
  {
    LessIrreflexive("+00:00");
    if a == 0 && b == 0 {
      assert Tail(a) == "+00:00" == Tail(b);
    } else if a == 0 {
      assert Tail(a) == "+00:00" && Tail(b)[0] == '.';
    } else if b == 0 {
      assert Tail(b) == "+00:00" && Tail(a)[0] == '.';
    } else {
      assert Pow10(6) == 1_000_000 by { assert Pow10(3) == 1000; }
      DigitsOrder(a, b, 6);
      LessAppend("." + Digits(a, 6), "." + Digits(b, 6), "+00:00", "+00:00");
      LessAppend(".", ".", Digits(a, 6), Digits(b, 6));
      LessIrreflexive(".");
      SameParts(".", Digits(a, 6), "", Digits(b, 6), "");
    }
  }

  lemma FieldsFit(t: nat)
    requires t < END
    ensures Fits(Fields(t), LAYOUT)
  {
    FourDigitYear(DayOf(t));
    assert Pow10(2) == 100 && Pow10(4) == 10_000;
    var fs := Fields(t);
    forall i | 0 <= i < 6
      ensures fs[i] < Pow10(LAYOUT[i].1)
    {
      assert LAYOUT[i].1 == if i == 0 then 4 else 2;
      assert SecondOf(t) < 86_400;
    }
  }

  lemma TextOrder(a: nat, b: nat)
    requires a < END && b < END
    ensures Less(Iso(a), Iso(b)) <==> a < b
  {
    FieldsFit(a);
    FieldsFit(b);
    RenderOrder(Fields(a), Fields(b), LAYOUT);
    TailOrder(MicroOf(a), MicroOf(b));
    FieldOrderIsTimeOrder(a, b);
    LessAppend(Render(Fields(a), LAYOUT), Render(Fields(b), LAYOUT), Tail(MicroOf(a)), Tail(MicroOf(b)));
  }

  /** For every pair of UTC instants, byte-wise text order decides time order, and no two instants share a text. */
  lemma TextOrderIsTimeOrder(a: nat, b: nat)
    requires a < END && b < END
    ensures Less(Iso(a), Iso(b)) <==> a < b
    ensures Iso(a) == Iso(b) <==> a == b
  {
    TextOrder(a, b);
    TextOrder(b, a);
    LessIrreflexive(Iso(a));
  }

  lemma RenderSix(f: seq<nat>)
    requires |f| == 6
    ensures Render(f, LAYOUT) ==
      Digits(f[0], 4) + "-" + Digits(f[1], 2) + "-" + Digits(f[2], 2)
      + "T" + Digits(f[3], 2) + ":" + Digits(f[4], 2) + ":" + Digits(f[5], 2)
  {
    hide Digits;
    RenderFirst(f, LAYOUT);
    RenderFirst(f[1..], LAYOUT[1..]);
    RenderFirst(f[2..], LAYOUT[2..]);
    RenderFirst(f[3..], LAYOUT[3..]);
    RenderFirst(f[4..], LAYOUT[4..]);
    RenderFirst(f[5..], LAYOUT[5..]);
    assert f[1..][1..] == f[2..] && f[2..][1..] == f[3..] && f[3..][1..] == f[4..] && f[4..][1..] == f[5..];
    assert LAYOUT[1..][1..] == LAYOUT[2..] && LAYOUT[2..][1..] == LAYOUT[3..] && LAYOUT[3..][1..] == LAYOUT[4..];
    assert LAYOUT[4..][1..] == LAYOUT[5..] && f[5..][1..] == [];
  }

  lemma RenderFirst(f: seq<nat>, layout: seq<(string, nat)>)
    requires |f| == |layout| > 0
    ensures Render(f, layout) == layout[0].0 + Digits(f[0], layout[0].1) + Render(f[1..], layout[1..])
  {
  }

  /** The text is the one of `isoformat()`: date, T, time, microseconds unless they are zero, and the UTC offset. */
  lemma IsoFormat(t: nat)
    requires t < END
    ensures
      var d, s := DateAfter(1970, t / 86_400_000_000), t % 86_400_000_000 / 1_000_000;
      Iso(t) ==
        Digits(d.year, 4) + "-" + Digits(d.month, 2) + "-" + Digits(d.day, 2)
        + "T" + Digits(s / 3600, 2) + ":" + Digits(s / 60 % 60, 2) + ":" + Digits(s % 60, 2)
        + (if t % 1_000_000 == 0 then "" else "." + Digits(t % 1_000_000, 6)) + "+00:00"
  {
    hide Digits, DateAfter, Render;
    RenderSix(Fields(t));
  }
}
