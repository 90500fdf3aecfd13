/** Timestamps are stored as ISO 8601 text and compared by SQL as text. `isoformat` drops the
    fraction when it is zero, so texts differ in length; this module proves that their byte
    order is nevertheless the order of the instants. */
module Timestamps {
  /** A UTC `datetime`. */
  datatype DateTime = DateTime(
    year: nat, month: nat, day: nat, hour: nat, minute: nat, second: nat, micro: nat)

  // ---- The calendar ----

  predicate IsLeap(y: nat) { y % 4 == 0 && (y % 100 != 0 || y % 400 == 0) }

  function DaysInMonth(y: nat, m: nat): nat {
    if m == 2 then (if IsLeap(y) then 29 else 28)
    else if m in {4, 6, 9, 11} then 30
    else 31
  }

  function DaysInYear(y: nat): nat { if IsLeap(y) then 366 else 365 }

  function DaysBeforeYear(y: nat): nat
    requires y >= 1
  {
    if y == 1 then 0 else DaysBeforeYear(y - 1) + DaysInYear(y - 1)
  }

  function DaysBeforeMonth(y: nat, m: nat): nat
    requires m >= 1
  {
    if m == 1 then 0 else DaysBeforeMonth(y, m - 1) + DaysInMonth(y, m - 1)
  }

  predicate Valid(d: DateTime) {
    && 1 <= d.year <= 9999 && 1 <= d.month <= 12 && 1 <= d.day <= DaysInMonth(d.year, d.month)
    && d.hour < 24 && d.minute < 60 && d.second < 60 && d.micro < 1_000_000
  }

  /** Days since 0001-01-00, as `date.toordinal`. */
  function Ordinal(d: DateTime): nat
    requires Valid(d)
  {
    DaysBeforeYear(d.year) + DaysBeforeMonth(d.year, d.month) + d.day
  }

  /** Microseconds since the same origin: the instant itself. */
  function Instant(d: DateTime): nat
    requires Valid(d)
  {
    (((Ordinal(d) * 24 + d.hour) * 60 + d.minute) * 60 + d.second) * 1_000_000 + d.micro
  }

  // ---- The text ----

  function Digit(n: nat): char
    requires n < 10
  {
    '0' + n as char
  }

  function Digits(width: nat, n: nat): string {
    if width == 0 then "" else Digits(width - 1, n / 10) + [Digit(n % 10)]
  }

  /** `datetime.isoformat` of a UTC instant. */
  function IsoFormat(d: DateTime): string {
    Digits(4, d.year) + ("-" + (Digits(2, d.month) + ("-" + (Digits(2, d.day) + ("T" +
    (Digits(2, d.hour) + (":" + (Digits(2, d.minute) + (":" + (Digits(2, d.second) + Tail(d.micro)))))))))))
  }

  function Tail(micro: nat): string {
    if micro == 0 then "+00:00" else "." + (Digits(6, micro) + "+00:00")
  }

  /** SQLite's BINARY collation. */
  predicate TextLess(a: string, b: string) {
    b != [] && (a == [] || a[0] < b[0] || (a[0] == b[0] && TextLess(a[1..], b[1..])))
  }

  predicate TextAtMost(a: string, b: string) { !TextLess(b, a) }

  // ---- Text order, piece by piece ----

  lemma {:induction false} PrefixDecides(a: string, b: string, r: string, s: string)
    requires |a| == |b|
    ensures TextLess(a + r, b + s) <==> TextLess(a, b) || (a == b && TextLess(r, s))
  {
    if a == [] {
      assert a + r == r && b + s == s;
    } else {
      assert (a + r)[1..] == a[1..] + r && (b + s)[1..] == b[1..] + s;
      PrefixDecides(a[1..], b[1..], r, s);
      assert a == [a[0]] + a[1..] && b == [b[0]] + b[1..];
    }
  }

  function Pow10(w: nat): nat { if w == 0 then 1 else 10 * Pow10(w - 1) }

  lemma {:induction false} DigitsOrder(w: nat, m: nat, n: nat)
    requires m < Pow10(w) && n < Pow10(w)
    ensures |Digits(w, m)| == w && |Digits(w, n)| == w
    ensures Digits(w, m) == Digits(w, n) <==> m == n
    ensures TextLess(Digits(w, m), Digits(w, n)) <==> m < n
  {
    if w > 0 {
      DigitsOrder(w - 1, m / 10, n / 10);
      PrefixDecides(Digits(w - 1, m / 10), Digits(w - 1, n / 10), [Digit(m % 10)], [Digit(n % 10)]);
      assert Digits(w, m) == Digits(w, n) ==>
          Digits(w, m)[..w - 1] == Digits(w, n)[..w - 1] && Digits(w, m)[w - 1] == Digits(w, n)[w - 1];
    }
  }

  /** A numeral decides; on a tie the rest does, past a common separator. */
  lemma FieldDecides(w: nat, m: nat, n: nat, sep: string, r: string, s: string)
    requires m < Pow10(w) && n < Pow10(w)
    ensures TextLess(Digits(w, m) + (sep + r), Digits(w, n) + (sep + s)) <==> m < n || (m == n && TextLess(r, s))
  {
    DigitsOrder(w, m, n);
    PrefixDecides(Digits(w, m), Digits(w, n), sep + r, sep + s);
    PrefixDecides(sep, sep, r, s);
    Irreflexive(sep);
  }

  lemma {:induction false} Irreflexive(a: string)
    ensures !TextLess(a, a)
  {
    if a != [] {
      Irreflexive(a[1..]);
    }
  }

  /** '+' sorts before '.', so a dropped fraction sorts where a zero fraction belongs. */
  lemma TailOrder(m: nat, n: nat)
    requires m < 1_000_000 && n < 1_000_000
    ensures TextLess(Tail(m), Tail(n)) <==> m < n
  {
    assert Pow10(6) == 1_000_000 by { assert Pow10(3) == 1000; }
    if m != 0 && n != 0 {
      PrefixDecides(".", ".", Digits(6, m) + "+00:00", Digits(6, n) + "+00:00");
      DigitsOrder(6, m, n);
      PrefixDecides(Digits(6, m), Digits(6, n), "+00:00", "+00:00");
      Irreflexive("+00:00");
      Irreflexive(".");
    } else if m == 0 && n == 0 {
      Irreflexive("+00:00");
    }
  }

  // ---- Field order is the middle term ----

  predicate TimeOfDayLess(a: DateTime, b: DateTime) {
    || a.hour < b.hour
    || (a.hour == b.hour &&
        (a.minute < b.minute
         || (a.minute == b.minute &&
             (a.second < b.second || (a.second == b.second && a.micro < b.micro)))))
  }

  predicate DateLess(a: DateTime, b: DateTime) {
    a.year < b.year || (a.year == b.year && (a.month < b.month || (a.month == b.month && a.day < b.day)))
  }

  predicate SameDate(a: DateTime, b: DateTime) { a.year == b.year && a.month == b.month && a.day == b.day }

  predicate FieldsLess(a: DateTime, b: DateTime) {
    DateLess(a, b) || (SameDate(a, b) && TimeOfDayLess(a, b))
  }

  function TimeText(d: DateTime): string {
    Digits(2, d.hour) + (":" + (Digits(2, d.minute) + (":" + (Digits(2, d.second) + Tail(d.micro)))))
  }

  lemma TimeTextOrder(a: DateTime, b: DateTime)
    requires Valid(a) && Valid(b)
    ensures TextLess(TimeText(a), TimeText(b)) <==> TimeOfDayLess(a, b)
  {
    TailOrder(a.micro, b.micro);
    assert "" + Tail(a.micro) == Tail(a.micro) && "" + Tail(b.micro) == Tail(b.micro);
    FieldDecides(2, a.second, b.second, "", Tail(a.micro), Tail(b.micro));
    FieldDecides(2, a.minute, b.minute, ":", Digits(2, a.second) + Tail(a.micro), Digits(2, b.second) + Tail(b.micro));
    FieldDecides(2, a.hour, b.hour, ":", Digits(2, a.minute) + (":" + (Digits(2, a.second) + Tail(a.micro))),
                 Digits(2, b.minute) + (":" + (Digits(2, b.second) + Tail(b.micro))));
  }

  lemma IsoFormatOrder(a: DateTime, b: DateTime)
    requires Valid(a) && Valid(b)
    ensures TextLess(IsoFormat(a), IsoFormat(b)) <==> FieldsLess(a, b)
  {
    TimeTextOrder(a, b);
    assert Pow10(4) == 10_000 by { assert Pow10(2) == 100; }
    FieldDecides(2, a.day, b.day, "T", TimeText(a), TimeText(b));
    FieldDecides(2, a.month, b.month, "-", Digits(2, a.day) + ("T" + TimeText(a)),
                 Digits(2, b.day) + ("T" + TimeText(b)));
    FieldDecides(4, a.year, b.year, "-", Digits(2, a.month) + ("-" + (Digits(2, a.day) + ("T" + TimeText(a)))),
                 Digits(2, b.month) + ("-" + (Digits(2, b.day) + ("T" + TimeText(b)))));
  }

  // ---- Calendar order ----

  lemma {:induction false} YearsGrow(y: nat, z: nat)
    requires 1 <= y < z
    ensures DaysBeforeYear(y) + DaysInYear(y) <= DaysBeforeYear(z)
  {
    if y < z - 1 {
      YearsGrow(y, z - 1);
    }
  }

  lemma {:induction false} MonthsGrow(y: nat, m: nat, n: nat)
    requires 1 <= m < n
    ensures DaysBeforeMonth(y, m) + DaysInMonth(y, m) <= DaysBeforeMonth(y, n)
  {
    if m < n - 1 {
      MonthsGrow(y, m, n - 1);
    }
  }

  lemma TwelveMonths(y: nat)
    ensures DaysBeforeMonth(y, 13) == DaysInYear(y)
  {
    assert DaysBeforeMonth(y, 2) == 31;
    assert DaysBeforeMonth(y, 3) == 31 + DaysInMonth(y, 2);
    assert DaysBeforeMonth(y, 4) == DaysBeforeMonth(y, 3) + 31;
    assert DaysBeforeMonth(y, 5) == DaysBeforeMonth(y, 3) + 61;
    assert DaysBeforeMonth(y, 6) == DaysBeforeMonth(y, 5) + 31;
    assert DaysBeforeMonth(y, 7) == DaysBeforeMonth(y, 5) + 61;
    assert DaysBeforeMonth(y, 8) == DaysBeforeMonth(y, 7) + 31;
    assert DaysBeforeMonth(y, 9) == DaysBeforeMonth(y, 7) + 62;
    assert DaysBeforeMonth(y, 10) == DaysBeforeMonth(y, 9) + 30;
    assert DaysBeforeMonth(y, 11) == DaysBeforeMonth(y, 9) + 61;
  }

  lemma DateOrder(a: DateTime, b: DateTime)
    requires Valid(a) && Valid(b) && DateLess(a, b)
    ensures Ordinal(a) < Ordinal(b)
  {
    if a.year < b.year {
      YearsGrow(a.year, b.year);
      MonthsGrow(a.year, a.month, 13);
      TwelveMonths(a.year);
    } else if a.month < b.month {
      MonthsGrow(a.year, a.month, b.month);
    }
  }

  function SecondOfDay(d: DateTime): nat {
    (d.hour * 60 + d.minute) * 60 + d.second
  }

  lemma InstantOrder(a: DateTime, b: DateTime)
    requires Valid(a) && Valid(b) && FieldsLess(a, b)
    ensures Instant(a) < Instant(b)
  {
    assert Instant(a) == (Ordinal(a) * 86_400 + SecondOfDay(a)) * 1_000_000 + a.micro;
    assert Instant(b) == (Ordinal(b) * 86_400 + SecondOfDay(b)) * 1_000_000 + b.micro;
    if DateLess(a, b) {
      DateOrder(a, b);
    }
  }

  /** Comparing the texts is comparing the instants, for all pairs of UTC timestamps. */
  lemma TextOrderIsTimeOrder(a: DateTime, b: DateTime)
    requires Valid(a) && Valid(b)
    ensures TextLess(IsoFormat(a), IsoFormat(b)) <==> Instant(a) < Instant(b)
    ensures TextAtMost(IsoFormat(a), IsoFormat(b)) <==> Instant(a) <= Instant(b)
    ensures IsoFormat(a) == IsoFormat(b) <==> Instant(a) == Instant(b)
  {
    IsoFormatOrder(a, b);
    IsoFormatOrder(b, a);
    if FieldsLess(a, b) {
      InstantOrder(a, b);
    } else if FieldsLess(b, a) {
      InstantOrder(b, a);
    } else {
      assert a == b;
    }
    Irreflexive(IsoFormat(a));
  }
}
