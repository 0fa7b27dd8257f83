// Times as the operator writes them into annotations, and what comparing the
// written texts as strings means (controllers/reconcile_rabbitmq_configurations.go).
module Rfc3339 {
  import Text

  datatype Civil = Civil(year: int, month: int, day: int, hour: int, minute: int, second: int)

  predicate Leap(y: int) {
    y % 4 == 0 && (y % 100 != 0 || y % 400 == 0)
  }

  function DaysIn(y: int, m: int): int {
    if m == 2 then (if Leap(y) then 29 else 28)
    else if m in {4, 6, 9, 11} then 30
    else 31
  }

  predicate Valid(c: Civil) {
    && 0 <= c.year <= 9999 && 1 <= c.month <= 12 && 1 <= c.day <= DaysIn(c.year, c.month)
    && 0 <= c.hour < 24 && 0 <= c.minute < 60 && 0 <= c.second < 60
  }

  // A time of a year with four digits, read on a clock with one fixed offset.
  type Time = c: Civil | Valid(c) witness Civil(1970, 1, 1, 0, 0, 0)

  function DaysBeforeYear(y: nat): nat {
    if y == 0 then 0 else DaysBeforeYear(y - 1) + (if Leap(y - 1) then 366 else 365)
  }

  function DaysBeforeMonth(y: int, m: nat): nat {
    if m <= 1 then 0 else DaysBeforeMonth(y, m - 1) + DaysIn(y, m - 1)
  }

  // Seconds elapsed since the start of year 0 on that clock.
  function Seconds(t: Time): int {
    var days := DaysBeforeYear(t.year) + DaysBeforeMonth(t.year, t.month) + t.day - 1;
    ((days * 24 + t.hour) * 60 + t.minute) * 60 + t.second
  }

  /* ---- the text form, section 5.6 of RFC 3339 ---- */

  function Digits(n: int, width: nat): (s: string)
    requires 0 <= n
    ensures |s| == width
  {
    if width == 0 then "" else Digits(n / 10, width - 1) + [Text.DigitChar(n % 10)]
  }

  function Format(t: Time, zone: string): string {
    Digits(t.year, 4) + ("-" + (Digits(t.month, 2) + ("-" + (Digits(t.day, 2) + ("T" +
    (Digits(t.hour, 2) + (":" + (Digits(t.minute, 2) + (":" + (Digits(t.second, 2) + zone))))))))))
  }

  // Go's `<` on strings.
  predicate Less(a: string, b: string) {
    b != "" && (a == "" || a[0] < b[0] || (a[0] == b[0] && Less(a[1..], b[1..])))
  }

  function Pow10(w: nat): nat {
    if w == 0 then 1 else 10 * Pow10(w - 1)
  }

  lemma {:induction false} DigitsReadBack(n: int, w: nat)
    requires 0 <= n < Pow10(w)
    ensures Text.Numeral(Digits(n, w)) == n && (w > 0 ==> Digits(n, w)[0] != '-')
  {
    if w > 0 {
      DigitsReadBack(n / 10, w - 1);
      var s := Digits(n, w);
      assert s[..w - 1] == Digits(n / 10, w - 1) && s[w - 1] as int == '0' as int + n % 10;
      assert w > 1 ==> s[0] == Digits(n / 10, w - 1)[0];
    }
  }

  lemma FieldsStand(t: Time, zone: string)
    ensures var f := Format(t, zone);
            && |f| == 19 + |zone| && f[19..] == zone
            && f[4] == f[7] == '-' && f[10] == 'T' && f[13] == f[16] == ':'
            && f[..4] == Digits(t.year, 4) && f[5..7] == Digits(t.month, 2) && f[8..10] == Digits(t.day, 2)
            && f[11..13] == Digits(t.hour, 2) && f[14..16] == Digits(t.minute, 2) && f[17..19] == Digits(t.second, 2)
  {
    hide Digits;
    var f := Format(t, zone);
    var end := Digits(t.minute, 2) + (":" + (Digits(t.second, 2) + zone));
    var clock := Digits(t.hour, 2) + (":" + end);
    assert f[11..] == clock && clock[3..] == end;
    assert f[14..] == end && end[3..] == Digits(t.second, 2) + zone;
    assert f[17..] == Digits(t.second, 2) + zone;
    assert f[11..][..2] == f[11..13] && f[14..][..2] == f[14..16];
    assert f[17..][..2] == f[17..19] && f[17..][2..] == f[19..];
    assert f[13] == clock[2] && f[16] == end[2];
  }

  // Where each field stands, and that it is read back from there.
  lemma TextReadsBack(t: Time, zone: string)
    ensures var f := Format(t, zone);
            && |f| == 19 + |zone| && f[19..] == zone
            && f[4] == f[7] == '-' && f[10] == 'T' && f[13] == f[16] == ':'
            && Text.Numeral(f[..4]) == t.year && Text.Numeral(f[5..7]) == t.month && Text.Numeral(f[8..10]) == t.day
            && Text.Numeral(f[11..13]) == t.hour && Text.Numeral(f[14..16]) == t.minute
            && Text.Numeral(f[17..19]) == t.second
  {
    FieldsStand(t, zone);
    assert Pow10(2) == 100;
    assert Pow10(4) == 10 * (10 * Pow10(2));
    hide Digits, Format, Text.Numeral, Pow10;
    DigitsReadBack(t.year, 4);
    DigitsReadBack(t.month, 2);
    DigitsReadBack(t.day, 2);
    DigitsReadBack(t.hour, 2);
    DigitsReadBack(t.minute, 2);
    DigitsReadBack(t.second, 2);
  }

  /* ---- lexicographic comparison of concatenations ---- */

  lemma {:induction false} LessConcat(x: string, y: string, u: string, v: string)
    requires |x| == |y|
    ensures Less(x + u, y + v) <==> Less(x, y) || (x == y && Less(u, v))
  {
    if x == "" {
      assert x + u == u && y + v == v;
    } else {
      assert (x + u)[1..] == x[1..] + u && (y + v)[1..] == y[1..] + v;
      LessConcat(x[1..], y[1..], u, v);
      assert x == y <==> x[0] == y[0] && x[1..] == y[1..] by {
        assert x == [x[0]] + x[1..] && y == [y[0]] + y[1..];
      }
    }
  }

  lemma {:induction false} LessIrreflexive(a: string)
    ensures !Less(a, a)
  {
    if a != "" { LessIrreflexive(a[1..]); }
  }

  // Numbers padded to one width compare, as texts, like numbers.
  lemma {:induction false} DigitsOrder(m: int, n: int, w: nat)
    requires 0 <= m < Pow10(w) && 0 <= n < Pow10(w)
    ensures Less(Digits(m, w), Digits(n, w)) <==> m < n
    ensures Digits(m, w) == Digits(n, w) <==> m == n
  {
    if w > 0 {
      DigitsOrder(m / 10, n / 10, w - 1);
      var a, b := Digits(m / 10, w - 1), Digits(n / 10, w - 1);
      var c, d := Text.DigitChar(m % 10), Text.DigitChar(n % 10);
      LessConcat(a, b, [c], [d]);
      assert Less([c], [d]) <==> c < d;
      assert a + [c] == b + [d] <==> a == b && c == d by {
        assert (a + [c])[..w - 1] == a && (b + [d])[..w - 1] == b;
        assert (a + [c])[w - 1] == c && (b + [d])[w - 1] == d;
      }
    }
  }

  lemma LessField(m: int, n: int, w: nat, u: string, v: string)
    requires 0 <= m < Pow10(w) && 0 <= n < Pow10(w)
    ensures Less(Digits(m, w) + u, Digits(n, w) + v) <==> m < n || (m == n && Less(u, v))
  {
    DigitsOrder(m, n, w);
    LessConcat(Digits(m, w), Digits(n, w), u, v);
  }

  lemma LessSeparator(c: char, u: string, v: string)
    ensures Less([c] + u, [c] + v) <==> Less(u, v)
  {
    assert ([c] + u)[1..] == u && ([c] + v)[1..] == v;
  }

  /* ---- chronological order is lexicographic order of the fields ---- */

  predicate Earlier(a: Time, b: Time) {
    a.year < b.year || (a.year == b.year && (
    a.month < b.month || (a.month == b.month && (
    a.day < b.day || (a.day == b.day && (
    a.hour < b.hour || (a.hour == b.hour && (
    a.minute < b.minute || (a.minute == b.minute && a.second < b.second)))))))))
  }

  lemma TextIsLexicographic(a: Time, b: Time, zone: string)
    ensures Less(Format(a, zone), Format(b, zone)) <==> Earlier(a, b)
  {
    assert Pow10(2) == 100;
    assert Pow10(4) == 10 * (10 * Pow10(2));
    LessIrreflexive(zone);
    var a6, b6 := Digits(a.second, 2) + zone, Digits(b.second, 2) + zone;
    var a5, b5 := Digits(a.minute, 2) + (":" + a6), Digits(b.minute, 2) + (":" + b6);
    var a4, b4 := Digits(a.hour, 2) + (":" + a5), Digits(b.hour, 2) + (":" + b5);
    var a3, b3 := Digits(a.day, 2) + ("T" + a4), Digits(b.day, 2) + ("T" + b4);
    var a2, b2 := Digits(a.month, 2) + ("-" + a3), Digits(b.month, 2) + ("-" + b3);
    LessField(a.second, b.second, 2, zone, zone);
    LessSeparator(':', a6, b6);
    LessField(a.minute, b.minute, 2, ":" + a6, ":" + b6);
    LessSeparator(':', a5, b5);
    LessField(a.hour, b.hour, 2, ":" + a5, ":" + b5);
    LessSeparator('T', a4, b4);
    LessField(a.day, b.day, 2, "T" + a4, "T" + b4);
    LessSeparator('-', a3, b3);
    LessField(a.month, b.month, 2, "-" + a3, "-" + b3);
    LessSeparator('-', a2, b2);
    LessField(a.year, b.year, 4, "-" + a2, "-" + b2);
  }

  lemma {:induction false} YearsAccumulate(y: nat, z: nat)
    requires y < z
    ensures DaysBeforeYear(y) + (if Leap(y) then 366 else 365) <= DaysBeforeYear(z)
  {
    if y < z - 1 { YearsAccumulate(y, z - 1); }
  }

  lemma {:induction false} MonthsAccumulate(y: int, m: nat, n: nat)
    requires 1 <= m < n
    ensures DaysBeforeMonth(y, m) + DaysIn(y, m) <= DaysBeforeMonth(y, n)
  {
    if m < n - 1 { MonthsAccumulate(y, m, n - 1); }
  }

  lemma YearLength(y: int)
    ensures DaysBeforeMonth(y, 13) == if Leap(y) then 366 else 365
  {
    assert DaysBeforeMonth(y, 2) == 31;
    assert DaysBeforeMonth(y, 3) == 31 + DaysIn(y, 2);
    assert DaysBeforeMonth(y, 5) == DaysBeforeMonth(y, 3) + 61;
    assert DaysBeforeMonth(y, 7) == DaysBeforeMonth(y, 5) + 61;
    assert DaysBeforeMonth(y, 9) == DaysBeforeMonth(y, 7) + 62;
    assert DaysBeforeMonth(y, 11) == DaysBeforeMonth(y, 9) + 61;
    assert DaysBeforeMonth(y, 13) == DaysBeforeMonth(y, 11) + 61;
  }

  // The day number of a date falls inside its year.
  lemma DayInYear(t: Time)
    ensures 0 <= DaysBeforeMonth(t.year, t.month) + t.day - 1 < if Leap(t.year) then 366 else 365
  {
    YearLength(t.year);
    MonthsAccumulate(t.year, t.month, 13);
  }

  lemma EarlierIsChronological(a: Time, b: Time)
    requires Earlier(a, b)
    ensures Seconds(a) < Seconds(b)
  {
    var da := DaysBeforeYear(a.year) + DaysBeforeMonth(a.year, a.month) + a.day - 1;
    var db := DaysBeforeYear(b.year) + DaysBeforeMonth(b.year, b.month) + b.day - 1;
    if a.year < b.year {
      YearsAccumulate(a.year, b.year);
      DayInYear(a);
      DayInYear(b);
      assert da < db;
    } else if a.month < b.month {
      MonthsAccumulate(a.year, a.month, b.month);
      assert da < db;
    } else if a.day < b.day {
      assert da < db;
    }
  }

  // The main result: the texts compare like the instants they stand for,
  // for every two times written with one offset.
  lemma TextOrderIsTimeOrder(a: Time, b: Time, zone: string)
    ensures Less(Format(a, zone), Format(b, zone)) <==> Seconds(a) < Seconds(b)
    ensures Format(a, zone) == Format(b, zone) <==> Seconds(a) == Seconds(b)
    ensures Seconds(a) == Seconds(b) <==> a == b
  {
    TextIsLexicographic(a, b, zone);
    TextIsLexicographic(b, a, zone);
    LessIrreflexive(Format(a, zone));
    if Earlier(a, b) {
      EarlierIsChronological(a, b);
    } else if Earlier(b, a) {
      EarlierIsChronological(b, a);
    }
  }

  // With any two offset texts the local fields decide, and the offset texts
  // only between equal fields.
  lemma FieldsComeFirst(a: Time, za: string, b: Time, zb: string)
    ensures Less(Format(a, za), Format(b, zb)) <==> Seconds(a) < Seconds(b) || (a == b && Less(za, zb))
  {
    FormatZone(a, za);
    FormatZone(b, zb);
    LessConcat(Format(a, ""), Format(b, ""), za, zb);
    TextOrderIsTimeOrder(a, b, "");
  }

  // Text order is the order of the instants, which lie an offset before the
  // local times.
  ghost predicate OrdersInstants(za: string, oa: int, zb: string, ob: int) {
    forall a: Time, b: Time :: Less(Format(a, za), Format(b, zb)) <==> Seconds(a) - oa < Seconds(b) - ob
  }

  lemma SameOffsetsOrder(za: string, zb: string, o: int)
    requires !Less(za, zb)
    ensures OrdersInstants(za, o, zb, o)
  {
    hide Format, Less, Seconds, Valid;
    forall a: Time, b: Time ensures Less(Format(a, za), Format(b, zb)) <==> Seconds(a) - o < Seconds(b) - o {
      FieldsComeFirst(a, za, b, zb);
    }
  }

  lemma OrderAt(za: string, oa: int, zb: string, ob: int, a: Time, b: Time)
    requires OrdersInstants(za, oa, zb, ob)
    ensures Seconds(a) < Seconds(b) || (a == b && Less(za, zb)) <==> Seconds(a) - oa < Seconds(b) - ob
  {
    hide Format, Less, Seconds, Valid;
    FieldsComeFirst(a, za, b, zb);
  }

  // For offsets of whole minutes that is so exactly when the two are the same
  // and the text of one does not come before that of the other.
  lemma OffsetsMustAgree(za: string, oa: int, zb: string, ob: int)
    requires oa % 60 == 0 && ob % 60 == 0
    ensures OrdersInstants(za, oa, zb, ob) <==> oa == ob && !Less(za, zb)
  {
    hide *;
    if oa == ob && !Less(za, zb) {
      SameOffsetsOrder(za, zb, oa);
    } else if OrdersInstants(za, oa, zb, ob) {
      var first, next := OneSecondApart();
      OrderAt(za, oa, zb, ob, first, next);
      OrderAt(za, oa, zb, ob, next, first);
      OrderAt(za, oa, zb, ob, first, first);
    }
  }

  lemma OneSecondApart() returns (first: Time, next: Time)
    ensures Seconds(next) == Seconds(first) + 1
  {
    first, next := Civil(0, 1, 1, 0, 0, 0), Civil(0, 1, 1, 0, 0, 1);
  }

  lemma FormatZone(t: Time, zone: string)
    ensures Format(t, zone) == Format(t, "") + zone && |Format(t, "")| == 19
  {
  }
}
