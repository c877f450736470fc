/** Timestamps `YYYY-MM-DDTHH:MM:SSZ` (src/email.rs): printing is invertible, and while
    years have four digits the order of the strings is the order of time. */
module Timestamp {
  import opened Calendar

  // ---------------------------------------------------------------- decimal fields

  function Digit(n: nat): char
    requires n < 10
  {
    '0' + n as char
  }

  predicate IsDigit(ch: char) { '0' <= ch <= '9' }

  function DigitValue(ch: char): nat
    requires IsDigit(ch)
  {
    (ch - '0') as int
  }

  /** Decimal digits, padded with zeros to at least `w`. */
  function Pad(n: nat, w: nat): string
    decreases n, w
  {
    if n == 0 && w == 0 then []
    else Pad(n / 10, if w == 0 then 0 else w - 1) + [Digit(n % 10)]
  }

  datatype Field = Field(value: nat, width: nat, sep: char)

  function Line(fs: seq<Field>): string {
    if fs == [] then [] else Pad(fs[0].value, fs[0].width) + [fs[0].sep] + Line(fs[1..])
  }

  function Fields(secs: nat): seq<Field>
    requires Positive(secs)
  {
    var days := secs / 86400;
    var rem := secs % 86400;
    var date := CivilFromDays(days);
    [Field(date.y, 4, '-'), Field(date.m, 2, '-'), Field(date.d, 2, 'T'),
     Field(rem / 3600, 2, ':'), Field((rem % 3600) / 60, 2, ':'), Field(rem % 60, 2, 'Z')]
  }

  /** The fields of the date are not negative; true of every second since the epoch. */
  predicate Positive(secs: nat) {
    var date := CivilFromDays(secs / 86400);
    date.y >= 0 && date.m >= 0 && date.d >= 0
  }

  lemma AfterEpoch(v: Date)
    requires Valid(v) && DayNumber(v) >= 0
    ensures v.y >= 1970
  {
    var epoch := Date(1970, 1, 1);
    assert DayNumber(epoch) == 0;
    if v.y < 1970 {
      DayNumberIncreases(v, epoch);
    }
  }

  lemma SinceEpoch(secs: nat)
    ensures Positive(secs) && CivilFromDays(secs / 86400).y >= 1970 && Valid(CivilFromDays(secs / 86400))
  {
    DayNumberOfCivil(secs / 86400);
    AfterEpoch(CivilFromDays(secs / 86400));
  }

  function Iso8601Utc(secs: nat): string {
    SinceEpoch(secs);
    Line(Fields(secs))
  }

  // ---------------------------------------------------------------- reading it back

  /** The number before the next separator, and what follows the separator. */
  function ReadNat(s: string, acc: nat): (nat, string) {
    if s == [] then (acc, [])
    else if IsDigit(s[0]) then ReadNat(s[1..], 10 * acc + DigitValue(s[0]))
    else (acc, s[1..])
  }

  function ReadFields(s: string, k: nat): seq<nat>
    decreases k
  {
    if k == 0 then [] else var (n, rest) := ReadNat(s, 0); [n] + ReadFields(rest, k - 1)
  }

  function Append(acc: nat, ds: string): nat
    requires forall i :: 0 <= i < |ds| ==> IsDigit(ds[i])
  {
    if ds == [] then acc else 10 * Append(acc, ds[..|ds| - 1]) + DigitValue(ds[|ds| - 1])
  }

  lemma {:induction false} PadDigits(n: nat, w: nat)
    ensures forall i :: 0 <= i < |Pad(n, w)| ==> IsDigit(Pad(n, w)[i])
    ensures Append(0, Pad(n, w)) == n
    decreases n, w
  {
    if n != 0 || w != 0 {
      var w' := if w == 0 then 0 else w - 1;
      PadDigits(n / 10, w');
      var p := Pad(n, w);
      assert p[..|p| - 1] == Pad(n / 10, w');
    }
  }

  lemma {:induction false} AppendFirst(acc: nat, ds: string)
    requires ds != [] && forall i :: 0 <= i < |ds| ==> IsDigit(ds[i])
    ensures Append(acc, ds) == Append(10 * acc + DigitValue(ds[0]), ds[1..])
    decreases |ds|
  {
    if |ds| > 1 {
      var init := ds[..|ds| - 1];
      AppendFirst(acc, init);
      assert ds[1..][..|ds| - 2] == init[1..];
    } else {
      assert ds[..0] == [] && ds[1..] == [];
    }
  }

  lemma {:induction false} ReadNumber(ds: string, sep: char, rest: string, acc: nat)
    requires !IsDigit(sep) && forall i :: 0 <= i < |ds| ==> IsDigit(ds[i])
    ensures ReadNat(ds + [sep] + rest, acc) == (Append(acc, ds), rest)
    decreases |ds|
  {
    var s := ds + [sep] + rest;
    if ds == [] {
      assert s[1..] == rest;
    } else {
      assert s[1..] == ds[1..] + [sep] + rest;
      AppendFirst(acc, ds);
      ReadNumber(ds[1..], sep, rest, 10 * acc + DigitValue(ds[0]));
    }
  }

  function Values(fs: seq<Field>): seq<nat> {
    if fs == [] then [] else [fs[0].value] + Values(fs[1..])
  }

  lemma {:induction false} ReadLine(fs: seq<Field>)
    requires forall i :: 0 <= i < |fs| ==> !IsDigit(fs[i].sep)
    ensures ReadFields(Line(fs), |fs|) == Values(fs)
  {
    if fs != [] {
      var f := fs[0];
      PadDigits(f.value, f.width);
      ReadNumber(Pad(f.value, f.width), f.sep, Line(fs[1..]), 0);
      ReadLine(fs[1..]);
    }
  }

  lemma SixValues(fs: seq<Field>)
    requires |fs| == 6
    ensures Values(fs) == [fs[0].value, fs[1].value, fs[2].value, fs[3].value, fs[4].value, fs[5].value]
  {
    assert Values(fs[6..]) == [];
    assert fs[5..][1..] == fs[6..] && Values(fs[5..]) == [fs[5].value];
    assert fs[4..][1..] == fs[5..] && Values(fs[4..]) == [fs[4].value, fs[5].value];
    assert fs[3..][1..] == fs[4..] && Values(fs[3..]) == [fs[3].value, fs[4].value, fs[5].value];
    assert fs[2..][1..] == fs[3..] && Values(fs[2..]) == [fs[2].value, fs[3].value, fs[4].value, fs[5].value];
    assert fs[1..][1..] == fs[2..];
  }

  /** Seconds from the six fields, by the calendar's own day count. */
  function Seconds(v: seq<nat>): int
    requires |v| == 6 && Valid(Date(v[0], v[1], v[2]))
  {
    DayNumber(Date(v[0], v[1], v[2])) * 86400 + v[3] * 3600 + v[4] * 60 + v[5]
  }

  /** Printing is invertible for every second since the epoch, whatever the width of the year. */
  lemma TimestampRoundTrip(secs: nat)
    ensures var v := ReadFields(Iso8601Utc(secs), 6);
      |v| == 6 && Valid(Date(v[0], v[1], v[2])) && Seconds(v) == secs
  {
    SinceEpoch(secs);
    var fs := Fields(secs);
    ReadLine(fs);
    SixValues(fs);
    DayNumberOfCivil(secs / 86400);
    var v := ReadFields(Iso8601Utc(secs), 6);
    assert Date(v[0], v[1], v[2]) == CivilFromDays(secs / 86400);
    Clock(secs % 86400);
  }

  lemma Clock(rem: nat)
    requires rem < 86400
    ensures (rem / 3600) * 3600 + ((rem % 3600) / 60) * 60 + rem % 60 == rem
    ensures rem / 3600 < 24 && (rem % 3600) / 60 < 60 && rem % 60 < 60
  {
  }

  /** No 64-bit second count makes the date computation overflow. */
  lemma PrintingNeverOverflows(secs: nat)
    requires Fits(secs)
    ensures DayFits(secs / 86400)
  {
    NoOverflowIff(secs / 86400);
  }

  const DIGITS := "0123456789"

  function Two(n: nat): string
    requires n < 100
  {
    [DIGITS[n / 10], DIGITS[n % 10]]
  }

  lemma DigitIsListed(n: nat)
    requires n < 10
    ensures Digit(n) == DIGITS[n]
  {
  }

  lemma PadsTwo(n: nat)
    requires n < 100
    ensures Pad(n, 2) == Two(n)
  {
    DigitIsListed(n / 10);
    DigitIsListed(n % 10);
    assert Pad(n / 10, 1) == Pad(0, 0) + [Digit(n / 10)];
  }

  lemma PadsFour(n: nat)
    requires n < 10000
    ensures Pad(n, 4) == Two(n / 100) + Two(n % 100)
  {
    DigitIsListed(n % 10);
    DigitIsListed(n / 10 % 10);
    PadsTwo(n / 10 / 10);
    assert Pad(n / 10, 3) == Pad(n / 10 / 10, 2) + [Digit(n / 10 % 10)];
    assert n / 10 / 10 == n / 100 && n % 100 / 10 == n / 10 % 10 && n % 100 % 10 == n % 10;
  }

  lemma SixFields(a: Field, b: Field, c: Field, d: Field, e: Field, f: Field)
    ensures Line([a, b, c, d, e, f])
         == Pad(a.value, a.width) + [a.sep] + (Pad(b.value, b.width) + [b.sep] + (Pad(c.value, c.width) + [c.sep]
            + (Pad(d.value, d.width) + [d.sep] + (Pad(e.value, e.width) + [e.sep]
            + (Pad(f.value, f.width) + [f.sep] + [])))))
  {
    LineCons(f, []);
    LineCons(e, [f]);
    LineCons(d, [e, f]);
    LineCons(c, [d, e, f]);
    LineCons(b, [c, d, e, f]);
    LineCons(a, [b, c, d, e, f]);
    assert [a] + [b, c, d, e, f] == [a, b, c, d, e, f] && [b] + [c, d, e, f] == [b, c, d, e, f];
    assert [c] + [d, e, f] == [c, d, e, f] && [d] + [e, f] == [d, e, f] && [e] + [f] == [e, f] && [f] + [] == [f];
  }

  lemma LineCons(f: Field, fs: seq<Field>)
    ensures Line([f] + fs) == Pad(f.value, f.width) + [f.sep] + Line(fs)
  {
    assert ([f] + fs)[1..] == fs;
  }

  /** While years have four digits: the date of the Gregorian day, then hours, minutes and seconds
      of the day, each in two digits. */
  lemma TimestampText(secs: nat)
    requires CivilFromDays(secs / 86400).y <= 9999
    ensures var date, rem := CivilFromDays(secs / 86400), secs % 86400;
      && Valid(date) && date.y >= 0
      && Iso8601Utc(secs)
         == Two(date.y / 100) + Two(date.y % 100) + "-" + (Two(date.m) + "-" + (Two(date.d) + "T"
            + (Two(rem / 3600) + ":" + (Two(rem % 3600 / 60) + ":" + (Two(rem % 60) + "Z")))))
  {
    SinceEpoch(secs);
    var date, rem := CivilFromDays(secs / 86400), secs % 86400;
    var fs := Fields(secs);
    SixFields(fs[0], fs[1], fs[2], fs[3], fs[4], fs[5]);
    assert fs == [fs[0], fs[1], fs[2], fs[3], fs[4], fs[5]];
    PadsFour(date.y);
    PadsTwo(date.m);
    PadsTwo(date.d);
    PadsTwo(rem / 3600);
    PadsTwo(rem % 3600 / 60);
    PadsTwo(rem % 60);
    assert Two(rem % 60) + "Z" + [] == Two(rem % 60) + "Z";
  }

  // ---------------------------------------------------------------- order

  /** String order: first difference decides, a proper prefix comes first. */
  predicate StringLess(a: string, b: string) {
    b != [] && (a == [] || a[0] < b[0] || (a[0] == b[0] && StringLess(a[1..], b[1..])))
  }

  lemma {:induction false} LessByPrefix(a: string, b: string, x: string, y: string)
    requires |a| == |b|
    ensures StringLess(a + x, b + y) <==> StringLess(a, b) || (a == b && StringLess(x, y))
    decreases |a|
  {
    if a == [] {
      assert a + x == x && b + y == y;
    } else {
      assert (a + x)[1..] == a[1..] + x && (b + y)[1..] == b[1..] + y;
      LessByPrefix(a[1..], b[1..], x, y);
      assert a == [a[0]] + a[1..] && b == [b[0]] + b[1..];
    }
  }

  function Pow10(w: nat): nat { if w == 0 then 1 else 10 * Pow10(w - 1) }

  lemma {:induction false} PadWidth(n: nat, w: nat)
    requires n < Pow10(w)
    ensures |Pad(n, w)| == w
    decreases w
  {
    if w > 0 {
      PadWidth(n / 10, w - 1);
    }
  }

  lemma LastDigitOrder(n: nat, m: nat)
    ensures n < m <==> n / 10 < m / 10 || (n / 10 == m / 10 && n % 10 < m % 10)
    ensures StringLess([Digit(n % 10)], [Digit(m % 10)]) <==> n % 10 < m % 10
  {
    assert [Digit(n % 10)][1..] == [] && [Digit(m % 10)][1..] == [];
  }

  lemma PadInjective(n: nat, m: nat, w: nat)
    ensures Pad(n, w) == Pad(m, w) <==> n == m
  {
    PadDigits(n, w);
    PadDigits(m, w);
  }

  lemma {:induction false} PadOrder(n: nat, m: nat, w: nat)
    requires n < Pow10(w) && m < Pow10(w)
    ensures StringLess(Pad(n, w), Pad(m, w)) <==> n < m
    decreases w
  {
    if w > 0 {
      PadOrder(n / 10, m / 10, w - 1);
      PadInjective(n / 10, m / 10, w - 1);
      PadWidth(n / 10, w - 1);
      PadWidth(m / 10, w - 1);
      LessByPrefix(Pad(n / 10, w - 1), Pad(m / 10, w - 1), [Digit(n % 10)], [Digit(m % 10)]);
      LastDigitOrder(n, m);
    }
  }

  /** The text is, for each entry of the format, that many digits and then that separator. */
  ghost predicate HasFormat(s: string, format: seq<(nat, char)>) {
    if format == [] then s == []
    else
      var (w, sep) := format[0];
      |s| > w && s[w] == sep && (forall i :: 0 <= i < w ==> IsDigit(s[i])) && HasFormat(s[w + 1..], format[1..])
  }

  lemma {:induction false} LineFormat(fs: seq<Field>, format: seq<(nat, char)>)
    requires |fs| == |format|
    requires forall i :: 0 <= i < |fs| ==>
      fs[i].width == format[i].0 && fs[i].sep == format[i].1 && fs[i].value < Pow10(fs[i].width)
    ensures HasFormat(Line(fs), format)
  {
    if fs != [] {
      var f := fs[0];
      PadWidth(f.value, f.width);
      PadDigits(f.value, f.width);
      assert Line(fs)[f.width + 1..] == Line(fs[1..]);
      LineFormat(fs[1..], format[1..]);
    }
  }

  /** Section 5.6 of RFC 3339: `dddd-dd-ddTdd:dd:ddZ`. */
  const FORMAT: seq<(nat, char)> := [(4, '-'), (2, '-'), (2, 'T'), (2, ':'), (2, ':'), (2, 'Z')]

  /** While years have four digits the text has that format. */
  lemma TimestampShape(secs: nat)
    requires CivilFromDays(secs / 86400).y <= 9999
    ensures HasFormat(Iso8601Utc(secs), FORMAT)
  {
    SinceEpoch(secs);
    Clock(secs % 86400);
    SmallPowers();
    LineFormat(Fields(secs), FORMAT);
  }

  lemma SmallPowers()
    ensures Pow10(2) == 100 && Pow10(4) == 10000
  {
    assert Pow10(1) == 10 && Pow10(3) == 1000;
  }

  ghost predicate SameShape(fs: seq<Field>, gs: seq<Field>) {
    |fs| == |gs| && forall i :: 0 <= i < |fs| ==> (
      && fs[i].width == gs[i].width && fs[i].sep == gs[i].sep
      && fs[i].value < Pow10(fs[i].width) && gs[i].value < Pow10(gs[i].width))
  }

  predicate FieldsLess(fs: seq<Field>, gs: seq<Field>)
    requires |fs| == |gs|
  {
    fs != [] && (fs[0].value < gs[0].value || (fs[0].value == gs[0].value && FieldsLess(fs[1..], gs[1..])))
  }

  lemma {:induction false} LineOrder(fs: seq<Field>, gs: seq<Field>)
    requires SameShape(fs, gs)
    ensures StringLess(Line(fs), Line(gs)) <==> FieldsLess(fs, gs)
  {
    if fs != [] {
      var p, q := Pad(fs[0].value, fs[0].width), Pad(gs[0].value, gs[0].width);
      PadWidth(fs[0].value, fs[0].width);
      PadWidth(gs[0].value, gs[0].width);
      PadOrder(fs[0].value, gs[0].value, fs[0].width);
      PadInjective(fs[0].value, gs[0].value, fs[0].width);
      var x, y := [fs[0].sep] + Line(fs[1..]), [gs[0].sep] + Line(gs[1..]);
      assert Line(fs) == p + x && Line(gs) == q + y;
      LessByPrefix(p, q, x, y);
      assert x[1..] == Line(fs[1..]) && y[1..] == Line(gs[1..]);
      LineOrder(fs[1..], gs[1..]);
    }
  }

  /** While years have four digits, string order is time order. */
  lemma TimestampOrder(a: nat, b: nat)
    requires CivilFromDays(a / 86400).y <= 9999 && CivilFromDays(b / 86400).y <= 9999
    ensures StringLess(Iso8601Utc(a), Iso8601Utc(b)) <==> a < b
  {
    SinceEpoch(a);
    SinceEpoch(b);
    Clock(a % 86400);
    Clock(b % 86400);
    var fs, gs := Fields(a), Fields(b);
    SmallPowers();
    LineOrder(fs, gs);
    FieldOrder(a, b, fs, gs);
  }

  /** Whether the fields from index `i` on come first. */
  predicate LessFrom(fs: seq<Field>, gs: seq<Field>, i: nat)
    requires |fs| == |gs| && i <= |fs|
  {
    FieldsLess(fs[i..], gs[i..])
  }

  lemma LessFromStep(fs: seq<Field>, gs: seq<Field>, i: nat)
    requires |fs| == |gs| && i < |fs|
    ensures LessFrom(fs, gs, i)
       <==> fs[i].value < gs[i].value || (fs[i].value == gs[i].value && LessFrom(fs, gs, i + 1))
  {
    assert fs[i..][1..] == fs[i + 1..] && gs[i..][1..] == gs[i + 1..];
  }

  lemma FieldOrder(a: nat, b: nat, fs: seq<Field>, gs: seq<Field>)
    requires Positive(a) && Positive(b) && fs == Fields(a) && gs == Fields(b)
    ensures FieldsLess(fs, gs) <==> a < b
  {
    CivilIncreases(a / 86400, b / 86400);
    CivilIncreases(b / 86400, a / 86400);
    ClockOrder(a % 86400, b % 86400, fs, gs);
    DateOrder(CivilFromDays(a / 86400), CivilFromDays(b / 86400), fs, gs);
    assert fs[0..] == fs && gs[0..] == gs;
    SplitOrder(a, b);
  }

  lemma SplitOrder(a: nat, b: nat)
    ensures a < b <==> a / 86400 < b / 86400 || (a / 86400 == b / 86400 && a % 86400 < b % 86400)
  {
  }

  lemma DateOrder(v: Date, w: Date, fs: seq<Field>, gs: seq<Field>)
    requires |fs| == |gs| == 6
    requires v.y == fs[0].value && v.m == fs[1].value && v.d == fs[2].value
    requires w.y == gs[0].value && w.m == gs[1].value && w.d == gs[2].value
    ensures LessFrom(fs, gs, 0) <==> Before(v, w) || (v == w && LessFrom(fs, gs, 3))
  {
    LessFromStep(fs, gs, 0);
    LessFromStep(fs, gs, 1);
    LessFromStep(fs, gs, 2);
  }

  lemma ClockOrder(x: nat, y: nat, fs: seq<Field>, gs: seq<Field>)
    requires x < 86400 && y < 86400 && |fs| == |gs| == 6
    requires fs[3].value == x / 3600 && fs[4].value == (x % 3600) / 60 && fs[5].value == x % 60
    requires gs[3].value == y / 3600 && gs[4].value == (y % 3600) / 60 && gs[5].value == y % 60
    ensures LessFrom(fs, gs, 3) <==> x < y
  {
    Clock(x);
    Clock(y);
    LessFromStep(fs, gs, 3);
    LessFromStep(fs, gs, 4);
    LessFromStep(fs, gs, 5);
    assert fs[6..] == [];
  }
}
