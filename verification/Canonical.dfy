/** Percent-encoding and the string-to-sign of the mail API (src/email.rs): uniquely
    decodable, and independent of parameter order exactly when it can be. */
module Canonical {
  import opened Identifiers

  type Byte = b: int | 0 <= b < 256
  type Bytes = seq<Byte>

  const AMP: Byte := 38      // &
  const EQ: Byte := 61       // =
  const PERCENT: Byte := 37  // %
  const SLASH: Byte := 47    // /

  // ---------------------------------------------------------------- percent-encoding

  /** The unreserved characters of section 2.3 of RFC 3986. */
  predicate Unreserved(b: Byte) {
    48 <= b <= 57 || 65 <= b <= 90 || 97 <= b <= 122 || b == 45 || b == 95 || b == 46 || b == 126
  }

  function Hex(n: int): Byte
    requires 0 <= n < 16
  {
    if n < 10 then 48 + n else 55 + n
  }

  function EncodeByte(b: Byte): Bytes {
    if Unreserved(b) then [b] else [PERCENT, Hex(b / 16), Hex(b % 16)]
  }

  function Encode(s: Bytes): Bytes {
    if s == [] then [] else EncodeByte(s[0]) + Encode(s[1..])
  }

  lemma EncodeFrom(s: Bytes, i: nat, out: Bytes)
    requires i < |s|
    ensures out + Encode(s[i..]) == out + EncodeByte(s[i]) + Encode(s[i + 1..])
  {
    assert s[i..][1..] == s[i + 1..];
  }

  method Rfc3986(s: Bytes) returns (out: Bytes)
    ensures out == Encode(s)
  {
    out := [];
    for i := 0 to |s|
      invariant out + Encode(s[i..]) == Encode(s)
    {
      ghost var before := out;
      if Unreserved(s[i]) {
        out := out + [s[i]];
      } else {
        out := out + [PERCENT];
        out := out + [Hex(s[i] / 16), Hex(s[i] % 16)];
      }
      assert out == before + EncodeByte(s[i]);
      EncodeFrom(s, i, before);
    }
  }

  function UnHex(b: Byte): Option<int> {
    if 48 <= b <= 57 then Some(b - 48) else if 65 <= b <= 70 then Some(b - 55) else None
  }

  /** Percent-decoding; None on a malformed escape. */
  function Decode(s: Bytes): Option<Bytes> {
    if s == [] then Some([])
    else if s[0] != PERCENT then
      var rest := Decode(s[1..]);
      if rest.Some? then Some([s[0]] + rest.value) else None
    else if |s| < 3 || UnHex(s[1]).None? || UnHex(s[2]).None? then None
    else
      var rest := Decode(s[3..]);
      if rest.Some? then Some([16 * UnHex(s[1]).value + UnHex(s[2]).value] + rest.value) else None
  }

  /** Percent-encoding has a left inverse. */
  lemma {:induction false} DecodeEncode(s: Bytes)
    ensures Decode(Encode(s)) == Some(s)
  {
    if s != [] {
      DecodeEncode(s[1..]);
      var e, rest := Encode(s), Encode(s[1..]);
      assert [s[0]] + s[1..] == s;
      if Unreserved(s[0]) {
        assert e[0] == s[0] != PERCENT;
        assert e[1..] == rest;
      } else {
        assert e[3..] == rest;
        assert UnHex(Hex(s[0] / 16)) == Some(s[0] / 16) && UnHex(Hex(s[0] % 16)) == Some(s[0] % 16);
      }
    }
  }

  const HEX_DIGITS := "0123456789ABCDEF"

  /** Letters, digits, hyphen, underscore, full stop and tilde stay; any other byte is written
      as a percent sign and two upper-case hex digits. */
  lemma ByteEncoding(b: Byte)
    ensures var ch := b as char;
      var stays := 'A' <= ch <= 'Z' || 'a' <= ch <= 'z' || '0' <= ch <= '9' || ch in {'-', '_', '.', '~'};
      EncodeByte(b)
      == if stays then [b] else ['%' as int, HEX_DIGITS[b / 16] as int, HEX_DIGITS[b % 16] as int]
  {
    HexIsDigit(b / 16);
    HexIsDigit(b % 16);
  }

  lemma HexIsDigit(n: nat)
    requires n < 16
    ensures Hex(n) == HEX_DIGITS[n] as int
  {
  }

  /** The encoding of a text is that of its bytes, one after another. */
  lemma {:induction false} EncodeConcat(a: Bytes, b: Bytes)
    ensures Encode(a + b) == Encode(a) + Encode(b)
  {
    if a == [] {
      assert a + b == b;
    } else {
      assert (a + b)[1..] == a[1..] + b;
      EncodeConcat(a[1..], b);
    }
  }

  /** The encoding leaves a text alone exactly when it is all unreserved, and lengthens any other. */
  lemma {:induction false} EncodeFixesIff(s: Bytes)
    ensures |Encode(s)| >= |s|
    ensures Encode(s) == s <==> forall i :: 0 <= i < |s| ==> Unreserved(s[i])
    ensures Encode(s) != s ==> |Encode(s)| > |s|
  {
    if s != [] {
      EncodeFixesIff(s[1..]);
      assert s == [s[0]] + s[1..];
      if Unreserved(s[0]) {
        assert Encode(s)[1..] == Encode(s[1..]);
        assert (forall i :: 0 <= i < |s| ==> Unreserved(s[i]))
          <==> (forall i :: 0 <= i < |s[1..]| ==> Unreserved(s[1..][i])) by {
          forall i | 0 <= i < |s[1..]| ensures s[1..][i] == s[i + 1] {
          }
        }
      } else {
        assert |Encode(s)| > |s|;
      }
    }
  }

  /** Encoded text holds no delimiter. */
  lemma {:induction false} EncodeIsPlain(s: Bytes)
    ensures AMP !in Encode(s) && EQ !in Encode(s)
  {
    if s != [] {
      EncodeIsPlain(s[1..]);
    }
  }

  // ---------------------------------------------------------------- the canonical query

  datatype Param = Param(k: Bytes, v: Bytes)

  function Pair(p: Param): Bytes { Encode(p.k) + [EQ] + Encode(p.v) }

  /** `k=v` pairs joined with `&`. */
  function Join(ps: seq<Param>): Bytes {
    if ps == [] then []
    else if |ps| == 1 then Pair(ps[0])
    else Pair(ps[0]) + [AMP] + Join(ps[1..])
  }

  /** Bytewise string order. */
  predicate Leq(a: Bytes, b: Bytes) {
    a == [] || (b != [] && (a[0] < b[0] || (a[0] == b[0] && Leq(a[1..], b[1..]))))
  }

  /** `a` is a prefix of `b`, or at the first difference its byte is the smaller number. */
  ghost predicate BytesUpTo(a: Bytes, b: Bytes) {
    a <= b || exists n: nat :: FirstLess(a, b, n)
  }

  predicate FirstLess(a: Bytes, b: Bytes, n: nat) {
    n < |a| && n < |b| && a[..n] == b[..n] && a[n] < b[n]
  }

  lemma FirstLessHead(a: Bytes, b: Bytes, n: nat)
    requires a != [] && b != []
    ensures FirstLess(a, b, n) ==> a[0] <= b[0]
  {
    if n > 0 && FirstLess(a, b, n) {
      assert a[0] == a[..n][0] == b[..n][0] == b[0];
    }
  }

  lemma {:induction false} LeqIsBytesUpTo(a: Bytes, b: Bytes)
    ensures Leq(a, b) <==> BytesUpTo(a, b)
    decreases |a|
  {
    if a != [] && b != [] && a[0] == b[0] {
      LeqIsBytesUpTo(a[1..], b[1..]);
      BytesUpToCons(a, b);
    } else if a != [] && b != [] {
      if a[0] < b[0] {
        assert FirstLess(a, b, 0);
      } else {
        forall n: nat ensures !FirstLess(a, b, n) {
          FirstLessHead(a, b, n);
        }
      }
    }
  }

  lemma BytesUpToCons(a: Bytes, b: Bytes)
    requires a != [] && b != [] && a[0] == b[0]
    ensures BytesUpTo(a, b) <==> BytesUpTo(a[1..], b[1..])
  {
    assert a == [a[0]] + a[1..] && b == [b[0]] + b[1..];
    if n: nat :| FirstLess(a, b, n) {
      assert a[1..][..n - 1] == a[..n][1..] && b[1..][..n - 1] == b[..n][1..];
      assert FirstLess(a[1..], b[1..], n - 1);
    }
    if n: nat :| FirstLess(a[1..], b[1..], n) {
      assert a[..n + 1] == [a[0]] + a[1..][..n] && b[..n + 1] == [b[0]] + b[1..][..n];
      assert FirstLess(a, b, n + 1);
    }
  }

  /** `x` goes after the entries with equal keys: the sort is stable. */
  function Insert(s: seq<Param>, x: Param): seq<Param> {
    if s == [] then [x]
    else
      var n := |s| - 1;
      if Leq(s[n].k, x.k) then s + [x] else Insert(s[..n], x) + [s[n]]
  }

  function Sort(ps: seq<Param>): seq<Param> {
    if ps == [] then [] else Insert(Sort(ps[..|ps| - 1]), ps[|ps| - 1])
  }

  function StringToSign(verb: Bytes, ps: seq<Param>): Bytes {
    verb + [AMP] + Encode([SLASH]) + [AMP] + Encode(Join(Sort(ps)))
  }

  /** `sign` up to the HMAC: the parameters are left sorted. */
  method Canonicalize(verb: Bytes, params: array<Param>) returns (s: Bytes)
    modifies params
    ensures params[..] == Sort(old(params[..]))
    ensures multiset(params[..]) == multiset(old(params[..]))
    ensures forall i, j :: 0 <= i < j < params.Length ==> BytesUpTo(params[i].k, params[j].k)
    ensures s == StringToSign(verb, old(params[..]))
  {
    var sorted := Sort(params[..]);
    SortKeepsLength(params[..]);
    forall i | 0 <= i < params.Length {
      params[i] := sorted[i];
    }
    assert params[..] == sorted;
    SortMultiset(old(params[..]));
    SortAscends(old(params[..]));
    var path := Rfc3986([SLASH]);
    var query := Rfc3986(Join(params[..]));
    s := verb + [AMP] + path + [AMP] + query;
  }

  // ---------------------------------------------------------------- unique decoding

  /** The part before the first `b`; everything when there is none. */
  function Before(s: Bytes, b: Byte): Bytes {
    if s == [] || s[0] == b then [] else [s[0]] + Before(s[1..], b)
  }

  lemma {:induction false} BeforeCuts(a: Bytes, b: Byte, rest: Bytes)
    requires b !in a
    ensures Before(a + [b] + rest, b) == a && Before(a, b) == a
    decreases |a|
  {
    var s := a + [b] + rest;
    if a != [] {
      assert s[1..] == a[1..] + [b] + rest;
      BeforeCuts(a[1..], b, rest);
    }
  }

  lemma {:induction false} BeforeLength(s: Bytes, b: Byte)
    ensures |Before(s, b)| <= |s|
  {
    if s != [] {
      BeforeLength(s[1..], b);
    }
  }

  function ParsePair(s: Bytes): Option<Param> {
    BeforeLength(s, EQ);
    var k := Before(s, EQ);
    if |k| == |s| then None
    else
      var key, value := Decode(k), Decode(s[|k| + 1..]);
      if key.Some? && value.Some? then Some(Param(key.value, value.value)) else None
  }

  /** Reads a canonical query back; segments that are no pair are skipped. */
  function Parse(s: Bytes): seq<Param>
    decreases |s|
  {
    if s == [] then []
    else
      BeforeLength(s, AMP);
      var seg := Before(s, AMP);
      var p := ParsePair(seg);
      (if p.Some? then [p.value] else []) + if |seg| == |s| then [] else Parse(s[|seg| + 1..])
  }

  lemma PairParses(p: Param)
    ensures ParsePair(Pair(p)) == Some(p) && AMP !in Pair(p) && Pair(p) != []
  {
    EncodeIsPlain(p.k);
    EncodeIsPlain(p.v);
    DecodeEncode(p.k);
    DecodeEncode(p.v);
    BeforeCuts(Encode(p.k), EQ, Encode(p.v));
    assert Pair(p)[|Encode(p.k)| + 1..] == Encode(p.v);
  }

  lemma {:induction false} JoinParses(ps: seq<Param>)
    ensures Parse(Join(ps)) == ps
  {
    if ps != [] {
      var s, pair := Join(ps), Pair(ps[0]);
      PairParses(ps[0]);
      if |ps| == 1 {
        BeforeCuts(pair, AMP, []);
      } else {
        var rest := Join(ps[1..]);
        BeforeCuts(pair, AMP, rest);
        assert s[|pair| + 1..] == rest;
        JoinParses(ps[1..]);
      }
    }
  }

  /** For a fixed method, equal strings-to-sign come from equal sorted parameter lists. */
  lemma StringToSignDetermines(verb: Bytes, ps: seq<Param>, qs: seq<Param>)
    ensures StringToSign(verb, ps) == StringToSign(verb, qs) <==> Sort(ps) == Sort(qs)
  {
    var head := verb + [AMP] + Encode([SLASH]) + [AMP];
    var a, b := Encode(Join(Sort(ps))), Encode(Join(Sort(qs)));
    assert (head + a)[|head|..] == a && (head + b)[|head|..] == b;
    DecodeEncode(Join(Sort(ps)));
    DecodeEncode(Join(Sort(qs)));
    JoinParses(Sort(ps));
    JoinParses(Sort(qs));
  }

  // ---------------------------------------------------------------- sorting

  lemma {:induction false} InsertMultiset(s: seq<Param>, x: Param)
    ensures multiset(Insert(s, x)) == multiset(s) + multiset{x}
    decreases |s|
  {
    if s != [] {
      var n := |s| - 1;
      InsertMultiset(s[..n], x);
      assert s == s[..n] + [s[n]];
    }
  }

  lemma {:induction false} SortMultiset(ps: seq<Param>)
    ensures multiset(Sort(ps)) == multiset(ps)
    decreases |ps|
  {
    if ps != [] {
      SortMultiset(ps[..|ps| - 1]);
      InsertMultiset(Sort(ps[..|ps| - 1]), ps[|ps| - 1]);
      FrontMultiset(ps);
    }
  }

  lemma {:induction false} FrontMultiset(s: seq<Param>)
    requires s != []
    ensures multiset(s) == multiset(s[..|s| - 1]) + multiset{s[|s| - 1]}
  {
    assert s == s[..|s| - 1] + [s[|s| - 1]];
  }

  lemma SortKeepsLength(ps: seq<Param>)
    ensures |Sort(ps)| == |ps|
  {
    SortMultiset(ps);
    assert |multiset(Sort(ps))| == |multiset(ps)|;
  }

  lemma {:induction false} LeqTotal(a: Bytes, b: Bytes)
    ensures Leq(a, b) || Leq(b, a)
    ensures Leq(a, b) && Leq(b, a) <==> a == b
    decreases |a|
  {
    if a != [] && b != [] {
      LeqTotal(a[1..], b[1..]);
      assert a == [a[0]] + a[1..] && b == [b[0]] + b[1..];
    }
  }

  lemma {:induction false} LeqTrans(a: Bytes, b: Bytes, c: Bytes)
    requires Leq(a, b) && Leq(b, c)
    ensures Leq(a, c)
    decreases |a|
  {
    if a != [] && a[0] == b[0] == c[0] {
      LeqTrans(a[1..], b[1..], c[1..]);
    }
  }

  ghost predicate Sorted(s: seq<Param>) {
    forall i, j :: 0 <= i < j < |s| ==> Leq(s[i].k, s[j].k)
  }

  lemma {:induction false} InsertSorted(s: seq<Param>, x: Param)
    requires Sorted(s)
    ensures Sorted(Insert(s, x))
    decreases |s|
  {
    if s != [] {
      var n := |s| - 1;
      if Leq(s[n].k, x.k) {
        forall i | 0 <= i < |s| ensures Leq(s[i].k, x.k) {
          if i < n {
            LeqTrans(s[i].k, s[n].k, x.k);
          }
        }
      } else {
        InsertSorted(s[..n], x);
        InsertMultiset(s[..n], x);
        LeqTotal(s[n].k, x.k);
        var t := Insert(s[..n], x);
        forall i | 0 <= i < |t| ensures Leq(t[i].k, s[n].k) {
          assert t[i] in multiset(t);
          assert t[i] in multiset(s[..n]) || t[i] == x;
        }
      }
    }
  }

  lemma {:induction false} SortSorts(ps: seq<Param>)
    ensures Sorted(Sort(ps))
    decreases |ps|
  {
    if ps != [] {
      SortSorts(ps[..|ps| - 1]);
      InsertSorted(Sort(ps[..|ps| - 1]), ps[|ps| - 1]);
    }
  }

  /** The entries with key `k`, in order. */
  function With(ps: seq<Param>, k: Bytes): seq<Param> {
    if ps == [] then []
    else With(ps[..|ps| - 1], k) + if ps[|ps| - 1].k == k then [ps[|ps| - 1]] else []
  }

  lemma {:induction false} WithSnoc(s: seq<Param>, y: Param, k: Bytes)
    ensures With(s + [y], k) == With(s, k) + if y.k == k then [y] else []
  {
    assert (s + [y])[..|s|] == s;
  }

  /** Two entries with different keys do not meet in any one key's list, so x may move before y. */
  lemma {:induction false} WithPast(s: seq<Param>, t: seq<Param>, x: Param, y: Param, k: Bytes)
    requires x.k != y.k
    requires With(t, k) == With(s, k) + if x.k == k then [x] else []
    ensures With(t + [y], k) == With(s + [y], k) + if x.k == k then [x] else []
  {
    WithSnoc(t, y, k);
    WithSnoc(s, y, k);
    var a, b := With(s, k), With(t, k);
    if x.k == k {
      assert b == a + [x];
      assert b + [] == b && a + [] == a;
    } else {
      assert b == a + [] == a;
      assert With(s + [y], k) + [] == With(s + [y], k);
    }
  }

  lemma {:induction false} InsertStable(s: seq<Param>, x: Param, k: Bytes)
    ensures With(Insert(s, x), k) == With(s, k) + if x.k == k then [x] else []
    decreases |s|
  {
    if s == [] || Leq(s[|s| - 1].k, x.k) {
      WithSnoc(s, x, k);
      assert Insert(s, x) == s + [x];
    } else {
      var front, last := s[..|s| - 1], s[|s| - 1];
      LeqTotal(last.k, x.k);
      InsertStable(front, x, k);
      WithPast(front, Insert(front, x), x, last, k);
      assert s == front + [last];
    }
  }

  /** Sorting puts keys in ascending order of their bytes. */
  lemma SortAscends(ps: seq<Param>)
    ensures forall i, j :: 0 <= i < j < |Sort(ps)| ==> BytesUpTo(Sort(ps)[i].k, Sort(ps)[j].k)
  {
    SortSorts(ps);
    forall i, j | 0 <= i < j < |Sort(ps)| ensures BytesUpTo(Sort(ps)[i].k, Sort(ps)[j].k) {
      LeqIsBytesUpTo(Sort(ps)[i].k, Sort(ps)[j].k);
    }
  }

  /** Entries with equal keys keep their order. */
  lemma {:induction false} SortStable(ps: seq<Param>, k: Bytes)
    ensures With(Sort(ps), k) == With(ps, k)
    decreases |ps|
  {
    if ps != [] {
      SortStable(ps[..|ps| - 1], k);
      InsertStable(Sort(ps[..|ps| - 1]), ps[|ps| - 1], k);
    }
  }

  // ---------------------------------------------------------------- order independence

  /** Equal keys go with equal values. */
  ghost predicate KeysDecide(ps: multiset<Param>) {
    forall p, q :: p in ps && q in ps && p.k == q.k ==> p == q
  }

  lemma HeadLeast(s: seq<Param>, x: Param)
    requires s != [] && Sorted(s) && x in multiset(s)
    ensures Leq(s[0].k, x.k)
  {
    var i :| 0 <= i < |s| && s[i] == x;
    LeqTotal(x.k, x.k);
  }

  lemma SameHead(s: seq<Param>, t: seq<Param>)
    requires s != [] && t != [] && Sorted(s) && Sorted(t) && multiset(s) == multiset(t) && KeysDecide(multiset(s))
    ensures s[0] == t[0]
  {
    assert s[0] in multiset(s) && t[0] in multiset(t);
    HeadLeast(t, s[0]);
    HeadLeast(s, t[0]);
    LeqTotal(s[0].k, t[0].k);
  }

  lemma TailMultiset(s: seq<Param>)
    requires s != []
    ensures multiset(s[1..]) == multiset(s) - multiset{s[0]} && s == [s[0]] + s[1..]
  {
    assert s == [s[0]] + s[1..];
  }

  /** Two sorted arrangements of the same entries are the same list if keys decide. */
  lemma {:induction false} SortedUnique(s: seq<Param>, t: seq<Param>)
    requires Sorted(s) && Sorted(t) && multiset(s) == multiset(t) && KeysDecide(multiset(s))
    ensures s == t
    decreases |s|
  {
    assert |multiset(s)| == |s| && |multiset(t)| == |t|;
    if s != [] {
      SameHead(s, t);
      TailMultiset(s);
      TailMultiset(t);
      SortedUnique(s[1..], t[1..]);
    }
  }

  lemma PermutationInvariant(verb: Bytes, ps: seq<Param>, qs: seq<Param>)
    requires multiset(ps) == multiset(qs) && KeysDecide(multiset(ps))
    ensures StringToSign(verb, ps) == StringToSign(verb, qs)
  {
    SortMultiset(ps);
    SortMultiset(qs);
    SortSorts(ps);
    SortSorts(qs);
    SortedUnique(Sort(ps), Sort(qs));
  }

  lemma {:induction false} WithFirst(p: Param, rest: seq<Param>)
    ensures With([p] + rest, p.k) != [] && With([p] + rest, p.k)[0] == p
    decreases |rest|
  {
    var s := [p] + rest;
    if rest == [] {
      assert s == [p] && s[..0] == [];
    } else {
      assert s[..|s| - 1] == [p] + rest[..|rest| - 1];
      WithFirst(p, rest[..|rest| - 1]);
    }
  }

  /** The list with its `i`-th entry moved to the front. */
  function ToFront(ps: seq<Param>, i: nat): seq<Param>
    requires i < |ps|
  {
    [ps[i]] + (ps[..i] + ps[i + 1..])
  }

  lemma ToFrontPermutes(ps: seq<Param>, i: nat)
    requires i < |ps|
    ensures multiset(ToFront(ps, i)) == multiset(ps)
  {
    assert ps == ps[..i] + [ps[i]] + ps[i + 1..];
  }

  /** Two entries with one key and different values sign differently when swapped to the front. */
  lemma ClashDepends(verb: Bytes, ps: seq<Param>, i: nat, j: nat)
    requires i < |ps| && j < |ps| && ps[i].k == ps[j].k && ps[i] != ps[j]
    ensures StringToSign(verb, ToFront(ps, i)) != StringToSign(verb, ToFront(ps, j))
  {
    var k, a, b := ps[i].k, ToFront(ps, i), ToFront(ps, j);
    WithFirst(ps[i], ps[..i] + ps[i + 1..]);
    WithFirst(ps[j], ps[..j] + ps[j + 1..]);
    SortStable(a, k);
    SortStable(b, k);
    StringToSignDetermines(verb, a, b);
  }

  /** Every arrangement of the parameters signs alike exactly when no two entries share
      a key but differ in value. */
  lemma OrderIndependentIff(verb: Bytes, ps: seq<Param>)
    ensures (forall qs :: multiset(qs) == multiset(ps) ==> StringToSign(verb, qs) == StringToSign(verb, ps))
       <==> KeysDecide(multiset(ps))
  {
    if KeysDecide(multiset(ps)) {
      forall qs | multiset(qs) == multiset(ps) ensures StringToSign(verb, qs) == StringToSign(verb, ps) {
        PermutationInvariant(verb, ps, qs);
      }
    } else {
      var p, q :| p in multiset(ps) && q in multiset(ps) && p.k == q.k && p != q;
      var i :| 0 <= i < |ps| && ps[i] == p;
      var j :| 0 <= j < |ps| && ps[j] == q;
      ToFrontPermutes(ps, i);
      ToFrontPermutes(ps, j);
      ClashDepends(verb, ps, i, j);
    }
  }

  // ---------------------------------------------------------------- reading a string-to-sign back

  /** The part after the first `b`. */
  function After(s: Bytes, b: Byte): Bytes {
    BeforeLength(s, b);
    if |Before(s, b)| == |s| then [] else s[|Before(s, b)| + 1..]
  }

  lemma CutAt(a: Bytes, b: Byte, rest: Bytes)
    requires b !in a
    ensures Before(a + [b] + rest, b) == a && After(a + [b] + rest, b) == rest
  {
    BeforeCuts(a, b, rest);
    assert (a + [b] + rest)[|a| + 1..] == rest;
  }

  /** Between its ampersands a string-to-sign holds the method, an encoded slash, and a third
      part, itself free of ampersands, that decodes to a query with the sorted parameters. */
  lemma StringToSignReadsBack(verb: Bytes, ps: seq<Param>)
    requires AMP !in verb
    ensures var s := StringToSign(verb, ps);
      var query := Decode(After(After(s, AMP), AMP));
      && Before(s, AMP) == verb && Decode(Before(After(s, AMP), AMP)) == Some(['/' as int])
      && AMP !in After(After(s, AMP), AMP)
      && query.Some? && Parse(query.value) == Sort(ps)
  {
    var path, query := Encode([SLASH]), Encode(Join(Sort(ps)));
    assert StringToSign(verb, ps) == verb + [AMP] + (path + [AMP] + query);
    CutAt(verb, AMP, path + [AMP] + query);
    EncodeIsPlain([SLASH]);
    CutAt(path, AMP, query);
    EncodeIsPlain(Join(Sort(ps)));
    DecodeEncode([SLASH]);
    DecodeEncode(Join(Sort(ps)));
    JoinParses(Sort(ps));
  }
}
