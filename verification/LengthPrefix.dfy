/**
 Unambiguous encodings.  What the two digests of the program are computed over is a
 concatenation of length-prefixed fields; a prefix-free field code makes the concatenation
 injective, so two inputs share a digest only if they are equal or the hash collides.

 A string stands for a Go byte string, one char per byte; a preimage is a list of byte values.
 */
module LengthPrefix {
  type Preimage = seq<int>

  ghost predicate PrefixFree(enc: string -> Preimage, ok: string -> bool) {
    && (forall x | ok(x) :: enc(x) != [])
    && forall x, y, r, s | ok(x) && ok(y) && enc(x) + r == enc(y) + s :: x == y && r == s
  }

  function Concat(enc: string -> Preimage, fields: seq<string>): Preimage {
    if fields == [] then [] else enc(fields[0]) + Concat(enc, fields[1..])
  }

  lemma {:induction false} ConcatInjective(enc: string -> Preimage, ok: string -> bool, xs: seq<string>, ys: seq<string>)
    requires PrefixFree(enc, ok)
    requires (forall i | 0 <= i < |xs| :: ok(xs[i])) && (forall i | 0 <= i < |ys| :: ok(ys[i]))
    requires Concat(enc, xs) == Concat(enc, ys)
    ensures xs == ys
  {
    assert xs != [] ==> Concat(enc, xs) != [];
    assert ys != [] ==> Concat(enc, ys) != [];
    if xs != [] && ys != [] {
      assert ok(xs[0]) && ok(ys[0]);
      assert enc(xs[0]) + Concat(enc, xs[1..]) == enc(ys[0]) + Concat(enc, ys[1..]);
      ConcatInjective(enc, ok, xs[1..], ys[1..]);
      assert xs == [xs[0]] + xs[1..] && ys == [ys[0]] + ys[1..];
    }
  }

  lemma {:induction false} ConcatSnoc(enc: string -> Preimage, fields: seq<string>, f: string)
    ensures Concat(enc, fields + [f]) == Concat(enc, fields) + enc(f)
  {
    if fields == [] {
      assert fields + [f] == [f] && [f][1..] == [];
      assert Concat(enc, [f]) == enc(f) + Concat(enc, []);
    } else {
      assert (fields + [f])[1..] == fields[1..] + [f];
      ConcatSnoc(enc, fields[1..], f);
    }
  }

  // Equal concatenations with equally long heads have equal heads and equal tails.
  lemma SplitEqual(a: Preimage, r: Preimage, b: Preimage, s: Preimage)
    requires a + r == b + s && |a| == |b|
    ensures a == b && r == s
  {
    assert a == (a + r)[..|a|] && b == (b + s)[..|b|];
    assert r == (a + r)[|a|..] && s == (b + s)[|b|..];
  }

  lemma Assoc(a: Preimage, b: Preimage, c: Preimage)
    ensures (a + b) + c == a + (b + c)
  {}

  function Codes(x: string): Preimage {
    seq(|x|, i requires 0 <= i < |x| => x[i] as int)
  }

  lemma CodesInjective(x: string, y: string)
    requires Codes(x) == Codes(y)
    ensures x == y
  {
    assert |x| == |Codes(x)| && |y| == |Codes(y)|;
    forall i | 0 <= i < |x| ensures x[i] == y[i] {
      assert Codes(x)[i] == x[i] as int && Codes(y)[i] == y[i] as int;
    }
  }

  /* ------------------------------------------------------- fixed-width length prefix */

  function BigEndian(n: nat, width: nat): (r: Preimage)
    ensures |r| == width
  {
    if width == 0 then [] else BigEndian(n / 256, width - 1) + [n % 256]
  }

  function Pow256(k: nat): nat {
    if k == 0 then 1 else 256 * Pow256(k - 1)
  }

  lemma {:induction false} BigEndianInjective(m: nat, n: nat, width: nat)
    requires m < Pow256(width) && n < Pow256(width) && BigEndian(m, width) == BigEndian(n, width)
    ensures m == n
  {
    if width > 0 {
      var a, b := BigEndian(m / 256, width - 1), BigEndian(n / 256, width - 1);
      SplitEqual(a, [m % 256], b, [n % 256]);
      assert [m % 256][0] == [n % 256][0];
      BigEndianInjective(m / 256, n / 256, width - 1);
    }
  }

  // An eight-byte big-endian length, then the bytes.
  function Field64(x: string): Preimage {
    BigEndian(|x|, 8) + Codes(x)
  }

  // Go lengths are non-negative 64-bit integers.
  predicate GoString(x: string) {
    |x| < Pow256(8)
  }

  lemma {:induction false} PeelHeader(hx: Preimage, cx: Preimage, r: Preimage, hy: Preimage, cy: Preimage, s: Preimage)
    requires (hx + cx) + r == (hy + cy) + s && |hx| == |hy|
    ensures hx == hy && cx + r == cy + s
  {
    assert hx + (cx + r) == (hx + cx) + r;
    assert hy + (cy + s) == (hy + cy) + s;
    SplitEqual(hx, cx + r, hy, cy + s);
  }

  lemma {:induction false} HeadersAgree(x: string, y: string, r: Preimage, s: Preimage, width: nat)
    requires |x| < Pow256(width) && |y| < Pow256(width)
    requires (BigEndian(|x|, width) + Codes(x)) + r == (BigEndian(|y|, width) + Codes(y)) + s
    ensures x == y && r == s
  {
    PeelHeader(BigEndian(|x|, width), Codes(x), r, BigEndian(|y|, width), Codes(y), s);
    BigEndianInjective(|x|, |y|, width);
    SplitEqual(Codes(x), r, Codes(y), s);
    CodesInjective(x, y);
  }

  lemma Field64PrefixFree()
    ensures PrefixFree(Field64, GoString)
  {
    forall x, y, r, s | GoString(x) && GoString(y) && Field64(x) + r == Field64(y) + s
      ensures x == y && r == s
    {
      HeadersAgree(x, y, r, s, 8);
    }
  }

  /* ----------------------------------------------------------- decimal length prefix */

  const COLON := 58

  function Decimal(n: nat): (r: Preimage)
    ensures r != [] && forall i | 0 <= i < |r| :: 48 <= r[i] <= 57
  {
    if n < 10 then [48 + n] else Decimal(n / 10) + [48 + n % 10]
  }

  lemma {:induction false} DecimalInjective(m: nat, n: nat)
    requires Decimal(m) == Decimal(n)
    ensures m == n
  {
    assert |Decimal(m)| == if m < 10 then 1 else |Decimal(m / 10)| + 1;
    assert |Decimal(n)| == if n < 10 then 1 else |Decimal(n / 10)| + 1;
    if m < 10 {
      assert Decimal(m)[0] == 48 + m && Decimal(n)[0] == 48 + n;
    } else {
      SplitEqual(Decimal(m / 10), [48 + m % 10], Decimal(n / 10), [48 + n % 10]);
      assert [48 + m % 10][0] == [48 + n % 10][0];
      DecimalInjective(m / 10, n / 10);
    }
  }

  // A decimal length, a colon, the bytes, a zero byte.
  function FieldDecimal(x: string): Preimage {
    Decimal(|x|) + ([COLON] + Codes(x) + [0])
  }

  predicate AnyString(x: string) {
    true
  }

  // The colon ends the digits, so the number read is the number written.
  lemma DigitsEnd(a: Preimage, r: Preimage, b: Preimage, s: Preimage)
    requires (forall i | 0 <= i < |a| :: a[i] != COLON) && (forall i | 0 <= i < |b| :: b[i] != COLON)
    requires a + ([COLON] + r) == b + ([COLON] + s)
    ensures |a| == |b|
  {
    var u, v := a + ([COLON] + r), b + ([COLON] + s);
    assert u[|a|] == COLON && v[|b|] == COLON;
  }

  lemma FieldDecimalPrefixFree()
    ensures PrefixFree(FieldDecimal, AnyString)
  {
    forall x, y, r, s | FieldDecimal(x) + r == FieldDecimal(y) + s
      ensures x == y && r == s
    {
      var dx, dy := Decimal(|x|), Decimal(|y|);
      assert dx + ([COLON] + (Codes(x) + ([0] + r))) == FieldDecimal(x) + r;
      assert dy + ([COLON] + (Codes(y) + ([0] + s))) == FieldDecimal(y) + s;
      DigitsEnd(dx, Codes(x) + ([0] + r), dy, Codes(y) + ([0] + s));
      SplitEqual(dx, [COLON] + (Codes(x) + ([0] + r)), dy, [COLON] + (Codes(y) + ([0] + s)));
      DecimalInjective(|x|, |y|);
      SplitEqual([COLON], Codes(x) + ([0] + r), [COLON], Codes(y) + ([0] + s));
      SplitEqual(Codes(x), [0] + r, Codes(y), [0] + s);
      SplitEqual([0], r, [0], s);
      CodesInjective(x, y);
    }
  }
}
