/** Byte strings, fixed-width integers, hexadecimal, UTF-8 and Python's clamping slices. */
module Bytes {

  type byte = x: int | 0 <= x < 256
  type bytes = seq<byte>
  type Bytes32 = b: bytes | |b| == 32 witness seq(32, _ => 0)

  /** `b"\x00" * k`. */
  function Zeros(k: nat): (b: bytes)
    ensures |b| == k && forall i :: 0 <= i < k ==> b[i] == 0
  {
    seq(k, _ => 0)
  }

  // --- fixed-width integers -------------------------------------------------

  function Pow256(k: nat): nat {
    if k == 0 then 1 else 256 * Pow256(k - 1)
  }

  /** `n.to_bytes(k, "little")`, for the low `k` bytes of `n`. */
  function ToLE(n: nat, k: nat): (b: bytes)
    ensures |b| == k
  {
    if k == 0 then [] else [n % 256] + ToLE(n / 256, k - 1)
  }

  /** `int.from_bytes(b, "little")`. */
  function FromLE(b: bytes): nat {
    if b == [] then 0 else b[0] + 256 * FromLE(b[1..])
  }

  /** `n.to_bytes(k, "big")`, for the low `k` bytes of `n`. */
  function ToBE(n: nat, k: nat): (b: bytes)
    ensures |b| == k
  {
    if k == 0 then [] else ToBE(n / 256, k - 1) + [n % 256]
  }

  /** `int.from_bytes(b, "big")`. */
  function FromBE(b: bytes): nat {
    if b == [] then 0 else 256 * FromBE(b[..|b| - 1]) + b[|b| - 1]
  }

  lemma {:induction false} EncodeThenDecode(n: nat, k: nat)
    requires n < Pow256(k)
    ensures FromLE(ToLE(n, k)) == n && FromBE(ToBE(n, k)) == n
  {
    if k > 0 {
      EncodeThenDecode(n / 256, k - 1);
      assert ToLE(n, k)[1..] == ToLE(n / 256, k - 1);
      assert ToBE(n, k)[..k - 1] == ToBE(n / 256, k - 1);
    }
  }

  lemma {:induction false} DecodeThenEncodeLE(b: bytes)
    ensures FromLE(b) < Pow256(|b|) && ToLE(FromLE(b), |b|) == b
  {
    if b != [] {
      DecodeThenEncodeLE(b[1..]);
      assert FromLE(b) / 256 == FromLE(b[1..]) && FromLE(b) % 256 == b[0];
      assert b == [b[0]] + b[1..];
    }
  }

  lemma {:induction false} DecodeThenEncodeBE(b: bytes)
    ensures FromBE(b) < Pow256(|b|) && ToBE(FromBE(b), |b|) == b
    decreases |b|
  {
    if b != [] {
      var n := |b| - 1;
      DecodeThenEncodeBE(b[..n]);
      assert FromBE(b) / 256 == FromBE(b[..n]) && FromBE(b) % 256 == b[n];
      assert b == b[..n] + [b[n]];
    }
  }

  /** The first byte is the least significant one, or the last in the other order. */
  lemma {:induction false} ByteAt(n: nat, k: nat, i: nat)
    requires i < k
    ensures Pow256(i) > 0 && ToLE(n, k)[i] == n / Pow256(i) % 256 && ToBE(n, k)[k - 1 - i] == n / Pow256(i) % 256
  {
    if i > 0 {
      ByteAt(n / 256, k - 1, i - 1);
      DivideTwice(n, Pow256(i - 1));
      assert ToBE(n, k)[k - 1 - i] == ToBE(n / 256, k - 1)[k - 1 - i];
    }
  }

  lemma DivideTwice(n: nat, d: nat)
    requires d > 0
    ensures n / 256 / d == n / (256 * d)
  {
    var q := n / 256 / d;
    var s, r := n / 256 % d, n % 256;
    assert n == 256 * (q * d + s) + r;
    assert n == 256 * d * q + (256 * s + r) by {
      assert 256 * (q * d + s) == 256 * d * q + 256 * s;
    }
    Quotient(n, 256 * d, q, 256 * s + r);
  }

  lemma Quotient(n: nat, d: nat, q: nat, r: nat)
    requires r < d && n == d * q + r
    ensures n / d == q
  {
    var e, m := n / d, n % d;
    assert n == d * e + m;
    if e > q {
      AtLeast(d, e - q);
      Spread(d, e, q);
    } else if e < q {
      AtLeast(d, q - e);
      Spread(d, q, e);
    }
  }

  lemma AtLeast(d: nat, k: nat)
    requires k >= 1
    ensures d * k >= d
  {
  }

  lemma Spread(d: nat, a: nat, b: nat)
    ensures d * (a - b) == d * a - d * b
  {
  }

  lemma {:induction false} ZeroPadding(b: bytes, k: nat)
    ensures FromLE(b + Zeros(k)) == FromLE(b)
    decreases |b|, k
  {
    if b != [] {
      ZeroPadding(b[1..], k);
      assert (b + Zeros(k))[1..] == b[1..] + Zeros(k);
    } else if k > 0 {
      ZeroPadding([], k - 1);
      assert b + Zeros(k) == Zeros(k);
      assert Zeros(k)[1..] == [] + Zeros(k - 1);
    }
  }

  lemma {:induction false} ZeroMeansAllZeros(b: bytes)
    ensures FromLE(b) == 0 <==> forall i :: 0 <= i < |b| ==> b[i] == 0
  {
    if b != [] {
      ZeroMeansAllZeros(b[1..]);
      assert forall i :: 0 <= i < |b| - 1 ==> b[1..][i] == b[i + 1];
      assert forall i :: 1 <= i < |b| ==> b[i] == b[1..][i - 1];
    }
  }

  /** 2 to the power 256: one more than the largest 32-byte integer. */
  const BOUND32: nat := 0x10000000000000000_0000000000000000_0000000000000000_0000000000000000

  lemma Bound32()
    ensures Pow256(32) == BOUND32
  {
    assert Pow256(8) == 0x1_0000_0000_0000_0000;
    PowStep(8, 0x1_0000_0000_0000_0000);
    PowStep(16, 0x1_0000_0000_0000_0000 * 0x1_0000_0000_0000_0000);
    PowStep(24, 0x1_0000_0000_0000_0000 * 0x1_0000_0000_0000_0000 * 0x1_0000_0000_0000_0000);
  }

  lemma PowStep(k: nat, v: nat)
    requires Pow256(k) == v
    ensures Pow256(k + 8) == 0x1_0000_0000_0000_0000 * v
  {
    assert Pow256(k + 4) == 0x1_0000_0000 * v by {
      assert Pow256(k + 2) == 0x1_0000 * v;
    }
    assert Pow256(k + 6) == 0x1_0000_0000_0000 * v;
  }

  lemma Codec32(n: nat)
    requires n < BOUND32
    ensures FromLE(ToLE(n, 32)) == n
  {
    Bound32();
    EncodeThenDecode(n, 32);
  }

  lemma Decoded32(b: Bytes32)
    ensures FromLE(b) < BOUND32 && ToLE(FromLE(b), 32) == b
  {
    Bound32();
    DecodeThenEncodeLE(b);
  }

  // --- slices ---------------------------------------------------------------

  /** `data[lo:hi]` for non-negative bounds: out-of-range bounds are clamped, not refused. */
  function Slice(data: bytes, lo: nat, hi: nat): (s: bytes)
    ensures hi <= |data| && lo <= hi ==> s == data[lo..hi]
    ensures |s| <= (if lo <= hi then hi - lo else 0)
  {
    var h := if hi < |data| then hi else |data|;
    if lo <= h then data[lo..h] else []
  }

  // --- text -----------------------------------------------------------------

  /** A bytes literal `b"..."`. */
  function Ascii(s: string): (b: bytes)
    ensures |b| == |s|
  {
    seq(|s|, i requires 0 <= i < |s| => s[i] as int % 256)
  }

  function HexDigit(d: nat): char
    requires d < 16
  {
    "0123456789abcdef"[d]
  }

  /** `b.hex()`. */
  function Hex(b: bytes): (s: string)
    ensures |s| == 2 * |b|
    ensures forall c :: c in s ==> c in "0123456789abcdef"
  {
    if b == [] then "" else [HexDigit(b[0] / 16), HexDigit(b[0] % 16)] + Hex(b[1..])
  }

  /** Byte `i` shows as its high and its low hexadecimal digit, in this order. */
  lemma {:induction false} HexAt(b: bytes, i: nat)
    requires i < |b|
    ensures Hex(b)[2 * i] == "0123456789abcdef"[b[i] / 16] && Hex(b)[2 * i + 1] == "0123456789abcdef"[b[i] % 16]
  {
    if i > 0 {
      HexAt(b[1..], i - 1);
      assert Hex(b)[2 * i] == Hex(b[1..])[2 * (i - 1)] && Hex(b)[2 * i + 1] == Hex(b[1..])[2 * (i - 1) + 1];
    }
  }

  /** Two byte strings with the same hexadecimal text are the same. */
  lemma HexInjective(a: bytes, b: bytes)
    requires Hex(a) == Hex(b)
    ensures a == b
  {
    forall i | 0 <= i < |a|
      ensures a[i] == b[i]
    {
      HexAt(a, i);
      HexAt(b, i);
      SameDigit(a[i] / 16, b[i] / 16);
      SameDigit(a[i] % 16, b[i] % 16);
    }
  }

  lemma SameDigit(c: nat, d: nat)
    requires c < 16 && d < 16 && "0123456789abcdef"[c] == "0123456789abcdef"[d]
    ensures c == d
  {
  }

  /** One character in UTF-8 (section 3 of RFC 3629). */
  function Utf8Char(c: char): (b: bytes)
    ensures 1 <= |b| <= 4
  {
    var n := c as int;
    if n < 0x80 then [n]
    else if n < 0x800 then [0xC0 + n / 64, 0x80 + n % 64]
    else if n < 0x1_0000 then [0xE0 + n / 4096, 0x80 + n / 64 % 64, 0x80 + n % 64]
    else [0xF0 + n / 262144, 0x80 + n / 4096 % 64, 0x80 + n / 64 % 64, 0x80 + n % 64]
  }

  /** `s.encode("utf-8")`. */
  function Utf8(s: string): (b: bytes) {
    if s == "" then [] else Utf8Char(s[0]) + Utf8(s[1..])
  }

  /** A group of six bits after higher ones. */
  function Six(high: int, low: int): int {
    high * 64 + low
  }

  /**
   * The shortest of the four forms of section 3 of RFC 3629: the first byte tells the length, the others
   * continue it, and together their free bits are the number of the character.
   */
  lemma Utf8CharForm(c: char)
    ensures var b, n := Utf8Char(c), c as int;
            && (|b| == 1 <==> n < 0x80) && (|b| <= 2 <==> n < 0x800) && (|b| <= 3 <==> n < 0x1_0000)
            && (forall i :: 1 <= i < |b| ==> 0x80 <= b[i] < 0xC0)
            && (|b| == 1 ==> b == [n])
            && (|b| == 2 ==> 0xC0 <= b[0] < 0xE0 && n == Six(b[0] - 0xC0, b[1] - 0x80))
            && (|b| == 3 ==> 0xE0 <= b[0] < 0xF0 && n == Six(Six(b[0] - 0xE0, b[1] - 0x80), b[2] - 0x80))
            && (|b| == 4 ==> 0xF0 <= b[0] < 0xF8 &&
                             n == Six(Six(Six(b[0] - 0xF0, b[1] - 0x80), b[2] - 0x80), b[3] - 0x80))
  {
    Continuations(c as int);
  }

  lemma {:induction false} Utf8Append(s: string, t: string)
    ensures Utf8(s + t) == Utf8(s) + Utf8(t)
  {
    if s == "" {
      assert s + t == t;
    } else {
      assert (s + t)[1..] == s[1..] + t;
      Utf8Append(s[1..], t);
    }
  }

  /** A bytes literal is the text it shows. */
  lemma {:induction false} AsciiIsUtf8(s: string)
    requires forall i :: 0 <= i < |s| ==> s[i] as int < 0x80
    ensures Ascii(s) == Utf8(s)
  {
    if s != "" {
      AsciiIsUtf8(s[1..]);
      assert Ascii(s) == [s[0] as int] + Ascii(s[1..]);
    }
  }

  lemma Utf8CharInjective(c: char, d: char, x: bytes, y: bytes)
    requires Utf8Char(c) + x == Utf8Char(d) + y
    ensures c == d && x == y
  {
    var l, r := Utf8Char(c), Utf8Char(d);
    assert (l + x)[0] == l[0] && (r + y)[0] == r[0];
    assert |l| == |r|;
    assert (l + x)[..|l|] == l && (r + y)[..|r|] == r;
    assert x == (l + x)[|l|..] && y == (r + y)[|r|..];
    assert forall i :: 0 <= i < |l| ==> l[i] == r[i];
    Continuations(c as int);
    Continuations(d as int);
  }

  lemma Continuations(n: nat)
    ensures n == 64 * (n / 64) + n % 64
    ensures n == 4096 * (n / 4096) + 64 * (n / 64 % 64) + n % 64
    ensures n == 262144 * (n / 262144) + 4096 * (n / 4096 % 64) + 64 * (n / 64 % 64) + n % 64
  {
    assert n / 4096 == n / 64 / 64;
    assert n / 262144 == n / 4096 / 64;
  }

  /** Two texts with the same encoding are the same text. */
  lemma {:induction false} Utf8Injective(s: string, t: string)
    requires Utf8(s) == Utf8(t)
    ensures s == t
  {
    if s != "" && t != "" {
      Utf8CharInjective(s[0], t[0], Utf8(s[1..]), Utf8(t[1..]));
      Utf8Injective(s[1..], t[1..]);
      assert s == [s[0]] + s[1..] && t == [t[0]] + t[1..];
    }
  }
}
