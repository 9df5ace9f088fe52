/**
 * Scalars and points (ristretto.py). The library's point operations are an arbitrary group of
 * prime order with 32-byte encodings; multiplication by a scalar is repeated addition in it, and
 * every algebraic fact below is proved from the group laws.
 */
module Ristretto {
  import opened Wrappers
  import opened Bytes
  import opened Modular

  type Point = Bytes32

  type pos = n: nat | n > 0 witness 1

  datatype Group = Group(
    order: pos,
    valid: Bytes32 -> bool,
    add: (Bytes32, Bytes32) -> Bytes32,
    zero: Bytes32,
    gen: Bytes32)

  /** `n` additions of `P`. */
  function Mul(G: Group, n: nat, P: Point): Point {
    if n == 0 then G.zero else G.add(P, Mul(G, n - 1, P))
  }

  /** The laws of a cyclic group of prime order. The generator is only used to say "cyclic". */
  ghost predicate Laws(G: Group) {
    && Prime(G.order) && G.order <= BOUND32
    && G.valid(G.zero) && G.valid(G.gen) && G.gen != G.zero
    && (forall P, Q {:trigger G.add(P, Q)} :: G.valid(P) && G.valid(Q) ==> G.valid(G.add(P, Q)))
    && (forall P, Q, R {:trigger G.add(G.add(P, Q), R)} ::
          G.valid(P) && G.valid(Q) && G.valid(R) ==> G.add(G.add(P, Q), R) == G.add(P, G.add(Q, R)))
    && (forall P {:trigger G.add(G.zero, P)} {:trigger G.add(P, G.zero)} ::
          G.valid(P) ==> G.add(G.zero, P) == P && G.add(P, G.zero) == P)
    && Mul(G, G.order, G.gen) == G.zero
    && (forall P {:trigger Generated(G, P)} :: G.valid(P) ==> Generated(G, P))
  }

  ghost predicate Generated(G: Group, P: Point) {
    exists i: nat :: i < G.order && Mul(G, i, G.gen) == P
  }

  /** Discrete logarithm to the generator. */
  lemma Log(G: Group, P: Point) returns (i: nat)
    requires Laws(G) && G.valid(P)
    ensures i < G.order && Mul(G, i, G.gen) == P
  {
    assert Generated(G, P);
    i :| i < G.order && Mul(G, i, G.gen) == P;
  }

  // --- the algebra of repeated addition --------------------------------------

  lemma {:induction false} MulValid(G: Group, n: nat, P: Point)
    requires Laws(G) && G.valid(P)
    ensures G.valid(Mul(G, n, P))
  {
    if n > 0 {
      MulValid(G, n - 1, P);
    }
  }

  lemma {:induction false} MulAdd(G: Group, m: nat, n: nat, P: Point)
    requires Laws(G) && G.valid(P)
    ensures Mul(G, m + n, P) == G.add(Mul(G, m, P), Mul(G, n, P))
  {
    MulValid(G, n, P);
    if m > 0 {
      MulAdd(G, m - 1, n, P);
      MulValid(G, m - 1, P);
    }
  }

  lemma {:induction false} MulMul(G: Group, m: nat, n: nat, P: Point)
    requires Laws(G) && G.valid(P)
    ensures Mul(G, m * n, P) == Mul(G, m, Mul(G, n, P))
  {
    if m > 0 {
      MulMul(G, m - 1, n, P);
      MulAdd(G, n, (m - 1) * n, P);
      assert m * n == n + (m - 1) * n;
    }
  }

  lemma {:induction false} MulZero(G: Group, n: nat)
    requires Laws(G)
    ensures Mul(G, n, G.zero) == G.zero
  {
    if n > 0 {
      MulZero(G, n - 1);
    }
  }

  lemma MulOrder(G: Group, P: Point)
    requires Laws(G) && G.valid(P)
    ensures Mul(G, G.order, P) == G.zero
  {
    var i := Log(G, P);
    MulMul(G, G.order, i, G.gen);
    MulMul(G, i, G.order, G.gen);
    assert G.order * i == i * G.order;
    MulZero(G, i);
  }

  /** Scalars act modulo the group order. */
  lemma MulReduce(G: Group, n: nat, P: Point)
    requires Laws(G) && G.valid(P)
    ensures Mul(G, n % G.order, P) == Mul(G, n, P)
  {
    var q, d := G.order, n / G.order;
    Split(n, q);
    MulAdd(G, d * q, n % q, P);
    MulMul(G, d, q, P);
    MulOrder(G, P);
    MulZero(G, d);
    MulValid(G, n % q, P);
  }

  /** Multiplying by an inverse undoes a multiplication. */
  lemma MulUndo(G: Group, k: nat, P: Point)
    requires Laws(G) && G.valid(P) && 0 < k < G.order
    ensures Mul(G, Inverse(k, G.order), Mul(G, k, P)) == P
  {
    var i := Inverse(k, G.order);
    InverseIsInverse(k, G.order);
    NonNegative(i, k);
    MulMul(G, i, k, P);
    MulReduce(G, i * k, P);
    assert Mul(G, 1, P) == G.add(P, Mul(G, 0, P)) == P;
  }

  lemma MulIsZero(G: Group, k: nat, P: Point)
    requires Laws(G) && G.valid(P)
    ensures Mul(G, k, P) == G.zero <==> P == G.zero || k % G.order == 0
  {
    MulReduce(G, k, P);
    MulZero(G, k);
    if k % G.order != 0 && Mul(G, k, P) == G.zero {
      MulUndo(G, k % G.order, P);
      MulZero(G, Inverse(k % G.order, G.order));
    }
  }

  /** A non-identity point tells scalars apart. */
  lemma MulInjective(G: Group, a: nat, b: nat, P: Point)
    requires Laws(G) && G.valid(P) && P != G.zero && Mul(G, a, P) == Mul(G, b, P)
    ensures a % G.order == b % G.order
  {
    var q := G.order;
    var c := q - b % q;
    MulReduce(G, b, P);
    MulAdd(G, a, c, P);
    MulAdd(G, b % q, c, P);
    MulOrder(G, P);
    MulIsZero(G, a + c, P);
    Complement(a, b, q);
  }

  /** A non-identity point reaches every point. */
  lemma MulOnto(G: Group, P: Point, Q: Point) returns (k: nat)
    requires Laws(G) && G.valid(P) && G.valid(Q) && P != G.zero
    ensures k < G.order && Mul(G, k, P) == Q
  {
    var i := Log(G, P);
    var j := Log(G, Q);
    var v := Inverse(i, G.order);
    NonNegative(j, v);
    MulUndo(G, i, G.gen);
    MulMul(G, j, v, P);
    k := j * v % G.order;
    MulReduce(G, j * v, P);
  }

  /**
   * Blinding is a bijection: the nonzero scalars correspond one to one to the non-identity
   * points, so a blinded point is explained by exactly one blinding scalar for every query point.
   */
  lemma BlindingIsABijection(G: Group, P: Point, A: Point)
    requires Laws(G) && G.valid(P) && P != G.zero && G.valid(A)
    ensures A != G.zero <==> exists r: nat :: 0 < r < G.order && Mul(G, r, P) == A
    ensures forall r: nat, s: nat :: r < G.order && s < G.order && Mul(G, r, P) == A && Mul(G, s, P) == A ==> r == s
  {
    forall r: nat, s: nat | r < G.order && s < G.order && Mul(G, r, P) == A && Mul(G, s, P) == A
      ensures r == s
    {
      MulInjective(G, r, s, P);
      Small(r, G.order);
      Small(s, G.order);
    }
    forall r: nat | 0 < r < G.order && Mul(G, r, P) == A
      ensures A != G.zero
    {
      MulIsZero(G, r, P);
      Small(r, G.order);
    }
    var r := MulOnto(G, P, A);
    assert Mul(G, 0, P) == G.zero;
  }

  /**
   * `point * scalar`. The library raises when the product is the identity; `None` is that exception.
   */
  function Times(G: Group, P: Point, k: nat): Option<Point> {
    var image := Mul(G, k, P);
    if image == G.zero then None else Some(image)
  }

  // --- the laws can be met ---------------------------------------------------

  datatype Codec = Codec(encode: nat -> Bytes32, decode: Bytes32 -> nat)

  ghost predicate Exact(c: Codec) {
    && (forall n: nat :: n < BOUND32 ==> c.decode(c.encode(n)) == n)
    && (forall b: Bytes32 :: c.decode(b) < BOUND32 && c.encode(c.decode(b)) == b)
  }

  /** Addition modulo `q` on 32-byte encodings. */
  function Zq(q: nat, c: Codec): Group
    requires 1 < q <= BOUND32
  {
    Group(q, (b: Bytes32) => c.decode(b) < q,
          (a: Bytes32, b: Bytes32) => c.encode((c.decode(a) + c.decode(b)) % q), c.encode(0), c.encode(1))
  }

  lemma ZqAdd(q: nat, c: Codec, a: nat, b: nat)
    requires 1 < q <= BOUND32 && Exact(c) && a < q && b < q
    ensures Zq(q, c).add(c.encode(a), c.encode(b)) == c.encode((a + b) % q)
  {
  }

  lemma {:induction false} ZqMul(q: nat, c: Codec, n: nat)
    requires 1 < q <= BOUND32 && Exact(c)
    ensures Mul(Zq(q, c), n, c.encode(1)) == c.encode(n % q)
  {
    if n == 0 {
      Small(0, q);
    } else {
      ZqMul(q, c, n - 1);
      ZqStep(q, c, n);
    }
  }

  lemma ZqStep(q: nat, c: Codec, n: nat)
    requires 1 < q <= BOUND32 && Exact(c) && n > 0
    ensures Zq(q, c).add(c.encode(1), c.encode((n - 1) % q)) == c.encode(n % q)
  {
    AddMod(1, n - 1, q);
    ZqAdd(q, c, 1, (n - 1) % q);
  }

  lemma ZqClosed(q: nat, c: Codec, P: Point, Q: Point)
    requires 1 < q <= BOUND32 && Exact(c)
    ensures Zq(q, c).valid(Zq(q, c).add(P, Q))
  {
    assert 0 <= (c.decode(P) + c.decode(Q)) % q < q;
  }

  lemma ZqAssociative(q: nat, c: Codec, P: Point, Q: Point, R: Point)
    requires 1 < q <= BOUND32 && Exact(c)
    ensures Zq(q, c).add(Zq(q, c).add(P, Q), R) == Zq(q, c).add(P, Zq(q, c).add(Q, R))
  {
    AddModAssociative(c.decode(P), c.decode(Q), c.decode(R), q);
    ZqSum(q, c, P, Q);
    ZqSum(q, c, Q, R);
  }

  lemma AddModAssociative(x: nat, y: nat, z: nat, q: nat)
    requires q > 0
    ensures ((x + y) % q + z) % q == (x + (y + z) % q) % q
  {
    AddMod(x + y, z, q);
    AddMod(x, y + z, q);
  }

  lemma ZqSum(q: nat, c: Codec, P: Point, Q: Point)
    requires 1 < q <= BOUND32 && Exact(c)
    ensures c.decode(Zq(q, c).add(P, Q)) == (c.decode(P) + c.decode(Q)) % q
  {
  }

  lemma ZqUnitAndLog(q: nat, c: Codec, P: Point)
    requires 1 < q <= BOUND32 && Exact(c) && Zq(q, c).valid(P)
    ensures var group := Zq(q, c); group.add(group.zero, P) == P && group.add(P, group.zero) == P && Generated(group, P)
  {
    var n := c.decode(P);
    Small(n, q);
    ZqMul(q, c, n);
  }

  /** The integers modulo any prime of at most 256 bits meet the laws. */
  lemma ZqLaws(q: nat)
    requires Prime(q) && q <= BOUND32
    ensures exists G: Group :: Laws(G) && G.order == q
  {
    var c := Codec(n => ToLE(n, 32), b => FromLE(b));
    forall n: nat | n < BOUND32 ensures c.decode(c.encode(n)) == n {
      Codec32(n);
    }
    forall b: Bytes32 ensures c.decode(b) < BOUND32 && c.encode(c.decode(b)) == b {
      Decoded32(b);
    }
    ZqLawsFor(q, c);
  }

  lemma ZqLawsFor(q: nat, c: Codec)
    requires Prime(q) && q <= BOUND32 && Exact(c)
    ensures Laws(Zq(q, c))
  {
    var group := Zq(q, c);
    ZqMul(q, c, q);
    RemainderIs(q, 1, 0, q);
    assert c.decode(group.zero) == 0 && c.decode(group.gen) == 1;
    forall P, Q | group.valid(P) && group.valid(Q)
      ensures group.valid(group.add(P, Q))
    {
      ZqClosed(q, c, P, Q);
    }
    forall P, Q, R | group.valid(P) && group.valid(Q) && group.valid(R)
      ensures group.add(group.add(P, Q), R) == group.add(P, group.add(Q, R))
    {
      ZqAssociative(q, c, P, Q, R);
    }
    forall P | group.valid(P)
      ensures group.add(group.zero, P) == P && group.add(P, group.zero) == P && Generated(group, P)
    {
      ZqUnitAndLog(q, c, P);
    }
  }

  // --- scalars on the wire -----------------------------------------------------

  /** The order of ristretto255 (section 4.4 of RFC 9496). */
  const L: nat := 0x10000000000000000000000000000000_14def9dea2f79cd65812631a5cf5d3ed

  /**
   * `Scalar.from_bytes`: reject the zero string, then append 32 zero bytes, reduce modulo the
   * order and compare with the input.
   */
  function DecodeScalar(q: nat, data: bytes): Option<nat>
    requires q > 0
  {
    if |data| != 32 then None
    else if forall i :: 0 <= i < |data| ==> data[i] == 0 then None
    else if ToLE(FromLE(data + Zeros(32)) % q, 32) != data then None
    else Some(FromLE(data))
  }

  function EncodeScalar(s: nat): Bytes32 {
    ToLE(s, 32)
  }

  /** Reducing and comparing accepts exactly the canonical encodings of 1 .. q-1. */
  lemma CanonicalScalars(q: nat, data: bytes)
    requires 0 < q <= BOUND32
    ensures DecodeScalar(q, data).Some? <==> |data| == 32 && 1 <= FromLE(data) < q
    ensures DecodeScalar(q, data).Some? ==>
              1 <= DecodeScalar(q, data).value < q && EncodeScalar(DecodeScalar(q, data).value) == data
  {
    if |data| == 32 {
      ZeroPadding(data, 32);
      ZeroMeansAllZeros(data);
      Decoded32(data);
      var n := FromLE(data);
      Codec32(n % q);
      if n < q {
        Small(n, q);
      } else {
        assert n % q < q;
      }
    }
  }

  lemma ScalarRoundTrip(q: nat, s: nat)
    requires 0 < s < q <= BOUND32
    ensures DecodeScalar(q, EncodeScalar(s)) == Some(s)
  {
    Codec32(s);
    CanonicalScalars(q, EncodeScalar(s));
  }

  /** The same at the order the library uses: no two byte strings decode to one scalar. */
  lemma RistrettoScalars(data: bytes, other: bytes)
    ensures DecodeScalar(L, data).Some? <==> |data| == 32 && 1 <= FromLE(data) < L
    ensures DecodeScalar(L, data).Some? && DecodeScalar(L, data) == DecodeScalar(L, other) ==> data == other
    ensures L == 7237005577332262213973186563042994240857116359379907606001950938285454250989
  {
    CanonicalScalars(L, data);
    CanonicalScalars(L, other);
  }
}
