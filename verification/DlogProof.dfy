/** The Schnorr proof of dlog_proof.py: Fiat-Shamir over an arbitrary challenge function. */
module DlogProof {
  import opened Wrappers
  import opened Bytes
  import opened Modular
  import opened Ristretto
  import opened Crypto

  datatype Proof = Proof(t: Point, s: nat)

  /** `DLogProof.prove` with nonce `r`; `None` when a product is the identity. */
  function Prove(C: Primitives, x: nat, base: Point, sid: bytes, r: nat): Option<Proof>
  {
    var y, t := Times(C.group, base, x), Times(C.group, base, r);
    if y.None? || t.None? then None
    else Some(Proof(t.value, (r + C.challenge(y.value, t.value, base, sid) * x) % C.group.order))
  }

  /** `DLogProof.verify`; `None` when a product is the identity. */
  function Verify(C: Primitives, p: Proof, y: Point, base: Point, sid: bytes): Option<bool> {
    var lhs := Times(C.group, base, p.s);
    var cy := Times(C.group, y, C.challenge(y, p.t, base, sid));
    if lhs.None? || cy.None? then None else Some(lhs.value == C.group.add(p.t, cy.value))
  }

  /** The equation behind an accepted proof. */
  ghost predicate Accepts(G: Group, t: Point, s: nat, c: nat, y: Point, base: Point) {
    Mul(G, s, base) == G.add(t, Mul(G, c, y))
  }

  lemma ResponseEquation(G: Group, x: nat, r: nat, c: nat, cx: nat, s: nat, base: Point)
    requires Laws(G) && G.valid(base) && cx == c * x && s == (r + cx) % G.order
    ensures Accepts(G, Mul(G, r, base), s, c, Mul(G, x, base), base)
  {
    MulReduce(G, r + cx, base);
    MulAdd(G, r, cx, base);
    MulMul(G, c, x, base);
  }

  /** Every honestly made proof verifies. */
  lemma Completeness(C: Primitives, x: nat, base: Point, sid: bytes, r: nat)
    requires C.Ideal() && C.group.valid(base) && base != C.group.zero
    requires 0 < x < C.group.order && 0 < r < C.group.order
    ensures Prove(C, x, base, sid, r).Some?
    ensures var p, y := Prove(C, x, base, sid, r).value, Mul(C.group, x, base);
            p.t == Mul(C.group, r, base) && C.group.valid(p.t) &&
            (p.s != 0 && C.challenge(y, p.t, base, sid) != 0 ==> Verify(C, p, y, base, sid) == Some(true))
  {
    var group := C.group;
    var y, t := Mul(group, x, base), Mul(group, r, base);
    MulValid(group, r, base);
    MulValid(group, x, base);
    Small(x, group.order);
    Small(r, group.order);
    MulIsZero(group, x, base);
    MulIsZero(group, r, base);
    var c := C.challenge(y, t, base, sid);
    var s := (r + c * x) % group.order;
    NonNegative(c, x);
    ResponseEquation(group, x, r, c, c * x, s, base);
    Small(c, group.order);
    MulIsZero(group, c, y);
    if s != 0 {
      Small(s, group.order);
      MulIsZero(group, s, base);
    }
  }

  /** Given everything else, at most one response is accepted: the proof is not malleable. */
  lemma UniqueResponse(C: Primitives, t: Point, s1: nat, s2: nat, y: Point, base: Point, sid: bytes)
    requires C.Ideal() && C.group.valid(base) && base != C.group.zero
    requires s1 < C.group.order && s2 < C.group.order
    requires Verify(C, Proof(t, s1), y, base, sid) == Some(true)
    requires Verify(C, Proof(t, s2), y, base, sid) == Some(true)
    ensures s1 == s2
  {
    MulInjective(C.group, s1, s2, base);
    Small(s1, C.group.order);
    Small(s2, C.group.order);
  }

  /** The same for the 32-byte responses a parser accepts. */
  lemma UniqueResponseBytes(C: Primitives, t: Point, a: bytes, b: bytes, y: Point, base: Point, sid: bytes)
    requires C.Ideal() && C.group.valid(base) && base != C.group.zero
    requires DecodeScalar(C.group.order, a).Some? && DecodeScalar(C.group.order, b).Some?
    requires Verify(C, Proof(t, DecodeScalar(C.group.order, a).value), y, base, sid) == Some(true)
    requires Verify(C, Proof(t, DecodeScalar(C.group.order, b).value), y, base, sid) == Some(true)
    ensures a == b
  {
    CanonicalScalars(C.group.order, a);
    CanonicalScalars(C.group.order, b);
    UniqueResponse(C, t, DecodeScalar(C.group.order, a).value, DecodeScalar(C.group.order, b).value, y, base, sid);
  }

  /** The witness read off two accepted proofs with one commitment and two challenges. */
  function Extract(q: nat, s1: nat, c1: nat, s2: nat, c2: nat): nat
    requires c1 < q && c2 < q && c1 != c2
  {
    var d := (c1 + (q - c2)) % q;
    if d == 0 then 0 else Inverse(d, q) * ((s1 + (q - s2 % q)) % q) % q
  }

  /**
   * Special soundness: two accepted proofs that share the commitment, the statement and the base
   * but not the challenge (two runs of the challenge function, `C` and `D`) determine the witness.
   */
  lemma SpecialSoundness(C: Primitives, D: Primitives, t: Point, s1: nat, s2: nat, y: Point, base: Point,
                         sid1: bytes, sid2: bytes)
    requires C.Ideal() && D.Ideal() && D.group == C.group
    requires C.group.valid(base) && C.group.valid(y) && C.group.valid(t) && base != C.group.zero
    requires Verify(C, Proof(t, s1), y, base, sid1) == Some(true)
    requires Verify(D, Proof(t, s2), y, base, sid2) == Some(true)
    requires C.challenge(y, t, base, sid1) != D.challenge(y, t, base, sid2)
    ensures var x := Extract(C.group.order, s1, C.challenge(y, t, base, sid1), s2, D.challenge(y, t, base, sid2));
            x < C.group.order && Mul(C.group, x, base) == y
  {
    var group, q := C.group, C.group.order;
    var c1, c2 := C.challenge(y, t, base, sid1), D.challenge(y, t, base, sid2);
    var w := MulOnto(group, base, y);
    var n := MulOnto(group, base, t);
    CommittedResponse(group, base, n, w, c1, s1);
    CommittedResponse(group, base, n, w, c2, s2);
    ExtractIsWitness(q, n, w, s1, c1, s2, c2);
  }

  /** In discrete logarithms, acceptance fixes the response. */
  lemma CommittedResponse(G: Group, base: Point, n: nat, w: nat, c: nat, s: nat)
    requires Laws(G) && G.valid(base) && base != G.zero
    requires Accepts(G, Mul(G, n, base), s, c, Mul(G, w, base), base)
    ensures s % G.order == (n + c * w) % G.order
  {
    NonNegative(c, w);
    CommittedSum(G, base, n, w, c);
    MulInjective(G, s, n + c * w, base);
  }

  lemma CommittedSum(G: Group, base: Point, n: nat, w: nat, c: nat)
    requires Laws(G) && G.valid(base) && c * w >= 0
    ensures Mul(G, n + c * w, base) == G.add(Mul(G, n, base), Mul(G, c, Mul(G, w, base)))
  {
    MulMul(G, c, w, base);
    MulAdd(G, n, c * w, base);
  }

  lemma ExtractIsWitness(q: nat, n: nat, w: nat, s1: nat, c1: nat, s2: nat, c2: nat)
    requires Prime(q) && w < q && c1 < q && c2 < q && c1 != c2
    requires s1 % q == (n + c1 * w) % q && s2 % q == (n + c2 * w) % q
    ensures Extract(q, s1, c1, s2, c2) == w
  {
    var d := (c1 + (q - c2)) % q;
    assert d != 0 by {
      if c1 >= c2 {
        RemainderIs(c1 + (q - c2), 1, c1 - c2, q);
      } else {
        Small(c1 + (q - c2), q);
      }
    }
    var e := (s1 + (q - s2 % q)) % q;
    Difference(q, n, w, s1, c1, s2, c2);
    InverseIsInverse(d, q);
    Undo(Inverse(d, q), d, w, q);
    Small(w, q);
  }

  lemma Difference(q: nat, n: nat, w: nat, s1: nat, c1: nat, s2: nat, c2: nat)
    requires q > 0 && c2 < q
    requires s1 % q == (n + c1 * w) % q && s2 % q == (n + c2 * w) % q
    ensures (s1 + (q - s2 % q)) % q == (c1 + (q - c2)) % q * w % q
  {
    NonNegative(c1, w);
    NonNegative(c2, w);
    var p1, p2 := c1 * w, c2 * w;
    var a, b := n + p1, n + p2;
    AddMod(s1, q - s2 % q, q);
    AddMod(a, q - s2 % q, q);
    MulMod(c1 + (q - c2), w, q);
    Expand(c1, c2, q, w);
    Split(b, q);
    Expand(b / q, w, 1, q);
    SameRemainder(a + (q - b % q), (c1 + (q - c2)) * w, b / q + 1 - w, q);
  }

  lemma Expand(a: int, b: int, c: int, w: int)
    ensures (a + (c - b)) * w == a * w + c * w - b * w
    ensures w * (a + c - b) == a * w + c * w - b * w
  {
  }
}
