/** Arithmetic modulo a prime: inverses exist, so multiplication by a nonzero factor can be undone. */
module Modular {

  predicate Divides(d: nat, q: nat)
    requires d > 0
  {
    q % d == 0
  }

  ghost predicate Prime(q: nat) {
    q > 1 && forall d: nat :: 1 < d < q ==> !Divides(d, q)
  }

  lemma NonNegative(a: nat, b: nat)
    ensures a * b >= 0 && a * b == b * a
  {
  }

  lemma Split(n: nat, q: nat)
    requires q > 0
    ensures n == n / q * q + n % q && n / q >= 0 && n / q * q >= 0
  {
  }

  lemma Distribute(a: int, b: int, c: int)
    ensures a * (b + c) == a * b + a * c && (b + c) * a == b * a + c * a && a * b == b * a
    ensures (a * b) * c == a * (b * c)
  {
  }

  lemma RemainderIs(n: int, d: int, r: int, q: nat)
    requires 0 <= r < q && n == q * d + r
    ensures n % q == r
  {
    var e, m := n / q, n % q;
    Distribute(q, d - e, e);
    assert q * (d - e) == m - r;
    AtLeastOne(q, d - e);
    AtLeastOne(q, e - d);
  }

  lemma AtLeastOne(q: nat, x: int)
    ensures x >= 1 ==> q * x >= q
    ensures q * -x == -(q * x)
  {
  }

  lemma Small(n: nat, q: nat)
    requires n < q
    ensures n % q == n
  {
  }

  /** `a` and `a + q*k` leave the same remainder. */
  lemma ModShift(a: int, k: int, q: nat)
    requires q > 0
    ensures (a + q * k) % q == a % q
  {
    assert a + q * k == q * (a / q + k) + a % q;
    RemainderIs(a + q * k, a / q + k, a % q, q);
  }

  /** Equal remainders are what a multiple of `q` between two numbers gives, and conversely. */
  lemma SameRemainder(a: int, b: int, k: int, q: nat)
    requires q > 0 && a == b + q * k
    ensures a % q == b % q
  {
    ModShift(b, k, q);
  }

  lemma MulMod(a: int, b: int, q: nat)
    requires q > 0
    ensures (a % q) * b % q == a * b % q && a * (b % q) % q == a * b % q
  {
    MulModLeft(a, b, q);
    MulModLeft(b, a, q);
    Distribute(a, b, 0);
    Distribute(a, b % q, 0);
  }

  lemma MulModLeft(a: int, b: int, q: nat)
    requires q > 0
    ensures (a % q) * b % q == a * b % q
  {
    Distribute(b, a % q, q * (a / q));
    Distribute(q, a / q, b);
    SameRemainder(a * b, (a % q) * b, (a / q) * b, q);
  }

  /** Adding the complement of `b` to `a` gives a multiple of `q` only when the remainders agree. */
  lemma Complement(a: nat, b: nat, q: nat)
    requires q > 0 && (a + (q - b % q)) % q == 0
    ensures a % q == b % q
  {
    var k := (a + (q - b % q)) / q;
    assert a == q * (k - 1) + b % q;
    RemainderIs(a, k - 1, b % q, q);
  }

  lemma AddMod(a: int, b: int, q: nat)
    requires q > 0
    ensures (a % q + b) % q == (a + b) % q && (a + b % q) % q == (a + b) % q
  {
    SameRemainder(a + b, a % q + b, a / q, q);
    SameRemainder(a + b, a + b % q, b / q, q);
  }

  /**
   * The inverse of `a` modulo a prime. Each step replaces `a` by the smaller `q % a`,
   * as the Euclidean algorithm does.
   */
  function Inverse(a: nat, q: nat): (i: nat)
    requires 0 < a < q
    ensures i < q
    decreases a
  {
    if a == 1 then 1
    else if q % a == 0 then 0
    else (q - q / a) * Inverse(q % a, q) % q
  }

  lemma EuclidStep(q: int, a: int, d: int, m: int, j: int)
    requires q == d * a + m
    ensures (q - d) * j * a == j * m + q * (j * (a - 1))
  {
    assert (q - d) * a == q * a - q + m;
    assert (q - d) * j * a == j * ((q - d) * a);
    Distribute(j, q * a - q, m);
    assert j * (q * a - q) == q * (j * (a - 1));
  }

  lemma {:induction false} InverseIsInverse(a: nat, q: nat)
    requires Prime(q) && 0 < a < q
    ensures 0 < Inverse(a, q) && Inverse(a, q) * a % q == 1
    decreases a
  {
    if a > 1 {
      assert !Divides(a, q);
      InverseIsInverse(q % a, q);
      InverseStep(q, a, Inverse(q % a, q));
    }
  }

  lemma InverseStep(q: nat, a: nat, j: nat)
    requires 1 < a < q && j * (q % a) % q == 1
    ensures ((q - q / a) * j % q) * a % q == 1
  {
    var p := (q - q / a) * j;
    EuclidStep(q, a, q / a, q % a, j);
    ModShift(j * (q % a), j * (a - 1), q);
    MulMod(p, a, q);
  }

  lemma Undo(i: nat, a: nat, x: int, q: nat)
    requires q > 0 && i * a % q == 1
    ensures i * (a * x % q) % q == x % q
  {
    MulMod(i, a * x, q);
    Distribute(i, a, x);
    MulMod(i * a, x, q);
  }
}
