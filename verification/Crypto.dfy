/**
 * The cryptographic primitives the protocol is built on, as arbitrary functions: every theorem
 * quantifies over them. `Ideal` says what is relied on; collision-freeness is never part of it.
 */
module Crypto {
  import opened Wrappers
  import opened Bytes
  import opened Ristretto
  import Json

  /** Two different byte strings with one digest. */
  predicate Collision(sha256: bytes -> Bytes32, a: bytes, b: bytes) {
    a != b && sha256(a) == sha256(b)
  }

  datatype Primitives = Primitives(
    group: Group,
    sha256: bytes -> Bytes32,
    h1: (bytes, bytes) -> Bytes32,
    h2: (bytes, Bytes32, Bytes32) -> Bytes32,
    challenge: (Bytes32, Bytes32, Bytes32, bytes) -> nat,
    b64e: bytes -> string,
    b64d: string -> Option<bytes>,
    str: Json.Value -> string)
  {
    ghost predicate Ideal() {
      && Laws(group)
      && (forall sid, x :: group.valid(h1(sid, x)))
      && (forall y, t, base, sid :: challenge(y, t, base, sid) < group.order)
      && (forall b :: b64d(b64e(b)) == Some(b))
      && (forall b :: b != [] ==> b64e(b) != "")
    }
  }
}
