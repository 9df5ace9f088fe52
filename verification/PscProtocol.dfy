/** The private set check of psc_protocol.py: messages, their byte formats and the three steps. */
module PscProtocol {
  import opened Wrappers
  import opened Bytes
  import opened Modular
  import opened Ristretto
  import opened Crypto
  import DlogProof
  import Shuffle

  datatype Msg1 = Msg1(sid: bytes, bigA: Point)
  datatype Msg2 = Msg2(sid: bytes, bigB: Point, proof: DlogProof.Proof, hats: seq<bytes>)
  datatype StateOB = StateOB(sid: bytes, h1x: Point, r: nat, bigA: Point)

  /** `ValueError`, the three protocol exceptions, and the exceptions of the group library. */
  datatype Error = BadValue | InvalidSessionId | InvalidMsg2 | InvalidProof | Degenerate

  // --- byte formats --------------------------------------------------------------

  const MSG1_SIZE := 64
  const STATE_SIZE := 128
  const PROOF_SIZE := 64

  function DecodePoint(C: Primitives, data: bytes): Option<Point> {
    if |data| == 32 && C.group.valid(data) then Some(data) else None
  }

  function EncodeProof(p: DlogProof.Proof): bytes {
    p.t + EncodeScalar(p.s)
  }

  function DecodeProof(C: Primitives, data: bytes): Option<DlogProof.Proof>
  {
    if |data| != PROOF_SIZE then None
    else
      var t, s := DecodePoint(C, data[..32]), DecodeScalar(C.group.order, data[32..]);
      if t.None? || s.None? then None else Some(DlogProof.Proof(t.value, s.value))
  }

  function EncodeMsg1(m: Msg1): bytes {
    m.sid + m.bigA
  }

  function DecodeMsg1(C: Primitives, data: bytes): Option<Msg1> {
    if |data| != MSG1_SIZE then None
    else
      var blinded := DecodePoint(C, data[32..]);
      if blinded.None? then None else Some(Msg1(data[..32], blinded.value))
  }

  function EncodeState(st: StateOB): bytes {
    st.sid + st.h1x + EncodeScalar(st.r) + st.bigA
  }

  function DecodeState(C: Primitives, data: bytes): Option<StateOB>
  {
    if |data| != STATE_SIZE then None
    else
      var hashed, blinded := DecodePoint(C, data[32..64]), DecodePoint(C, data[96..]);
      var r := DecodeScalar(C.group.order, data[64..96]);
      if hashed.None? || r.None? || blinded.None? then None
      else Some(StateOB(data[..32], hashed.value, r.value, blinded.value))
  }

  /** `b"".join(parts)`. */
  function Concat(parts: seq<bytes>): bytes {
    if parts == [] then [] else parts[0] + Concat(parts[1..])
  }

  /** `PSCMsg2.to_bytes`; `None` is the `OverflowError` of a count that does not fit four bytes. */
  function EncodeMsg2(m: Msg2): Option<bytes> {
    if |m.hats| >= 0x1_0000_0000 then None
    else Some(m.sid + m.bigB + EncodeProof(m.proof) + ToBE(|m.hats|, 4) + Concat(m.hats))
  }

  function Entries(data: bytes, offset: nat, n: nat): (es: seq<bytes>)
    ensures |es| == n
  {
    seq(n, i requires 0 <= i < n => Slice(data, offset + i * 32, offset + (i + 1) * 32))
  }

  /** What `PSCMsg2.from_bytes` computes; its first length test lets 100 to 131 bytes through. */
  function DecodeMsg2(C: Primitives, data: bytes): Option<Msg2>
  {
    if |data| < 32 + PROOF_SIZE + 4 then None
    else
      var keyed := DecodePoint(C, Slice(data, 32, 64));
      var proof := DecodeProof(C, Slice(data, 64, 128));
      var count := FromBE(Slice(data, 128, 132));
      if keyed.None? || proof.None? || |data| != 132 + count * 32 then None
      else Some(Msg2(Slice(data, 0, 32), keyed.value, proof.value, Entries(data, 132, count)))
  }

  /** `PSCMsg2.from_bytes`, advancing an offset through the input. */
  method ParseMsg2(C: Primitives, data: bytes) returns (r: Result<Msg2, Error>)
    ensures r == OrElse(DecodeMsg2(C, data), BadValue)
  {
    var offset: nat := 0;
    if |data| < 32 + PROOF_SIZE + 4 {
      return Err(BadValue);
    }
    var sid := Slice(data, offset, offset + 32);
    offset := offset + 32;
    var bigB := DecodePoint(C, Slice(data, offset, offset + 32));
    if bigB.None? {
      return Err(BadValue);
    }
    offset := offset + 32;
    var proof := DecodeProof(C, Slice(data, offset, offset + PROOF_SIZE));
    if proof.None? {
      return Err(BadValue);
    }
    offset := offset + PROOF_SIZE;
    var count := FromBE(Slice(data, offset, offset + 4));
    offset := offset + 4;
    if |data| != offset + count * 32 {
      return Err(BadValue);
    }
    var hats := Entries(data, offset, count);
    r := Ok(Msg2(sid, bigB.value, proof.value, hats));
  }

  /** `PSCStateOB.from_bytes`, likewise. */
  method ParseState(C: Primitives, data: bytes) returns (r: Result<StateOB, Error>)
    ensures r == OrElse(DecodeState(C, data), BadValue)
  {
    if |data| != STATE_SIZE {
      return Err(BadValue);
    }
    assert Slice(data, 96, 128) == data[96..];
    var offset: nat := 0;
    var sid := Slice(data, offset, offset + 32);
    offset := offset + 32;
    var h1x := DecodePoint(C, Slice(data, offset, offset + 32));
    if h1x.None? {
      return Err(BadValue);
    }
    offset := offset + 32;
    var scalar := DecodeScalar(C.group.order, Slice(data, offset, offset + 32));
    if scalar.None? {
      return Err(BadValue);
    }
    offset := offset + 32;
    var bigA := DecodePoint(C, Slice(data, offset, offset + 32));
    if bigA.None? {
      return Err(BadValue);
    }
    r := Ok(StateOB(sid, h1x.value, scalar.value, bigA.value));
  }

  // --- the formats are exact -------------------------------------------------------

  predicate ProofOk(C: Primitives, p: DlogProof.Proof) {
    C.group.valid(p.t) && 0 < p.s < C.group.order
  }

  predicate Msg1Ok(C: Primitives, m: Msg1) {
    |m.sid| == 32 && C.group.valid(m.bigA)
  }

  predicate StateOk(C: Primitives, st: StateOB) {
    |st.sid| == 32 && C.group.valid(st.h1x) && 0 < st.r < C.group.order && C.group.valid(st.bigA)
  }

  predicate Msg2Ok(C: Primitives, m: Msg2) {
    && |m.sid| == 32 && C.group.valid(m.bigB) && ProofOk(C, m.proof)
    && |m.hats| < 0x1_0000_0000
    && forall h :: h in m.hats ==> |h| == 32
  }

  /** Well-formed first messages and accepted byte strings correspond exactly. */
  lemma Msg1Exact(C: Primitives, m: Msg1, data: bytes)
    ensures DecodeMsg1(C, data) == Some(m) <==> Msg1Ok(C, m) && EncodeMsg1(m) == data
  {
    if Msg1Ok(C, m) && EncodeMsg1(m) == data {
      assert data[..32] == m.sid && data[32..] == m.bigA;
    }
  }

  lemma StateExact(C: Primitives, st: StateOB, data: bytes)
    requires C.group.order <= BOUND32
    ensures DecodeState(C, data) == Some(st) <==> StateOk(C, st) && EncodeState(st) == data
  {
    if StateOk(C, st) && EncodeState(st) == data {
      ScalarRoundTrip(C.group.order, st.r);
      assert data[..32] == st.sid && data[32..64] == st.h1x;
      assert data[64..96] == EncodeScalar(st.r) && data[96..] == st.bigA;
    }
    if DecodeState(C, data) == Some(st) {
      CanonicalScalars(C.group.order, data[64..96]);
      assert data == data[..32] + data[32..64] + data[64..96] + data[96..];
    }
  }

  lemma ProofExact(C: Primitives, p: DlogProof.Proof, data: bytes)
    requires C.group.order <= BOUND32
    ensures DecodeProof(C, data) == Some(p) <==> ProofOk(C, p) && EncodeProof(p) == data
  {
    if ProofOk(C, p) && EncodeProof(p) == data {
      ScalarRoundTrip(C.group.order, p.s);
      assert data[..32] == p.t && data[32..] == EncodeScalar(p.s);
    }
    if DecodeProof(C, data) == Some(p) {
      CanonicalScalars(C.group.order, data[32..]);
      assert data == data[..32] + data[32..];
    }
  }

  lemma EntriesStep(data: bytes, offset: nat, n: nat)
    requires n > 0
    ensures Entries(data, offset, n) == [Slice(data, offset, offset + 32)] + Entries(data, offset + 32, n - 1)
  {
  }

  lemma {:induction false} ConcatEntries(data: bytes, offset: nat, n: nat)
    requires |data| == offset + n * 32
    ensures Concat(Entries(data, offset, n)) == data[offset..]
    ensures forall e :: e in Entries(data, offset, n) ==> |e| == 32
    decreases n
  {
    if n > 0 {
      EntriesStep(data, offset, n);
      ConcatEntries(data, offset + 32, n - 1);
    }
  }

  lemma {:induction false} ConcatLength(hats: seq<bytes>)
    requires forall h :: h in hats ==> |h| == 32
    ensures |Concat(hats)| == |hats| * 32
    decreases |hats|
  {
    if hats != [] {
      ConcatLength(hats[1..]);
    }
  }

  lemma FirstEntry(before: bytes, hat: bytes, rest: bytes)
    requires |hat| == 32
    ensures Slice(before + (hat + rest), |before|, |before| + 32) == hat
    ensures before + (hat + rest) == (before + hat) + rest
  {
    var data := before + (hat + rest);
    assert data[|before|..|before| + 32] == hat;
  }

  lemma {:induction false} EntriesOfConcat(before: bytes, hats: seq<bytes>)
    requires forall h :: h in hats ==> |h| == 32
    ensures |Concat(hats)| == |hats| * 32
    ensures Entries(before + Concat(hats), |before|, |hats|) == hats
    decreases |hats|
  {
    ConcatLength(hats);
    if hats != [] {
      var rest := Concat(hats[1..]);
      EntriesOfConcat(before + hats[0], hats[1..]);
      FirstEntry(before, hats[0], rest);
      EntriesStep(before + Concat(hats), |before|, |hats|);
      assert hats == [hats[0]] + hats[1..];
    }
  }

  /**
   * The same for second messages: a byte string is accepted exactly when it is the encoding of a
   * well-formed message, so in particular none of 100 to 131 bytes is.
   */
  lemma Msg2Exact(C: Primitives, m: Msg2, data: bytes)
    requires C.group.order <= BOUND32
    ensures DecodeMsg2(C, data) == Some(m) <==> Msg2Ok(C, m) && EncodeMsg2(m) == Some(data)
  {
    if Msg2Ok(C, m) && EncodeMsg2(m) == Some(data) {
      Msg2RoundTrip(C, m, data);
    }
    if DecodeMsg2(C, data) == Some(m) {
      Msg2Reencodes(C, m, data);
    }
  }

  lemma Msg2RoundTrip(C: Primitives, m: Msg2, data: bytes)
    requires C.group.order <= BOUND32
    requires Msg2Ok(C, m) && EncodeMsg2(m) == Some(data)
    ensures DecodeMsg2(C, data) == Some(m) && |data| == 132 + 32 * |m.hats|
  {
    var p, n := EncodeProof(m.proof), ToBE(|m.hats|, 4);
    ProofExact(C, m.proof, p);
    EntriesOfConcat(m.sid + m.bigB + p + n, m.hats);
    HeadOf(m.sid, m.bigB, p, n, Concat(m.hats), data);
    CountOf(|m.hats|);
  }

  lemma CountOf(n: nat)
    requires n < 0x1_0000_0000
    ensures FromBE(ToBE(n, 4)) == n
  {
    assert Pow256(4) == 0x1_0000_0000;
    EncodeThenDecode(n, 4);
  }

  lemma HeadOf(sid: bytes, y: bytes, p: bytes, n: bytes, rest: bytes, data: bytes)
    requires |sid| == 32 && |y| == 32 && |p| == 64 && |n| == 4 && data == sid + y + p + n + rest
    ensures Slice(data, 0, 32) == sid && Slice(data, 32, 64) == y
    ensures Slice(data, 64, 128) == p && Slice(data, 128, 132) == n && |data| == 132 + |rest|
  {
    assert data[..32] == sid && data[32..64] == y && data[64..128] == p && data[128..132] == n;
  }

  lemma Msg2Reencodes(C: Primitives, m: Msg2, data: bytes)
    requires C.group.order <= BOUND32
    requires DecodeMsg2(C, data) == Some(m)
    ensures Msg2Ok(C, m) && EncodeMsg2(m) == Some(data)
  {
    var n := Slice(data, 128, 132);
    ProofExact(C, m.proof, data[64..128]);
    assert Pow256(4) == 0x1_0000_0000;
    DecodeThenEncodeBE(n);
    ConcatEntries(data, 132, |m.hats|);
    Pieces(data);
  }

  lemma Pieces(data: bytes)
    requires |data| >= 132
    ensures data == data[..32] + data[32..64] + data[64..128] + data[128..132] + data[132..]
  {
  }

  // --- the steps --------------------------------------------------------------------

  /** `psc_create_msg1` with blinding scalar `r`. */
  function CreateMsg1(C: Primitives, sid: bytes, x: bytes, r: nat): Result<(StateOB, Msg1), Error> {
    if |sid| != 32 then Err(BadValue)
    else
      var hashed := C.h1(sid, x);
      var blinded :- OrElse(Times(C.group, hashed, r), Degenerate);
      Ok((StateOB(sid, hashed, r, blinded), Msg1(sid, blinded)))
  }

  /** The list entry for `v` under key `k`. */
  function Hat(C: Primitives, sid: bytes, k: nat, v: bytes): Option<Bytes32> {
    var hashed := C.h1(sid, v);
    var keyed := Times(C.group, hashed, k);
    if keyed.None? then None else Some(C.h2(sid, hashed, keyed.value))
  }

  function Hats(C: Primitives, sid: bytes, k: nat, vs: seq<bytes>): Option<seq<bytes>> {
    if vs == [] then Some([])
    else
      var rest, last := Hats(C, sid, k, vs[..|vs| - 1]), Hat(C, sid, k, vs[|vs| - 1]);
      if rest.None? || last.None? then None else Some(rest.value + [last.value])
  }

  /** What `psc_process_msg1` computes from key `k`, proof nonce `n` and the shuffle's random numbers. */
  function ProcessMsg1(C: Primitives, sid: bytes, bigY: seq<bytes>, m: Msg1, k: nat, n: nat, picks: seq<nat>)
    : Result<Msg2, Error>
  {
    if |sid| != 32 then Err(BadValue)
    else if sid != m.sid then Err(InvalidSessionId)
    else if bigY == [] then Err(BadValue)
    else
      var keyed :- OrElse(Times(C.group, m.bigA, k), Degenerate);
      var proof :- OrElse(DlogProof.Prove(C, k, m.bigA, sid, n), Degenerate);
      var hats :- OrElse(Hats(C, sid, k, Shuffle.Shuffled(bigY, Shuffle.DrawsOf(picks, |bigY|))), Degenerate);
      Ok(Msg2(sid, keyed, proof, hats))
  }

  /** `psc_process_msg1`: shuffle a copy of the list, then append one entry per item. */
  method AnswerMsg1(C: Primitives, sid: bytes, bigY: array<bytes>, m: Msg1, k: nat, n: nat, picks: seq<nat>)
    returns (r: Result<Msg2, Error>)
    ensures r == ProcessMsg1(C, sid, bigY[..], m, k, n, picks)
  {
    if |sid| != 32 {
      return Err(BadValue);
    }
    if sid != m.sid {
      return Err(InvalidSessionId);
    }
    if bigY.Length == 0 {
      return Err(BadValue);
    }
    var keyed := Times(C.group, m.bigA, k);
    if keyed.None? {
      return Err(Degenerate);
    }
    var proof := DlogProof.Prove(C, k, m.bigA, sid, n);
    if proof.None? {
      return Err(Degenerate);
    }
    var shuffled := Shuffle.SecureShuffle(bigY, Shuffle.DrawsOf(picks, bigY.Length));
    var hats: seq<bytes> := [];
    ghost var all := shuffled[..];
    for i := 0 to shuffled.Length
      invariant shuffled[..] == all
      invariant Hats(C, sid, k, all[..i]) == Some(hats)
    {
      assert all[..i + 1][..i] == all[..i];
      var h := Hat(C, sid, k, shuffled[i]);
      if h.None? {
        HatsFail(C, sid, k, all, i + 1);
        return Err(Degenerate);
      }
      hats := hats + [h.value];
    }
    assert all[..shuffled.Length] == all;
    r := Ok(Msg2(sid, keyed.value, proof.value, hats));
  }

  lemma {:induction false} HatsFail(C: Primitives, sid: bytes, k: nat, vs: seq<bytes>, i: nat)
    requires i <= |vs| && Hats(C, sid, k, vs[..i]).None?
    ensures Hats(C, sid, k, vs).None?
    decreases |vs|
  {
    if i < |vs| {
      var front := vs[..|vs| - 1];
      assert front[..i] == vs[..i];
      HatsFail(C, sid, k, front, i);
    } else {
      assert vs[..i] == vs;
    }
  }

  /** `psc_process_msg2`. */
  function ProcessMsg2(C: Primitives, st: StateOB, m: Msg2): Result<bool, Error> {
    if st.sid != m.sid then Err(InvalidMsg2)
    else
      var ok :- OrElse(DlogProof.Verify(C, m.proof, m.bigB, st.bigA, st.sid), Degenerate);
      if !ok then Err(InvalidProof)
      else if !(0 < st.r < C.group.order) then Err(Degenerate)
      else
        var unblinded :- OrElse(Times(C.group, m.bigB, Inverse(st.r, C.group.order)), Degenerate);
        Ok(C.h2(st.sid, st.h1x, unblinded) in m.hats)
  }

  // --- exactness ----------------------------------------------------------------------

  /** Unblinding what the peer did to the blinded point gives what it would do to the point. */
  lemma Unblinding(G: Group, P: Point, r: nat, k: nat)
    requires Laws(G) && G.valid(P) && 0 < r < G.order
    ensures Mul(G, Inverse(r, G.order), Mul(G, k, Mul(G, r, P))) == Mul(G, k, P)
  {
    var i := Inverse(r, G.order);
    var keyed := Mul(G, k, P);
    MulValid(G, k, P);
    Commute(G, k, r, P);
    MulUndo(G, r, keyed);
  }

  lemma Commute(G: Group, a: nat, b: nat, P: Point)
    requires Laws(G) && G.valid(P)
    ensures Mul(G, a, Mul(G, b, P)) == Mul(G, b, Mul(G, a, P))
  {
    NonNegative(a, b);
    MulMul(G, a, b, P);
    MulMul(G, b, a, P);
  }

  /**
   * On any second message that passes the checks, the result says whether some entry is the hash
   * of the query point under the key `k` with B = k*A. Neither the blinding scalar nor the order
   * or repetition of the entries matters.
   */
  lemma PscExactness(C: Primitives, sid: bytes, x: bytes, r: nat, m: Msg2)
    requires C.Ideal() && 0 < r < C.group.order && C.group.valid(m.bigB)
    requires CreateMsg1(C, sid, x, r).Ok?
    requires ProcessMsg2(C, CreateMsg1(C, sid, x, r).value.0, m).Ok?
    ensures exists k: nat :: k < C.group.order && Mul(C.group, k, CreateMsg1(C, sid, x, r).value.0.bigA) == m.bigB
    ensures forall k: nat :: Mul(C.group, k, CreateMsg1(C, sid, x, r).value.0.bigA) == m.bigB ==>
              (ProcessMsg2(C, CreateMsg1(C, sid, x, r).value.0, m).value <==>
               C.h2(sid, C.h1(sid, x), Mul(C.group, k, C.h1(sid, x))) in m.hats)
  {
    var group, hashed := C.group, C.h1(sid, x);
    var blinded := Mul(group, r, hashed);
    MulValid(group, r, hashed);
    var w := MulOnto(group, blinded, m.bigB);
    forall k: nat | Mul(group, k, blinded) == m.bigB
      ensures Mul(group, Inverse(r, group.order), m.bigB) == Mul(group, k, hashed)
    {
      Unblinding(group, hashed, r, k);
    }
  }

  lemma {:induction false} HatsMembers(C: Primitives, sid: bytes, k: nat, vs: seq<bytes>, h: bytes)
    requires Hats(C, sid, k, vs).Some?
    ensures |Hats(C, sid, k, vs).value| == |vs|
    ensures forall e :: e in Hats(C, sid, k, vs).value ==> |e| == 32
    ensures h in Hats(C, sid, k, vs).value <==> exists v :: v in vs && Hat(C, sid, k, v) == Some(h)
    decreases |vs|
  {
    if vs != [] {
      var front, v := vs[..|vs| - 1], vs[|vs| - 1];
      HatsMembers(C, sid, k, front, h);
      assert vs == front + [v];
    }
  }

  lemma {:induction false} HatsSucceed(C: Primitives, sid: bytes, k: nat, vs: seq<bytes>)
    requires C.Ideal() && 0 < k < C.group.order
    requires forall v :: v in vs ==> C.h1(sid, v) != C.group.zero
    ensures Hats(C, sid, k, vs).Some?
    decreases |vs|
  {
    if vs != [] {
      var front, v := vs[..|vs| - 1], vs[|vs| - 1];
      assert vs == front + [v];
      HatsSucceed(C, sid, k, front);
      MulIsZero(C.group, k, C.h1(sid, v));
      Small(k, C.group.order);
    }
  }

  /** The random draws of an honest run that the library does not raise on. */
  ghost predicate Generic(C: Primitives, sid: bytes, x: bytes, vs: seq<bytes>, r: nat, k: nat, n: nat)
  {
    && 0 < r < C.group.order && 0 < k < C.group.order && 0 < n < C.group.order
    && C.h1(sid, x) != C.group.zero
    && (forall v :: v in vs ==> C.h1(sid, v) != C.group.zero)
    && var blinded := Mul(C.group, r, C.h1(sid, x));
       var keyed, t := Mul(C.group, k, blinded), Mul(C.group, n, blinded);
       var c := C.challenge(keyed, t, blinded, sid);
       c != 0 && (n + c * k) % C.group.order != 0
  }

  /** Two items that the session's hashes do not tell apart under key `k`. */
  predicate Indistinct(C: Primitives, sid: bytes, k: nat, x: bytes, v: bytes) {
    Hat(C, sid, k, x).Some? && Hat(C, sid, k, x) == Hat(C, sid, k, v)
  }

  /**
   * An honest run succeeds on every list, and answers whether some list item hashes as the query
   * does. So a member is always found, and a non-member only through a collision.
   */
  lemma PscHonestRun(C: Primitives, sid: bytes, x: bytes, vs: seq<bytes>, r: nat, k: nat, n: nat, picks: seq<nat>)
    requires C.Ideal() && |sid| == 32 && 0 < |vs| < 0x1_0000_0000 && Generic(C, sid, x, vs, r, k, n)
    ensures CreateMsg1(C, sid, x, r).Ok?
    ensures var (st, m1) := CreateMsg1(C, sid, x, r).value;
            && StateOk(C, st) && Msg1Ok(C, m1) && m1.sid == sid
            && ProcessMsg1(C, sid, vs, m1, k, n, picks).Ok?
            && var m2 := ProcessMsg1(C, sid, vs, m1, k, n, picks).value;
               && Msg2Ok(C, m2) && |m2.hats| == |vs|
               && ProcessMsg2(C, st, m2) == Ok(exists v :: v in vs && Indistinct(C, sid, k, x, v))
  {
    var group, hashed := C.group, C.h1(sid, x);
    var blinded := Mul(group, r, hashed);
    Small(r, group.order);
    Small(k, group.order);
    MulIsZero(group, r, hashed);
    MulValid(group, r, hashed);
    MulIsZero(group, k, blinded);
    MulValid(group, k, blinded);
    assert CreateMsg1(C, sid, x, r) == Ok((StateOB(sid, hashed, r, blinded), Msg1(sid, blinded)));
    HonestProof(C, sid, blinded, k, n);
    HonestAnswer(C, sid, x, vs, r, k, n, picks, blinded);
  }

  lemma HonestAnswer(C: Primitives, sid: bytes, x: bytes, vs: seq<bytes>, r: nat, k: nat, n: nat, picks: seq<nat>,
        blinded: Point)
    requires C.Ideal() && |sid| == 32 && 0 < |vs| && 0 < r < C.group.order && 0 < k < C.group.order
    requires C.h1(sid, x) != C.group.zero && forall v :: v in vs ==> C.h1(sid, v) != C.group.zero
    requires blinded == Mul(C.group, r, C.h1(sid, x)) && C.group.valid(blinded)
    requires var keyed := Mul(C.group, k, blinded);
             keyed != C.group.zero && C.group.valid(keyed) && DlogProof.Prove(C, k, blinded, sid, n).Some? &&
             DlogProof.Verify(C, DlogProof.Prove(C, k, blinded, sid, n).value, keyed, blinded, sid) == Some(true)
    ensures var m2 := ProcessMsg1(C, sid, vs, Msg1(sid, blinded), k, n, picks);
            && m2.Ok? && m2.value.bigB == Mul(C.group, k, blinded)
            && m2.value.proof == DlogProof.Prove(C, k, blinded, sid, n).value && m2.value.sid == sid
            && |m2.value.hats| == |vs| && (forall h :: h in m2.value.hats ==> |h| == 32)
            && ProcessMsg2(C, StateOB(sid, C.h1(sid, x), r, blinded), m2.value)
               == Ok(exists v :: v in vs && Indistinct(C, sid, k, x, v))
  {
    HonestHats(C, sid, x, vs, k, picks);
    Unblinding(C.group, C.h1(sid, x), r, k);
    MulIsZero(C.group, k, C.h1(sid, x));
    Small(k, C.group.order);
  }

  lemma HonestProof(C: Primitives, sid: bytes, blinded: Point, k: nat, n: nat)
    requires C.Ideal() && C.group.valid(blinded) && blinded != C.group.zero
    requires 0 < k < C.group.order && 0 < n < C.group.order
    requires var keyed, t := Mul(C.group, k, blinded), Mul(C.group, n, blinded);
             var c := C.challenge(keyed, t, blinded, sid); c != 0 && (n + c * k) % C.group.order != 0
    ensures var p, keyed := DlogProof.Prove(C, k, blinded, sid, n), Mul(C.group, k, blinded);
            p.Some? && ProofOk(C, p.value) && DlogProof.Verify(C, p.value, keyed, blinded, sid) == Some(true)
  {
    DlogProof.Completeness(C, k, blinded, sid, n);
  }

  lemma HonestHats(C: Primitives, sid: bytes, x: bytes, vs: seq<bytes>, k: nat, picks: seq<nat>)
    requires C.Ideal() && 0 < k < C.group.order && C.h1(sid, x) != C.group.zero
    requires forall v :: v in vs ==> C.h1(sid, v) != C.group.zero
    ensures var hashed, hats := C.h1(sid, x), Hats(C, sid, k, Shuffle.Shuffled(vs, Shuffle.DrawsOf(picks, |vs|)));
            && hats.Some? && |hats.value| == |vs| && (forall e :: e in hats.value ==> |e| == 32)
            && (C.h2(sid, hashed, Mul(C.group, k, hashed)) in hats.value <==>
                exists v :: v in vs && Indistinct(C, sid, k, x, v))
  {
    var hashed, d := C.h1(sid, x), Shuffle.DrawsOf(picks, |vs|);
    var ws := Shuffle.Shuffled(vs, d);
    Shuffle.ShuffleKeepsItems(vs, Shuffle.Top(|vs|), d);
    forall v ensures v in ws <==> v in vs {
      assert v in multiset(ws) <==> v in multiset(vs);
    }
    HatsSucceed(C, sid, k, ws);
    MulIsZero(C.group, k, hashed);
    Small(k, C.group.order);
    HatsMembers(C, sid, k, ws, C.h2(sid, hashed, Mul(C.group, k, hashed)));
  }

  /** Nothing is told apart from itself. */
  lemma Found(C: Primitives, sid: bytes, k: nat, x: bytes)
    requires C.Ideal() && 0 < k < C.group.order && C.h1(sid, x) != C.group.zero
    ensures Indistinct(C, sid, k, x, x)
  {
    MulIsZero(C.group, k, C.h1(sid, x));
    Small(k, C.group.order);
  }

  /** The three places a collision can hide behind `Indistinct`. */
  lemma IndistinctMeansCollision(C: Primitives, sid: bytes, k: nat, x: bytes, v: bytes)
    requires C.Ideal() && 0 < k < C.group.order && Indistinct(C, sid, k, x, v)
    ensures var hx, hv := C.h1(sid, x), C.h1(sid, v);
            || x == v
            || hx == hv
            || (C.h2(sid, hx, Mul(C.group, k, hx)) == C.h2(sid, hv, Mul(C.group, k, hv)) &&
                Mul(C.group, k, hx) != Mul(C.group, k, hv))
  {
    var group, hx, hv := C.group, C.h1(sid, x), C.h1(sid, v);
    if Mul(group, k, hx) == Mul(group, k, hv) {
      MulUndo(group, k, hx);
      MulUndo(group, k, hv);
    }
  }

  // --- what each step accepts ------------------------------------------------------------------------

  /** The first message blinds the query point; it fails on a wrong session id or a degenerate product. */
  lemma CreatesExactly(C: Primitives, sid: bytes, x: bytes, r: nat)
    ensures var out, blinded := CreateMsg1(C, sid, x, r), Mul(C.group, r, C.h1(sid, x));
            && (out.Ok? <==> |sid| == 32 && blinded != C.group.zero)
            && (out.Ok? ==> out.value == (StateOB(sid, C.h1(sid, x), r, blinded), Msg1(sid, blinded)))
  {
  }

  /** Neither product of the proof's equation is the identity. */
  ghost predicate Checkable(C: Primitives, sid: bytes, base: Point, y: Point, p: DlogProof.Proof) {
    Mul(C.group, p.s, base) != C.group.zero && Mul(C.group, C.challenge(y, p.t, base, sid), y) != C.group.zero
  }

  /** The equation holds for the answer's key over the question. */
  ghost predicate Proven(C: Primitives, sid: bytes, base: Point, y: Point, p: DlogProof.Proof) {
    Mul(C.group, p.s, base) == C.group.add(p.t, Mul(C.group, C.challenge(y, p.t, base, sid), y))
  }

  /** The inverse of a scalar that has one. */
  function Unblinder(C: Primitives, r: nat): nat {
    if 0 < r < C.group.order then Inverse(r, C.group.order) else 0
  }

  /**
   * A second message is decided exactly when it is of the state's session and proves that one key made it
   * from the question; a message of another session or with a false proof is refused as such.
   */
  lemma DecidesExactly(C: Primitives, st: StateOB, m: Msg2)
    ensures var out, point := ProcessMsg2(C, st, m), Mul(C.group, Unblinder(C, st.r), m.bigB);
            var checkable := Checkable(C, st.sid, st.bigA, m.bigB, m.proof);
            var proven := Proven(C, st.sid, st.bigA, m.bigB, m.proof);
            && (out == Err(InvalidMsg2) <==> m.sid != st.sid)
            && (out == Err(InvalidProof) <==> m.sid == st.sid && checkable && !proven)
            && (out.Ok? <==>
                  m.sid == st.sid && checkable && proven && 0 < st.r < C.group.order && point != C.group.zero)
            && (out.Ok? ==> (out.value <==> C.h2(st.sid, st.h1x, point) in m.hats))
  {
  }

  /** An answer is made for a question of this session, from a list that is not empty, unless a product degenerates. */
  lemma AnswersExactly(C: Primitives, sid: bytes, vs: seq<bytes>, m: Msg1, k: nat, n: nat, picks: seq<nat>)
    ensures var out := ProcessMsg1(C, sid, vs, m, k, n, picks);
            && (out.Err? && out.error == InvalidSessionId <==> |sid| == 32 && m.sid != sid)
            && (out.Err? && out.error == BadValue <==> |sid| != 32 || (m.sid == sid && vs == []))
            && (out.Ok? ==> |sid| == 32 && m.sid == sid && vs != [] && out.value.sid == sid &&
                            out.value.bigB == Mul(C.group, k, m.bigA) && out.value.bigB != C.group.zero)
            && (out.Ok? ==> Hats(C, sid, k, Shuffle.Shuffled(vs, Shuffle.DrawsOf(picks, |vs|))) == Some(out.value.hats))
  {
  }

  /** A list can be hashed exactly when each item can. */
  lemma {:induction false} HatsOfAll(C: Primitives, sid: bytes, k: nat, vs: seq<bytes>)
    ensures Hats(C, sid, k, vs).Some? <==> forall v :: v in vs ==> Hat(C, sid, k, v).Some?
    decreases |vs|
  {
    if vs != [] {
      var front, last := vs[..|vs| - 1], vs[|vs| - 1];
      HatsOfAll(C, sid, k, front);
      assert vs == front + [last];
    }
  }

  lemma SameItemsHash(C: Primitives, sid: bytes, k: nat, vs: seq<bytes>, ws: seq<bytes>)
    requires multiset(ws) == multiset(vs) && Hats(C, sid, k, vs).Some?
    ensures Hats(C, sid, k, ws).Some?
  {
    HatsOfAll(C, sid, k, vs);
    HatsOfAll(C, sid, k, ws);
    forall v | v in ws ensures Hat(C, sid, k, v).Some? {
      assert v in multiset(ws);
    }
  }

  /** Its entries can come out in any order of the list. */
  lemma AnyOrder(C: Primitives, sid: bytes, vs: seq<bytes>, ws: seq<bytes>, m: Msg1, k: nat, n: nat, picks: seq<nat>)
    returns (other: seq<nat>)
    requires multiset(ws) == multiset(vs) && ProcessMsg1(C, sid, vs, m, k, n, picks).Ok?
    ensures ProcessMsg1(C, sid, vs, m, k, n, other).Ok?
    ensures Hats(C, sid, k, ws) == Some(ProcessMsg1(C, sid, vs, m, k, n, other).value.hats)
  {
    other := Shuffle.EveryOrder(vs, ws);
    var d := Shuffle.DrawsOf(picks, |vs|);
    Shuffle.ShuffleKeepsItems(vs, Shuffle.Top(|vs|), d);
    SameItemsHash(C, sid, k, Shuffle.Shuffled(vs, d), ws);
    AnswersExactly(C, sid, vs, m, k, n, picks);
  }
}
