/** The byte-level functions of ffi.py, with its length guards, and the hashes of utils.py. */
module PsiFfi {
  import opened Wrappers
  import opened Bytes
  import opened Crypto
  import P = PscProtocol

  /** `ProtocolError`; anything else the group library or a helper raises. */
  datatype Failure = ProtocolError | OtherException

  const MAX_SANCTION_ENTRIES := 1_000_000
  const MAX_MSG2_BYTES := 128 + 4 + 32 * MAX_SANCTION_ENTRIES

  function GenerateHash(C: Primitives, data: string): Bytes32 {
    C.sha256(Ascii("Customer") + Utf8(data))
  }

  function ComputeSessionId(C: Primitives, sid0: bytes, sid1: bytes): Result<Bytes32, Failure> {
    if |sid0| != 32 || |sid1| != 32 then Err(OtherException)
    else Ok(C.sha256(Ascii("AP3-PSC-session-id") + sid0 + sid1))
  }

  function CreateCommitment(C: Primitives, sid: bytes, blind: bytes): Result<Bytes32, Failure> {
    if |sid| != 32 || |blind| != 32 then Err(OtherException)
    else Ok(C.sha256(Ascii("AP3-PSC-commit") + sid + blind))
  }

  function VerifyCommitment(C: Primitives, commit: bytes, sid: bytes, blind: bytes): Result<bool, Failure> {
    if |commit| != 32 then Err(OtherException)
    else
      var c :- CreateCommitment(C, sid, blind);
      Ok(commit == c)
  }

  /** How ffi.py translates the exceptions of a step: the ones it names, and the rest. */
  function Translate(e: P.Error): Failure {
    if e.Degenerate? then OtherException else ProtocolError
  }

  function CreatePscMsg1(C: Primitives, sid: bytes, customerHash: bytes, r: nat): Result<(bytes, bytes), Failure> {
    if |customerHash| != 32 then Err(ProtocolError)
    else
      match P.CreateMsg1(C, sid, customerHash, r)
      case Err(e) => Err(Translate(e))
      case Ok((st, m)) => Ok((P.EncodeState(st), P.EncodeMsg1(m)))
  }

  function ProcessPscMsg1(C: Primitives, sid: bytes, msg1: bytes, list: seq<bytes>, k: nat, n: nat, picks: seq<nat>)
    : Result<bytes, Failure>
  {
    if |sid| != 32 then Err(ProtocolError)
    else if list == [] then Err(ProtocolError)
    else if |list| > MAX_SANCTION_ENTRIES then Err(ProtocolError)
    else
      var m :- OrElse(P.DecodeMsg1(C, msg1), ProtocolError);
      match P.ProcessMsg1(C, sid, list, m, k, n, picks)
      case Err(e) => Err(Translate(e))
      case Ok(m2) => OrElse(P.EncodeMsg2(m2), OtherException)
  }

  function ProcessPscMsg2(C: Primitives, state: bytes, msg2: bytes): Result<bool, Failure>
  {
    if |msg2| > MAX_MSG2_BYTES then Err(ProtocolError)
    else
      var st :- OrElse(P.DecodeState(C, state), ProtocolError);
      var m :- OrElse(P.DecodeMsg2(C, msg2), ProtocolError);
      match P.ProcessMsg2(C, st, m)
      case Err(e) => Err(Translate(e))
      case Ok(b) => Ok(b)
  }

  /** The sizes agree: what one side can produce, the other side's cap admits. */
  lemma Msg2Size(C: Primitives, sid: bytes, msg1: bytes, list: seq<bytes>, k: nat, n: nat, picks: seq<nat>)
    requires ProcessPscMsg1(C, sid, msg1, list, k, n, picks).Ok?
    ensures var m := ProcessPscMsg1(C, sid, msg1, list, k, n, picks).value;
            |m| == 132 + 32 * |list| && |list| < 0x1_0000_0000 && |m| <= MAX_MSG2_BYTES
  {
    var m1 := P.DecodeMsg1(C, msg1).value;
    var m2 := P.ProcessMsg1(C, sid, list, m1, k, n, picks).value;
    var ws := P.Shuffle.Shuffled(list, P.Shuffle.DrawsOf(picks, |list|));
    P.HatsMembers(C, sid, k, ws, []);
    P.EntriesOfConcat([], m2.hats);
  }

  /** An honest run over the wire formats, on every list within the cap. */
  lemma HonestBytes(C: Primitives, sid: bytes, x: bytes, vs: seq<bytes>, r: nat, k: nat, n: nat, picks: seq<nat>)
    requires C.Ideal() && |sid| == 32 && |x| == 32 && 0 < |vs| <= MAX_SANCTION_ENTRIES
    requires P.Generic(C, sid, x, vs, r, k, n)
    ensures CreatePscMsg1(C, sid, x, r).Ok?
    ensures var (st, m1) := CreatePscMsg1(C, sid, x, r).value;
            && |st| == 128 && |m1| == 64
            && ProcessPscMsg1(C, sid, m1, vs, k, n, picks).Ok?
            && ProcessPscMsg2(C, st, ProcessPscMsg1(C, sid, m1, vs, k, n, picks).value)
               == Ok(exists v :: v in vs && P.Indistinct(C, sid, k, x, v))
  {
    P.PscHonestRun(C, sid, x, vs, r, k, n, picks);
    var (st, m1) := P.CreateMsg1(C, sid, x, r).value;
    var m2 := P.ProcessMsg1(C, sid, vs, m1, k, n, picks).value;
    P.StateExact(C, st, P.EncodeState(st));
    P.Msg1Exact(C, m1, P.EncodeMsg1(m1));
    P.Msg2Exact(C, m2, P.EncodeMsg2(m2).value);
    Msg2Size(C, sid, P.EncodeMsg1(m1), vs, k, n, picks);
  }

  /** What `create_psc_msg1` accepts, and what it makes: the encodings of the state and of the message. */
  lemma CreatesExactly(C: Primitives, sid: bytes, x: bytes, r: nat)
    ensures var out, made := CreatePscMsg1(C, sid, x, r), P.CreateMsg1(C, sid, x, r);
            && (out.Ok? <==> |x| == 32 && made.Ok?)
            && (out.Ok? ==> out.value == (P.EncodeState(made.value.0), P.EncodeMsg1(made.value.1)))
  {
  }

  /** `process_psc_msg1` refuses lists that are empty or over the cap and first messages it cannot read. */
  lemma AnswersExactly(C: Primitives, sid: bytes, msg1: bytes, list: seq<bytes>, k: nat, n: nat, picks: seq<nat>)
    ensures var out, m := ProcessPscMsg1(C, sid, msg1, list, k, n, picks), P.DecodeMsg1(C, msg1);
            && (out.Ok? ==> |sid| == 32 && 0 < |list| <= 1_000_000 && m.Some?)
            && (|sid| == 32 && 0 < |list| <= 1_000_000 && m.Some? ==>
                  var answer := P.ProcessMsg1(C, sid, list, m.value, k, n, picks);
                  && (out.Ok? <==> answer.Ok? && P.EncodeMsg2(answer.value).Some?)
                  && (out.Ok? ==> P.EncodeMsg2(answer.value) == Some(out.value)))
  {
  }

  /** `process_psc_msg2` refuses messages over the size of the largest list and what it cannot read. */
  lemma DecidesExactly(C: Primitives, state: bytes, msg2: bytes)
    ensures var out, st, m := ProcessPscMsg2(C, state, msg2), P.DecodeState(C, state), P.DecodeMsg2(C, msg2);
            && (out.Ok? ==> |msg2| <= 132 + 32 * 1_000_000 && st.Some? && m.Some?)
            && (|msg2| <= 132 + 32 * 1_000_000 && st.Some? && m.Some? ==>
                  var decided := P.ProcessMsg2(C, st.value, m.value);
                  (out.Ok? <==> decided.Ok?) && (out.Ok? ==> out.value == decided.value))
  {
  }
}
