/**
 * What a PSI run of `run_intent` comes to over any network, honest or not: when it returns a result and
 * what that means, and when it leaves its session behind.
 */
module PsiRuns {
  import opened Wrappers
  import opened Bytes
  import opened Json
  import opened Ristretto
  import opened Crypto
  import opened Operations
  import opened Receiver
  import opened Initiator
  import opened PsiOperation
  import F = PsiFfi
  import P = PscProtocol

  /** A reply that carries no error. */
  predicate Replied(d: Delivery) {
    d.Returned? && d.reply.Some? && d.reply.value.error.None?
  }

  function Got(job: Job, round: nat): Message
    requires Replied(job.network(round))
  {
    ToMessage(job.network(round).reply.value)
  }

  /** The payload of a reply of the given phase. */
  function PayloadOf(C: Primitives, job: Job, round: nat, phase: string): Option<bytes> {
    if Replied(job.network(round)) && Got(job, round).phase == phase && B64d(C, Got(job, round).payload).Ok? then
      Some(B64d(C, Got(job, round).payload).value)
    else None
  }

  /** The peer can be called and a customer is given. */
  predicate Startable(S: Setup, C: Primitives, peer: Option<Peer>, job: Job) {
    peer.Some? && S.compatible(peer.value) && CustomerOf(C, job.inputs).Some?
  }

  /** What the initiator makes of the first reply, if that is a `msg0` it can use: its state and its question. */
  function Question(C: Primitives, job: Job, customer: string): Option<(bytes, bytes)> {
    var sid1 := PayloadOf(C, job, 0, "msg0");
    if customer == "" || sid1.None? then None
    else
      var sid := F.ComputeSessionId(C, job.startDraws.token0, sid1.value);
      if sid.Err? then None
      else
        var r := F.CreatePscMsg1(C, sid.value, F.GenerateHash(C, customer), job.draws(0).scalar0);
        if r.Ok? then Some(r.value) else None
  }

  /** What it decides on the second reply, if that is a `msg2` it can use. */
  function Decision(C: Primitives, job: Job, st: bytes): Option<bool> {
    var msg2 := PayloadOf(C, job, 1, "msg2");
    if msg2.None? then None
    else
      var r := F.ProcessPscMsg2(C, st, msg2.value);
      if r.Ok? then Some(r.value) else None
  }

  /** The two messages sent. */
  function InitOut(C: Primitives, job: Job): Outgoing {
    var commit := C.sha256(Ascii("AP3-PSC-commit") + job.startDraws.token0 + job.startDraws.token1);
    Send("init", B64e(C, commit)).value
  }

  function Msg1Out(C: Primitives, job: Job, msg1: bytes): Outgoing {
    Send("msg1", B64e(C, job.startDraws.token0 + job.startDraws.token1 + msg1)).value
  }

  // --- the second round --------------------------------------------------------------------------

  /** How the second round ends, from the state `st` on. */
  ghost predicate LastEnd(C: Primitives, job: Job, wire: string, st: bytes, r: RunOut) {
    && (job.newId in r.ops <==> !Replied(job.network(1)))
    && (match Decision(C, job, st) case None => r.end.Failed? case Some(b) => r.end == Finished(wire, IsMatch(b)))
  }

  lemma Unanswered(S: Setup, ops: Table, job: Job, wire: string, d: Delivery, round: nat)
    requires round < MAX_ROUNDS && !Replied(d)
    ensures exists e :: OnDelivery(S, ops, job, wire, d, round) == Fail(ops, e)
  {
    var e := if d.Lost? then SendRaised else if d.reply.None? then NoReply else PeerRefused(d.reply.value.error.value);
    assert OnDelivery(S, ops, job, wire, d, round) == Fail(ops, e);
  }

  lemma LastDelivery(S: Setup, C: Primitives, ops: Table, job: Job, wire: string, st: bytes)
    requires C.Ideal() && S.behaviour == Psi(C) && Waiting(C, ops, job.newId, st) && st != []
    ensures var r := OnDelivery(S, ops, job, wire, job.network(1), 1); LastEnd(C, job, wire, st, r) && r.sent == []
  {
    if Replied(job.network(1)) {
      var r, ops1 := LastProcessed(S, C, ops, job, st);
      LastReplyEnds(S, C, ops, job, wire, st, r, ops1);
    } else {
      Unanswered(S, ops, job, wire, job.network(1), 1);
    }
  }

  lemma LastProcessed(S: Setup, C: Primitives, ops: Table, job: Job, st: bytes)
    returns (r: Result<Reply, Failure>, ops1: Table)
    requires C.Ideal() && S.behaviour == Psi(C) && Waiting(C, ops, job.newId, st) && st != []
    requires Replied(job.network(1))
    ensures Process(S.behaviour, ops, job.newId, Got(job, 1), job.draws(1)) == (r, ops1)
    ensures job.newId !in ops1 && LastReply(C, job, st, r)
  {
    SecondInitiatorRound(C, ops, job.newId, st, Got(job, 1), job.draws(1));
    r, ops1 := Process(S.behaviour, ops, job.newId, Got(job, 1), job.draws(1)).0,
               Process(S.behaviour, ops, job.newId, Got(job, 1), job.draws(1)).1;
  }

  predicate LastReply(C: Primitives, job: Job, st: bytes, r: Result<Reply, Failure>) {
    match Decision(C, job, st)
    case None => r.Err?
    case Some(b) => r == Ok(Reply(job.newId, true, None, Some(IsMatch(b))))
  }

  lemma LastReplyEnds(S: Setup, C: Primitives, ops: Table, job: Job, wire: string, st: bytes, r: Result<Reply, Failure>,
        ops1: Table)
    requires Replied(job.network(1)) && job.newId !in ops1 && LastReply(C, job, st, r)
    requires Process(S.behaviour, ops, job.newId, Got(job, 1), job.draws(1)) == (r, ops1)
    ensures var out := OnDelivery(S, ops, job, wire, job.network(1), 1);
            LastEnd(C, job, wire, st, out) && out.sent == []
  {
    DeliveryEnds(S, ops, job, wire, job.network(1).reply.value, 1, r, ops1);
  }

  lemma LastRound(S: Setup, C: Primitives, ops: Table, job: Job, wire: string, out: Outgoing, st: bytes)
    requires C.Ideal() && S.behaviour == Psi(C) && S.opType == "PSI" && Polite(job.crowd, job.newId)
    requires Waiting(C, ops, job.newId, st) && st != []
    ensures var r := Rounds(S, ops, job, wire, out, 1);
            LastEnd(C, job, wire, st, r) && r.sent == [BuildEnvelope(S, wire, job, out, 1)]
  {
    assert SameSession(job.newId, ops, job.crowd(1, ops));
    LastDelivery(S, C, job.crowd(1, ops), job, wire, st);
  }

  // --- the first round -----------------------------------------------------------------------------

  lemma QuestionIsAsked(C: Primitives, job: Job, customer: string, st: bytes, msg1: bytes)
    requires Replied(job.network(0))
    ensures Question(C, job, customer) == Some((st, msg1)) <==>
            && customer != "" && Got(job, 0).phase == "msg0"
            && Asks(C, customer, job.startDraws.token0, B64d(C, Got(job, 0).payload), job.draws(0), st, msg1)
  {
  }

  /** A first reply without a question: the run fails, and keeps its session only if there was no reply. */
  lemma Stops(S: Setup, C: Primitives, ops: Table, job: Job, wire: string, customer: string)
    requires C.Ideal() && S.behaviour == Psi(C) && Question(C, job, customer).None?
    requires Started(C, ops, job.newId, customer, job.startDraws.token0, job.startDraws.token1)
    ensures var r := OnDelivery(S, ops, job, wire, job.network(0), 0);
            (job.newId in r.ops <==> !Replied(job.network(0))) && r.end.Failed?
  {
    if Replied(job.network(0)) {
      var m, sid0 := Got(job, 0), job.startDraws.token0;
      FirstInitiatorRound(C, ops, job.newId, customer, sid0, job.startDraws.token1, m, job.draws(0));
      if st: bytes, msg1: bytes :| Asks(C, customer, sid0, B64d(C, m.payload), job.draws(0), st, msg1) {
        QuestionIsAsked(C, job, customer, st, msg1);
      }
    } else {
      Unanswered(S, ops, job, wire, job.network(0), 0);
    }
  }

  /** With a question the run goes on to the second round. */
  lemma Continues(S: Setup, C: Primitives, ops: Table, job: Job, wire: string, customer: string)
    returns (ops1: Table, st: bytes, msg1: bytes)
    requires C.Ideal() && S.behaviour == Psi(C) && Question(C, job, customer).Some?
    requires Started(C, ops, job.newId, customer, job.startDraws.token0, job.startDraws.token1)
    ensures Question(C, job, customer) == Some((st, msg1)) && Waiting(C, ops1, job.newId, st) && st != []
    ensures OnDelivery(S, ops, job, wire, job.network(0), 0) == Rounds(S, ops1, job, wire, Msg1Out(C, job, msg1), 1)
  {
    var m := Got(job, 0);
    st, msg1 := Question(C, job, customer).value.0, Question(C, job, customer).value.1;
    QuestionIsAsked(C, job, customer, st, msg1);
    FirstInitiatorRound(C, ops, job.newId, customer, job.startDraws.token0, job.startDraws.token1, m, job.draws(0));
    ops1 := Process(S.behaviour, ops, job.newId, m, job.draws(0)).1;
  }

  /** How the rounds end. */
  ghost predicate RoundsEnd(S: Setup, C: Primitives, job: Job, wire: string, customer: string, r: RunOut) {
    var q := Question(C, job, customer);
    && (q.None? ==> (job.newId in r.ops <==> !Replied(job.network(0))) && r.end.Failed?)
    && (q.Some? ==> LastEnd(C, job, wire, q.value.0, r) && r.sent == SentAll(S, C, job, wire, q.value.1))
  }

  function SentAll(S: Setup, C: Primitives, job: Job, wire: string, msg1: bytes): seq<Envelope> {
    [BuildEnvelope(S, wire, job, InitOut(C, job), 0), BuildEnvelope(S, wire, job, Msg1Out(C, job, msg1), 1)]
  }

  lemma AllRounds(S: Setup, C: Primitives, ops: Table, job: Job, wire: string, customer: string)
    requires C.Ideal() && S.behaviour == Psi(C) && S.opType == "PSI" && Polite(job.crowd, job.newId)
    requires Started(C, ops, job.newId, customer, job.startDraws.token0, job.startDraws.token1)
    ensures RoundsEnd(S, C, job, wire, customer, Rounds(S, ops, job, wire, InitOut(C, job), 0))
  {
    var t := job.crowd(0, ops);
    assert SameSession(job.newId, ops, t);
    FirstRound(S, ops, job, wire, InitOut(C, job));
    AfterFirst(S, C, t, job, wire, customer);
    Prefixed(S, C, job, wire, customer, OnDelivery(S, t, job, wire, job.network(0), 0));
  }

  /** The same, from the first delivery on. */
  ghost predicate RestEnds(S: Setup, C: Primitives, job: Job, wire: string, customer: string, r: RunOut) {
    var q := Question(C, job, customer);
    && (q.None? ==> (job.newId in r.ops <==> !Replied(job.network(0))) && r.end.Failed?)
    && (q.Some? ==> LastEnd(C, job, wire, q.value.0, r) &&
                    r.sent == [BuildEnvelope(S, wire, job, Msg1Out(C, job, q.value.1), 1)])
  }

  lemma AfterFirst(S: Setup, C: Primitives, ops: Table, job: Job, wire: string, customer: string)
    requires C.Ideal() && S.behaviour == Psi(C) && S.opType == "PSI" && Polite(job.crowd, job.newId)
    requires Started(C, ops, job.newId, customer, job.startDraws.token0, job.startDraws.token1)
    ensures RestEnds(S, C, job, wire, customer, OnDelivery(S, ops, job, wire, job.network(0), 0))
  {
    if Question(C, job, customer).None? {
      Stops(S, C, ops, job, wire, customer);
    } else {
      var ops1, st, msg1 := Continues(S, C, ops, job, wire, customer);
      LastRound(S, C, ops1, job, wire, Msg1Out(C, job, msg1), st);
    }
  }

  lemma Prefixed(S: Setup, C: Primitives, job: Job, wire: string, customer: string, rest: RunOut)
    requires RestEnds(S, C, job, wire, customer, rest)
    ensures RoundsEnd(S, C, job, wire, customer, After([BuildEnvelope(S, wire, job, InitOut(C, job), 0)], rest))
  {
  }

  lemma FirstRound(S: Setup, ops: Table, job: Job, wire: string, out: Outgoing)
    requires S.opType == "PSI"
    ensures Rounds(S, ops, job, wire, out, 0) ==
            After([BuildEnvelope(S, wire, job, out, 0)],
                  OnDelivery(S, job.crowd(0, ops), job, wire, job.network(0), 0))
  {
  }

  // --- the whole run --------------------------------------------------------------------------------

  lemma Begun(S: Setup, C: Primitives, ops: Table, peer: Option<Peer>, job: Job) returns (ops1: Table)
    requires C.Ideal() && S.behaviour == Psi(C) && Startable(S, C, peer, job)
    ensures RunIntent(S, ops, peer, job) == Rounds(S, ops1, job, job.newId, InitOut(C, job), 0)
    ensures Started(C, ops1, job.newId, CustomerOf(C, job.inputs).value, job.startDraws.token0, job.startDraws.token1)
  {
    ops1 := Start(S.behaviour, ops, "initiator", job.inputs, Config([]), "", job.newId, job.startDraws).1;
  }

  lemma NotBegun(S: Setup, C: Primitives, ops: Table, peer: Option<Peer>, job: Job)
    requires S.behaviour == Psi(C) && !Startable(S, C, peer, job)
    ensures RunIntent(S, ops, peer, job).end.Failed? && RunIntent(S, ops, peer, job).ops == ops
  {
  }

  /**
   * The run begins, and then no intent can be built, or the first envelope gets no reply but an error or
   * none, or the first reply makes the initiator ask and the second envelope gets none or an error.
   */
  predicate LeavesSession(S: Setup, C: Primitives, peer: Option<Peer>, job: Job) {
    && Startable(S, C, peer, job)
    && (|| S.opType != "PSI"
        || !Replied(job.network(0))
        || (Question(C, job, CustomerOf(C, job.inputs).value).Some? && !Replied(job.network(1))))
  }

  /** Exactly then its session stays behind, whatever other handlers do meanwhile. */
  lemma AbandonedExactly(S: Setup, C: Primitives, ops: Table, peer: Option<Peer>, job: Job)
    requires C.Ideal() && S.behaviour == Psi(C) && job.newId !in ops && Polite(job.crowd, job.newId)
    ensures job.newId in RunIntent(S, ops, peer, job).ops <==> LeavesSession(S, C, peer, job)
  {
    if Startable(S, C, peer, job) {
      var ops1 := Begun(S, C, ops, peer, job);
      if S.opType == "PSI" {
        AllRounds(S, C, ops1, job, job.newId, CustomerOf(C, job.inputs).value);
      }
    } else {
      NotBegun(S, C, ops, peer, job);
    }
  }

  /** What the run decides, if it gets that far. */
  function Concluded(S: Setup, C: Primitives, peer: Option<Peer>, job: Job): Option<bool> {
    if !Startable(S, C, peer, job) || S.opType != "PSI" then None
    else
      var q := Question(C, job, CustomerOf(C, job.inputs).value);
      if q.None? then None else Decision(C, job, q.value.0)
  }

  /**
   * Over any network: a run returns a result exactly when the first reply is a `msg0` that makes the
   * initiator ask and the second a `msg2` that its state decides; then that is the result, and two
   * envelopes were sent.
   */
  lemma FinishedExactly(S: Setup, C: Primitives, ops: Table, peer: Option<Peer>, job: Job)
    requires C.Ideal() && S.behaviour == Psi(C) && Polite(job.crowd, job.newId)
    ensures var out, decided := RunIntent(S, ops, peer, job), Concluded(S, C, peer, job);
            && (out.end.Finished? <==> decided.Some?)
            && (decided.Some? ==>
                  var msg1 := Question(C, job, CustomerOf(C, job.inputs).value).value.1;
                  && out.end == Finished(job.newId, Obj([Field("is_match", Bool(decided.value))]))
                  && out.sent == SentAll(S, C, job, job.newId, msg1))
  {
    if Startable(S, C, peer, job) {
      var ops1 := Begun(S, C, ops, peer, job);
      if S.opType == "PSI" {
        AllRounds(S, C, ops1, job, job.newId, CustomerOf(C, job.inputs).value);
      }
    } else {
      NotBegun(S, C, ops, peer, job);
    }
  }

  // --- what a result means -----------------------------------------------------------------------------

  /** The second message answers the question for `x`, blinded with `r`, under key `k`. */
  predicate Keyed(C: Primitives, sid: bytes, x: bytes, r: nat, m: P.Msg2, k: nat) {
    m.bigB == Mul(C.group, k, Mul(C.group, r, C.h1(sid, x)))
  }

  /** It is for some key, and under each such key its list holds the hash of the point of `x` exactly when `b`. */
  ghost predicate Says(C: Primitives, sid: bytes, x: bytes, r: nat, m: P.Msg2, b: bool) {
    && (exists k: nat :: k < C.group.order && Keyed(C, sid, x, r, m, k))
    && (forall k: nat :: Keyed(C, sid, x, r, m, k) ==>
          (b <==> C.h2(sid, C.h1(sid, x), Mul(C.group, k, C.h1(sid, x))) in m.hats))
  }

  /** A state made for a question is read back as it was. */
  lemma StateSurvives(C: Primitives, sid: bytes, x: bytes, r: nat)
    requires C.Ideal() && 0 < r < C.group.order && P.CreateMsg1(C, sid, x, r).Ok?
    ensures var st := P.CreateMsg1(C, sid, x, r).value.0;
            P.DecodeState(C, P.EncodeState(st)) == Some(st) && st.bigA == Mul(C.group, r, C.h1(sid, x))
  {
    var st := P.CreateMsg1(C, sid, x, r).value.0;
    MulValid(C.group, r, C.h1(sid, x));
    P.StateExact(C, st, P.EncodeState(st));
  }

  lemma DecisionSays(C: Primitives, sid: bytes, x: bytes, r: nat, msg2: bytes, b: bool)
    requires C.Ideal() && 0 < r < C.group.order && F.CreatePscMsg1(C, sid, x, r).Ok?
    requires F.ProcessPscMsg2(C, F.CreatePscMsg1(C, sid, x, r).value.0, msg2) == Ok(b)
    ensures P.DecodeMsg2(C, msg2).Some? && Says(C, sid, x, r, P.DecodeMsg2(C, msg2).value, b)
  {
    var m, st := P.DecodeMsg2(C, msg2).value, P.CreateMsg1(C, sid, x, r).value.0;
    StateSurvives(C, sid, x, r);
    P.Msg2Exact(C, m, msg2);
    P.PscExactness(C, sid, x, r, m);
    var k: nat :| k < C.group.order && Mul(C.group, k, st.bigA) == m.bigB;
    assert Keyed(C, sid, x, r, m, k);
  }

  /** What a receiver's two replies say about the customer. */
  ghost predicate RepliesSay(C: Primitives, job: Job, customer: string, b: bool) {
    var sid1, msg2 := PayloadOf(C, job, 0, "msg0"), PayloadOf(C, job, 1, "msg2");
    && sid1.Some? && msg2.Some? && P.DecodeMsg2(C, msg2.value).Some?
    && var sid := F.ComputeSessionId(C, job.startDraws.token0, sid1.value);
       sid.Ok? && Says(C, sid.value, F.GenerateHash(C, customer), job.draws(0).scalar0,
                       P.DecodeMsg2(C, msg2.value).value, b)
  }

  /**
   * Against any receiver: a result says whether the list in the second message holds the hash of the
   * customer's point under the key with which that message answers the question. The scalar is as the
   * library draws it.
   */
  lemma ResultMeans(S: Setup, C: Primitives, ops: Table, peer: Option<Peer>, job: Job, b: bool)
    requires C.Ideal() && S.behaviour == Psi(C) && Polite(job.crowd, job.newId)
    requires 0 < job.draws(0).scalar0 < C.group.order
    requires RunIntent(S, ops, peer, job).end == Finished(job.newId, Obj([Field("is_match", Bool(b))]))
    ensures CustomerOf(C, job.inputs).Some? && RepliesSay(C, job, CustomerOf(C, job.inputs).value, b)
  {
    FinishedExactly(S, C, ops, peer, job);
    var customer, r := CustomerOf(C, job.inputs).value, job.draws(0).scalar0;
    var sid := F.ComputeSessionId(C, job.startDraws.token0, PayloadOf(C, job, 0, "msg0").value).value;
    var answer := RunIntent(S, ops, peer, job).end.value;
    assert answer.fields[0].value == Bool(b) == Bool(Concluded(S, C, peer, job).value);
    DecisionSays(C, sid, F.GenerateHash(C, customer), r, PayloadOf(C, job, 1, "msg2").value, b);
  }
}
