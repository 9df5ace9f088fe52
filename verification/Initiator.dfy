/** The initiator of _core.py: `run_intent` as a function of what the world answers. */
module Initiator {
  import opened Wrappers
  import opened Bytes
  import opened Json
  import opened Canonical
  import opened Directives
  import opened Operations
  import opened Receiver

  const MAX_ROUNDS: nat := 64

  /** In microseconds, as every instant. */
  const HOUR: int := 3_600_000_000

  /** What building an intent draws: its id, its nonce and the clock. */
  datatype Draft = Draft(id: string, nonce: string, now: int)

  /** What sending an envelope comes to: a reply or none, or an exception. */
  datatype Delivery = Returned(reply: Option<Envelope>) | Lost

  datatype RunError =
    | PeerUnresolved | Incompatible | StartRaised | IntentRefused | SendRaised | NoOutgoing | NoReply
    | PeerRefused(code: ErrorCode) | ProcessRaised | RoundLimit

  /** How a run ends: with the operation's result for a session, or by raising. */
  datatype RunEnd = Finished(session: string, value: Value) | Failed(error: RunError)

  datatype Stamp = Stamp(resultId: string, timestamp: string)

  ghost predicate SameSession(id: string, t: Table, u: Table) {
    (id in t <==> id in u) && (id in t ==> u[id] == t[id])
  }

  /** What other handlers make of the operation's table while the reply of a round is awaited. */
  type Crowd = (nat, Table) -> Table

  /** There are none, or they leave session `id` alone. */
  ghost predicate Alone(crowd: Crowd) {
    forall round, t :: crowd(round, t) == t
  }

  ghost predicate Polite(crowd: Crowd, id: string) {
    forall round, t :: SameSession(id, t, crowd(round, t))
  }

  /** What one run is given; the functions answer for each round. */
  datatype Job = Job(
    peerUrl: string, inputs: Value, hours: int, newId: string, startDraws: Draws, stamp: Stamp,
    drafts: nat -> Draft, network: nat -> Delivery, draws: nat -> Draws, crowd: Crowd)

  datatype RunOut = RunOut(end: RunEnd, ops: Table, sent: seq<Envelope>)

  // --- what is built and signed -----------------------------------------------------------

  /** `_build_signed_intent`. */
  function BuildIntent(S: Setup, sid: string, peerUrl: string, payload: Value, hours: int, d: Draft): Intent {
    var participants := [S.selfUrl, S.normalize(peerUrl)];
    var expiry := S.services.formatTime(d.now + hours * HOUR);
    Signed(S.services, Intent(sid, d.id, S.opType, participants, d.nonce, HashPayload(S, payload), expiry, None),
           S.privateKey)
  }

  function PhaseOf(out: Outgoing, round: nat): string {
    if out.phase.Some? then out.phase.value else "round" + Digits(round)
  }

  /** The envelope of one round, with an intent of its own. */
  function BuildEnvelope(S: Setup, sid: string, job: Job, out: Outgoing, round: nat): Envelope {
    var intent := BuildIntent(S, sid, job.peerUrl, out.message, job.hours, job.drafts(round));
    Envelope(WIRE_VERSION, S.behaviour.id, PhaseOf(out, round), sid, out.message, None, Parsed(intent))
  }

  function HashText(S: Setup, text: string): string {
    Hex(S.sha256(Utf8(text)))
  }

  /** `operation_result or {}`. */
  function OrEmpty(v: Option<Value>): Value {
    if v.Some? && Truthy(v.value) then v.value else Obj([])
  }

  /** `build_signed_result`. */
  function BuildResult(S: Setup, sid: string, v: Value, stamp: Stamp): ResultDirective {
    var hash := Hex(S.sha256(CanonicalBytes(v)));
    var d := ResultDirective(
               sid, stamp.resultId, S.b64e(CanonicalBytes(v)), hash,
               [ ("operation", S.behaviour.id), ("timestamp", stamp.timestamp), ("description", Text(Canon(v))),
                 ("proofs_note", "EXPERIMENTAL: proofs are placeholders (not cryptographic)") ],
               HashText(S, "correctness_" + sid + "_" + hash), HashText(S, "privacy_" + sid),
               HashText(S, "verification_" + sid + "_" + hash), "experimental_placeholders", None);
    d.(signature := Some(S.services.sign(S.privateKey, ResultBytes(d))))
  }

  /** What `run_intent` returns or raises. */
  function Publish(S: Setup, stamp: Stamp, end: RunEnd): Result<ResultDirective, RunError> {
    match end
    case Finished(sid, v) => Ok(BuildResult(S, sid, v, stamp))
    case Failed(e) => Err(e)
  }

  // --- the run ----------------------------------------------------------------------------------

  /** `outgoing.get("protocol_session") or internal_sid`. */
  function WireId(out: Outgoing, internal: string): string {
    if out.protocolSession.Some? && out.protocolSession.value != "" then out.protocolSession.value else internal
  }

  /** A run that goes on as `rest` after `sent` was sent. */
  function After(sent: seq<Envelope>, rest: RunOut): RunOut {
    rest.(sent := sent + rest.sent)
  }

  lemma AfterTwice(a: seq<Envelope>, b: seq<Envelope>, rest: RunOut)
    ensures After(a, After(b, rest)) == After(a + b, rest)
  {
    assert a + (b + rest.sent) == (a + b) + rest.sent;
  }

  function Fail(ops: Table, error: RunError): RunOut {
    RunOut(Failed(error), ops, [])
  }

  /** The loop of `run_intent` from `round` on, with `out` to be sent. */
  function Rounds(S: Setup, ops: Table, job: Job, wire: string, out: Outgoing, round: nat): RunOut
    decreases MAX_ROUNDS - round
  {
    if round >= MAX_ROUNDS then Fail(ops, RoundLimit)
    else if S.opType != "PSI" then Fail(ops, IntentRefused)
    else After([BuildEnvelope(S, wire, job, out, round)],
               OnDelivery(S, job.crowd(round, ops), job, wire, job.network(round), round))
  }

  /** From the answer of the network on. */
  function OnDelivery(S: Setup, ops: Table, job: Job, wire: string, d: Delivery, round: nat): RunOut
    requires round < MAX_ROUNDS
    decreases MAX_ROUNDS - round, 0
  {
    match d
    case Lost => Fail(ops, SendRaised)
    case Returned(None) => Fail(ops, NoReply)
    case Returned(Some(reply)) =>
      if reply.error.Some? then Fail(ops, PeerRefused(reply.error.value))
      else
        var (r, ops1) := Process(S.behaviour, ops, job.newId, ToMessage(reply), job.draws(round));
        match r
        case Err(_) => Fail(ops1, ProcessRaised)
        case Ok(p) =>
          if p.done then RunOut(Finished(wire, OrEmpty(p.result)), ops1, [])
          else if p.outgoing.None? then Fail(ops1, NoOutgoing)
          else Rounds(S, ops1, job, wire, p.outgoing.value, round + 1)
  }

  /** `run_intent`. The id `start` picks is `job.newId`. */
  function RunIntent(S: Setup, ops: Table, peer: Option<Peer>, job: Job): RunOut {
    if peer.None? then Fail(ops, PeerUnresolved)
    else if !S.compatible(peer.value) then Fail(ops, Incompatible)
    else
      var (r, ops1) := Start(S.behaviour, ops, "initiator", job.inputs, Config([]), "", job.newId, job.startDraws);
      match r
      case Err(_) => Fail(ops1, StartRaised)
      case Ok(p) =>
        if p.done then RunOut(Finished(job.newId, OrEmpty(p.result)), ops1, [])
        else if p.outgoing.None? then Fail(ops1, NoOutgoing)
        else Rounds(S, ops1, job, WireId(p.outgoing.value, job.newId), p.outgoing.value, 0)
  }

  /** The result that is reported: the operation's, or an empty object in place of nothing. */
  predicate Reported(out: RunOut, session: string, result: Option<Value>) {
    && out.end.Finished? && out.end.session == session && out.sent == []
    && (if result.Some? && Truthy(result.value) then out.end.value == result.value else out.end.value == Obj([]))
  }

  /** How a run ends before anything is sent, and under which id it sends otherwise. */
  lemma BeginningCodes(S: Setup, ops: Table, peer: Option<Peer>, job: Job)
    ensures var out := RunIntent(S, ops, peer, job);
            var (r, ops1) := Start(S.behaviour, ops, "initiator", job.inputs, Config([]), "", job.newId,
                                   job.startDraws);
            if peer.None? then out == Fail(ops, PeerUnresolved)
            else if !S.compatible(peer.value) then out == Fail(ops, Incompatible)
            else if r.Err? then out == Fail(ops1, StartRaised)
            else if r.value.done then Reported(out, job.newId, r.value.result)
            else if r.value.outgoing.None? then out == Fail(ops1, NoOutgoing)
            else
              var first := r.value.outgoing.value;
              var id := first.protocolSession;
              out == Rounds(S, ops1, job, if id.Some? && id.value != "" then id.value else job.newId, first, 0)
  {
  }

  /** How a run ends on what the network brings. */
  lemma DeliveryCodes(S: Setup, ops: Table, job: Job, wire: string, d: Delivery, round: nat)
    requires round < MAX_ROUNDS
    ensures var out := OnDelivery(S, ops, job, wire, d, round);
            && (d.Lost? ==> out == Fail(ops, SendRaised))
            && (d == Returned(None) ==> out == Fail(ops, NoReply))
            && (d.Returned? && d.reply.Some? && d.reply.value.error.Some? ==>
                  out == Fail(ops, PeerRefused(d.reply.value.error.value)))
  {
  }

  /** And on a reply without an error, by what the operation makes of it. */
  lemma ReplyCodes(S: Setup, ops: Table, job: Job, wire: string, reply: Envelope, round: nat)
    requires round < MAX_ROUNDS && reply.error.None?
    ensures var out := OnDelivery(S, ops, job, wire, Returned(Some(reply)), round);
            var m := Message(reply.phase, reply.payload);
            var (r, ops1) := Process(S.behaviour, ops, job.newId, m, job.draws(round));
            && (r.Err? ==> out == Fail(ops1, ProcessRaised))
            && (r.Ok? && r.value.done ==> Reported(out, wire, r.value.result))
            && (r.Ok? && !r.value.done && r.value.outgoing.None? ==> out == Fail(ops1, NoOutgoing))
            && (r.Ok? && !r.value.done && r.value.outgoing.Some? ==>
                  out == Rounds(S, ops1, job, wire, r.value.outgoing.value, round + 1))
  {
  }

  /** A round whose reply the operation takes as one of several. */
  lemma RoundGoesOn(S: Setup, ops: Table, job: Job, wire: string, out: Outgoing, round: nat, reply: Envelope,
        next: Outgoing, ops1: Table)
    requires round < MAX_ROUNDS && S.opType == "PSI" && job.network(round) == Returned(Some(reply)) && reply.error.None?
    requires Alone(job.crowd)
    requires Process(S.behaviour, ops, job.newId, ToMessage(reply), job.draws(round))
             == (Ok(Reply(job.newId, false, Some(next), None)), ops1)
    ensures Rounds(S, ops, job, wire, out, round) ==
            After([BuildEnvelope(S, wire, job, out, round)], Rounds(S, ops1, job, wire, next, round + 1))
  {
  }

  /** A round whose reply the operation takes as the last. */
  lemma RoundFinishes(S: Setup, ops: Table, job: Job, wire: string, out: Outgoing, round: nat, reply: Envelope,
        v: Value, ops1: Table)
    requires round < MAX_ROUNDS && S.opType == "PSI" && job.network(round) == Returned(Some(reply)) && reply.error.None?
    requires Process(S.behaviour, ops, job.newId, ToMessage(reply), job.draws(round))
             == (Ok(Reply(job.newId, true, None, Some(v))), ops1)
    requires Truthy(v) && Alone(job.crowd)
    ensures Rounds(S, ops, job, wire, out, round) ==
            RunOut(Finished(wire, v), ops1, [BuildEnvelope(S, wire, job, out, round)])
  {
    assert job.crowd(round, ops) == ops;
    DeliveryEnds(S, ops, job, wire, reply, round, Ok(Reply(job.newId, true, None, Some(v))), ops1);
  }

  /** A reply that the operation fails on or takes as the last. */
  lemma DeliveryEnds(S: Setup, ops: Table, job: Job, wire: string, reply: Envelope, round: nat,
        r: Result<Reply, Failure>, ops1: Table)
    requires round < MAX_ROUNDS && reply.error.None?
    requires Process(S.behaviour, ops, job.newId, ToMessage(reply), job.draws(round)) == (r, ops1)
    ensures var out := OnDelivery(S, ops, job, wire, Returned(Some(reply)), round);
            && (r.Err? ==> out == Fail(ops1, ProcessRaised))
            && (r.Ok? && r.value.done ==> out == RunOut(Finished(wire, OrEmpty(r.value.result)), ops1, []))
  {
  }

  // --- what a run leaves behind --------------------------------------------------------------------

  /** The failures after which the operation session is not ended. */
  predicate Abandons(e: RunError) {
    e.NoOutgoing? || e.IntentRefused? || e.SendRaised? || e.NoReply? || e.PeerRefused? || e.RoundLimit?
  }

  /**
   * A run that began with a free id leaves its session behind exactly when it fails for a reason other
   * than the operation's own; with nobody else at work, the rest of the table is as it was.
   */
  lemma CleanUp(S: Setup, ops: Table, peer: Option<Peer>, job: Job)
    requires job.newId !in ops && Polite(job.crowd, job.newId)
    ensures var out := RunIntent(S, ops, peer, job);
            && (job.newId in out.ops <==> out.end.Failed? && Abandons(out.end.error))
            && (Alone(job.crowd) ==> Without(out.ops, job.newId) == ops)
  {
    if peer.Some? && S.compatible(peer.value) {
      var (r, ops1) := Start(S.behaviour, ops, "initiator", job.inputs, Config([]), "", job.newId, job.startDraws);
      assert Without(ops, job.newId) == ops;
      if r.Ok? && !r.value.done && r.value.outgoing.Some? {
        assert Without(ops1, job.newId) == ops;
        RoundsCleanUp(S, ops1, job, WireId(r.value.outgoing.value, job.newId), r.value.outgoing.value, 0);
      }
    }
  }

  /** What is left of the table `ops`, in which the run's session was open. */
  ghost predicate Left(ops: Table, job: Job, r: RunOut) {
    && (job.newId in r.ops <==> r.end.Failed? && Abandons(r.end.error))
    && (Alone(job.crowd) ==> Without(r.ops, job.newId) == Without(ops, job.newId))
  }

  lemma {:induction false} RoundsCleanUp(S: Setup, ops: Table, job: Job, wire: string, out: Outgoing, round: nat)
    requires job.newId in ops && Polite(job.crowd, job.newId)
    ensures Left(ops, job, Rounds(S, ops, job, wire, out, round))
    decreases MAX_ROUNDS - round, 1
  {
    if round < MAX_ROUNDS {
      assert SameSession(job.newId, ops, job.crowd(round, ops));
      DeliveryCleanUp(S, job.crowd(round, ops), job, wire, job.network(round), round);
    }
  }

  lemma {:induction false} DeliveryCleanUp(S: Setup, ops: Table, job: Job, wire: string, d: Delivery, round: nat)
    requires round < MAX_ROUNDS && job.newId in ops && Polite(job.crowd, job.newId)
    ensures Left(ops, job, OnDelivery(S, ops, job, wire, d, round))
    decreases MAX_ROUNDS - round, 0
  {
    if d.Returned? && d.reply.Some? && d.reply.value.error.None? {
      var m := ToMessage(d.reply.value);
      var (r, ops1) := Process(S.behaviour, ops, job.newId, m, job.draws(round));
      ProcessWithout(S.behaviour, ops, job.newId, m, job.draws(round));
      if r.Ok? && !r.value.done && r.value.outgoing.Some? {
        RoundsCleanUp(S, ops1, job, wire, r.value.outgoing.value, round + 1);
      }
    }
  }

  // --- other handlers meanwhile --------------------------------------------------------------------

  /** Two runs that end and send the same, and leave the same of their session. */
  ghost predicate SameRun(id: string, a: RunOut, b: RunOut) {
    a.end == b.end && a.sent == b.sent && SameSession(id, a.ops, b.ops)
  }

  lemma {:induction false} RoundsAreLocal(S: Setup, t: Table, u: Table, job: Job, wire: string, out: Outgoing,
                                          round: nat, crowd: Crowd)
    requires Alone(job.crowd) && Polite(crowd, job.newId) && SameSession(job.newId, t, u)
    ensures SameRun(job.newId, Rounds(S, t, job, wire, out, round),
                    Rounds(S, u, job.(crowd := crowd), wire, out, round))
    decreases MAX_ROUNDS - round, 1
  {
    if round < MAX_ROUNDS {
      assert SameSession(job.newId, u, crowd(round, u)) && job.crowd(round, t) == t;
      DeliveryIsLocal(S, t, crowd(round, u), job, wire, job.network(round), round, crowd);
    }
  }

  lemma {:induction false} DeliveryIsLocal(S: Setup, t: Table, u: Table, job: Job, wire: string, d: Delivery,
                                           round: nat, crowd: Crowd)
    requires round < MAX_ROUNDS && Alone(job.crowd) && Polite(crowd, job.newId) && SameSession(job.newId, t, u)
    ensures SameRun(job.newId, OnDelivery(S, t, job, wire, d, round),
                    OnDelivery(S, u, job.(crowd := crowd), wire, d, round))
    decreases MAX_ROUNDS - round, 0
  {
    if d.Returned? && d.reply.Some? && d.reply.value.error.None? {
      var m := ToMessage(d.reply.value);
      var (r, t1) := Process(S.behaviour, t, job.newId, m, job.draws(round));
      var (q, u1) := Process(S.behaviour, u, job.newId, m, job.draws(round));
      assert r == q && SameSession(job.newId, t1, u1);
      if r.Ok? && !r.value.done && r.value.outgoing.Some? {
        RoundsAreLocal(S, t1, u1, job, wire, r.value.outgoing.value, round + 1, crowd);
      }
    }
  }

  /** What other handlers do to other sessions while replies are awaited makes no difference to a run. */
  lemma RunIsLocal(S: Setup, ops: Table, peer: Option<Peer>, job: Job, crowd: Crowd)
    requires Alone(job.crowd) && Polite(crowd, job.newId)
    ensures SameRun(job.newId, RunIntent(S, ops, peer, job), RunIntent(S, ops, peer, job.(crowd := crowd)))
  {
    if peer.Some? && S.compatible(peer.value) {
      var (r, ops1) := Start(S.behaviour, ops, "initiator", job.inputs, Config([]), "", job.newId, job.startDraws);
      if r.Ok? && !r.value.done && r.value.outgoing.Some? {
        var out := r.value.outgoing.value;
        RoundsAreLocal(S, ops1, ops1, job, WireId(out, job.newId), out, 0, crowd);
      }
    }
  }

  // --- what a run sends ------------------------------------------------------------------------------

  /** An envelope built in some round: one session, an intent of its own over its own payload. */
  ghost predicate Built(S: Setup, job: Job, wire: string, env: Envelope, round: nat) {
    exists out :: env == BuildEnvelope(S, wire, job, out, round) && env.intent.Parsed?
                  && IsFor(S, env, env.intent.intent, wire, job, out, round)
  }

  /** What is sent from `round` on: at most one envelope a round, up to the limit, all under one session id. */
  ghost predicate WellSent(S: Setup, job: Job, wire: string, sent: seq<Envelope>, round: nat) {
    && |sent| <= 64 - round
    && forall i :: 0 <= i < |sent| ==> Built(S, job, wire, sent[i], round + i)
  }

  lemma SentBefore(S: Setup, job: Job, wire: string, env: Envelope, sent: seq<Envelope>, round: nat)
    requires Built(S, job, wire, env, round) && WellSent(S, job, wire, sent, round + 1)
    ensures WellSent(S, job, wire, [env] + sent, round)
  {
    var all := [env] + sent;
    forall i | 0 <= i < |all|
      ensures Built(S, job, wire, all[i], round + i)
    {
      if i > 0 {
        assert all[i] == sent[i - 1] && Built(S, job, wire, sent[i - 1], round + 1 + (i - 1));
      }
    }
  }

  /** At most 64 envelopes are sent, one a round, all under one session id. */
  lemma {:induction false} RoundsSend(S: Setup, ops: Table, job: Job, wire: string, out: Outgoing, round: nat)
    requires round <= MAX_ROUNDS
    ensures WellSent(S, job, wire, Rounds(S, ops, job, wire, out, round).sent, round)
    decreases MAX_ROUNDS - round, 1
  {
    if round < MAX_ROUNDS && S.opType == "PSI" {
      var ops1 := job.crowd(round, ops);
      DeliverySends(S, ops1, job, wire, job.network(round), round);
      var rest := OnDelivery(S, ops1, job, wire, job.network(round), round).sent;
      SentBefore(S, job, wire, BuildEnvelope(S, wire, job, out, round), rest, round);
    }
  }

  /** A run that reports the limit from `round` on has sent an envelope in each round that was left. */
  predicate LimitIsReached(r: RunOut, left: int) {
    r.end == Failed(RoundLimit) ==> |r.sent| == left
  }

  lemma {:induction false} LimitReached(S: Setup, ops: Table, job: Job, wire: string, out: Outgoing, round: nat)
    requires round <= MAX_ROUNDS
    ensures LimitIsReached(Rounds(S, ops, job, wire, out, round), 64 - round)
    decreases MAX_ROUNDS - round, 1
  {
    if round < MAX_ROUNDS && S.opType == "PSI" {
      LimitAfter(S, job.crowd(round, ops), job, wire, job.network(round), round);
    }
  }

  lemma {:induction false} LimitAfter(S: Setup, ops: Table, job: Job, wire: string, d: Delivery, round: nat)
    requires round < MAX_ROUNDS
    ensures LimitIsReached(OnDelivery(S, ops, job, wire, d, round), 63 - round)
    decreases MAX_ROUNDS - round, 0
  {
    var out := OnDelivery(S, ops, job, wire, d, round);
    if out.end == Failed(RoundLimit) {
      assert LimitIsReached(out, 63 - round) by {
        var ops1, next := LimitNext(S, ops, job, wire, d, round);
        LimitReached(S, ops1, job, wire, next, round + 1);
      }
    }
  }

  lemma LimitNext(S: Setup, ops: Table, job: Job, wire: string, d: Delivery, round: nat)
    returns (ops1: Table, next: Outgoing)
    requires round < MAX_ROUNDS && OnDelivery(S, ops, job, wire, d, round).end == Failed(RoundLimit)
    ensures OnDelivery(S, ops, job, wire, d, round) == Rounds(S, ops1, job, wire, next, round + 1)
  {
    var (r, t) := Process(S.behaviour, ops, job.newId, ToMessage(d.reply.value), job.draws(round));
    ops1, next := t, r.value.outgoing.value;
  }

  /** What is sent after a delivery is what the next round sends, if there is one. */
  lemma SentNext(S: Setup, ops: Table, job: Job, wire: string, d: Delivery, round: nat)
    returns (ops1: Table, next: Outgoing)
    requires round < MAX_ROUNDS && OnDelivery(S, ops, job, wire, d, round).sent != []
    ensures OnDelivery(S, ops, job, wire, d, round).sent == Rounds(S, ops1, job, wire, next, round + 1).sent
  {
    var (r, t) := Process(S.behaviour, ops, job.newId, ToMessage(d.reply.value), job.draws(round));
    ops1, next := t, r.value.outgoing.value;
  }

  lemma {:induction false} DeliverySends(S: Setup, ops: Table, job: Job, wire: string, d: Delivery, round: nat)
    requires round < MAX_ROUNDS
    ensures WellSent(S, job, wire, OnDelivery(S, ops, job, wire, d, round).sent, round + 1)
    decreases MAX_ROUNDS - round, 0
  {
    var sent := OnDelivery(S, ops, job, wire, d, round).sent;
    if sent != [] {
      assert WellSent(S, job, wire, sent, round + 1) by {
        var ops1, next := SentNext(S, ops, job, wire, d, round);
        RoundsSend(S, ops1, job, wire, next, round + 1);
      }
    }
  }

  /** The envelope carries the message in the run's session, and the intent is about that and for the peer. */
  predicate IsFor(S: Setup, env: Envelope, d: Intent, wire: string, job: Job, out: Outgoing, round: nat) {
    && env.version == "1.0" && env.operation == S.behaviour.id && env.session == wire && env.payload == out.message
    && env.error == None
    && (if out.phase.Some? then env.phase == out.phase.value else env.phase == "round" + Digits(round))
    && d.session == wire && d.id == job.drafts(round).id && d.nonce == job.drafts(round).nonce && d.opType == "PSI"
    && d.participants == [S.selfUrl, S.normalize(job.peerUrl)]
    && d.payloadHash == Hex(S.sha256(PayloadBytes(out.message)))
  }

  /**
   * What is sent is what a receiver asks for: a built envelope passes every check on its intent until
   * the moment it expires, and no longer.
   */
  lemma BuiltIntentHolds(S: Setup, B: Setup, wire: string, job: Job, out: Outgoing, round: nat, now: int)
    requires S.services.Ideal() && B.services == S.services && B.sha256 == S.sha256
    requires S.opType == "PSI" && B.opType == "PSI" && !Blank(job.drafts(round).nonce)
    ensures var env := BuildEnvelope(S, wire, job, out, round);
            var expiry := job.drafts(round).now + job.hours * 3_600_000_000;
            && Verified(B.services, env.intent.intent, S.services.publicKey(S.privateKey))
            && (IntentProblem(B, env, env.intent.intent, now) == None <==> now <= expiry)
            && ExpiryOf(B, env.intent.intent) == expiry
            && B.services.parseTime(env.intent.intent.expiry) == Some(expiry)
            && IsFor(S, env, env.intent.intent, wire, job, out, round)
  {
    var env := BuildEnvelope(S, wire, job, out, round);
    var d := env.intent.intent;
    assert IntentBytes(d) == IntentBytes(d.(signature := None));
  }

  /** What a result says: the session, its own id, and the canonical text of the value with its digest. */
  predicate Reports(S: Setup, d: ResultDirective, sid: string, v: Value, stamp: Stamp) {
    && d.session == sid && d.id == stamp.resultId
    && d.encoded == S.b64e(CanonicalBytes(v)) && d.hash == Hex(S.sha256(CanonicalBytes(v)))
    && ("operation", S.behaviour.id) in d.metadata && ("timestamp", stamp.timestamp) in d.metadata
    && ("description", Text(Canon(v))) in d.metadata && |d.metadata| == 4
  }

  /** The placeholders a result carries in place of proofs: three digests of the session id and the hash. */
  predicate Placeholders(S: Setup, d: ResultDirective) {
    && d.correctness == Hex(S.sha256(Utf8("correctness_" + d.session + "_" + d.hash)))
    && d.privacy == Hex(S.sha256(Utf8("privacy_" + d.session)))
    && d.verification == Hex(S.sha256(Utf8("verification_" + d.session + "_" + d.hash)))
    && d.attestation == "experimental_placeholders"
    && ("proofs_note", "EXPERIMENTAL: proofs are placeholders (not cryptographic)") in d.metadata
  }

  /** The directive of a finished run verifies under the initiator's key, and reports the result. */
  lemma ResultHolds(S: Setup, sid: string, v: Value, stamp: Stamp)
    requires S.services.Ideal()
    ensures var d := BuildResult(S, sid, v, stamp);
            && d.signature.Some?
            && S.services.verify(S.services.publicKey(S.privateKey), ResultBytes(d), d.signature.value)
            && Reports(S, d, sid, v, stamp) && Placeholders(S, d) && MetadataOk(d)
  {
    var d := BuildResult(S, sid, v, stamp);
    assert ResultBytes(d) == ResultBytes(d.(signature := None));
    FourKeys(d.metadata, S.behaviour.id, stamp.timestamp, Text(Canon(v)));
  }

  lemma FourKeys(ms: seq<(string, string)>, id: string, time: string, text: string)
    requires |ms| == 4 && ms[0] == ("operation", id) && ms[1] == ("timestamp", time) && ms[2] == ("description", text)
    requires ms[3] == ("proofs_note", "EXPERIMENTAL: proofs are placeholders (not cryptographic)")
    ensures DistinctKeys(Directives.Dict(ms).fields)
    ensures ms[0] in ms && ms[1] in ms && ms[2] in ms && ms[3] in ms
  {
  }
}
