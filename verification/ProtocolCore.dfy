/**
 * The object of _core.py: its caches and its session table, updated in place. Every method is
 * proved to do to them what the functions of the receiver and the initiator say.
 */
module ProtocolCore {
  import opened Wrappers
  import opened Bytes
  import opened Directives
  import opened Operations
  import opened Receiver
  import opened Initiator

  class Core {
    const setup: Setup
    const operation: Operation
    var replayCache: map<string, int>
    var roundCache: map<string, CachedRound>
    var rxSessions: map<string, RxSession>

    /** The core drives the operation it was set up with. */
    ghost predicate Valid() {
      operation.behaviour == setup.behaviour
    }

    ghost function Contents(): State
      reads this, operation
    {
      State(replayCache, roundCache, rxSessions, operation.sessions)
    }

    constructor (setup: Setup)
      ensures Valid() && this.setup == setup && fresh(operation)
      ensures Contents() == State(map[], map[], map[], map[])
    {
      this.setup := setup;
      operation := new Operation(setup.behaviour);
      replayCache, roundCache, rxSessions := map[], map[], map[];
    }

    // --- sweeps -----------------------------------------------------------------------------

    method SweepIntentReplayCache(now: int)
      modifies `replayCache
      ensures replayCache == SweepReplay(old(replayCache), now)
    {
      ghost var before := replayCache;
      var expired := set k | k in replayCache && replayCache[k] <= now;
      while expired != {}
        invariant forall k :: k in expired ==> k in before && before[k] <= now
        invariant forall k :: k in replayCache <==> k in before && (before[k] > now || k in expired)
        invariant forall k :: k in replayCache ==> replayCache[k] == before[k]
        decreases |expired|
      {
        var k :| k in expired;
        expired := expired - {k};
        replayCache := replayCache - {k};
      }
    }

    method SweepRoundDedupeCache(now: int)
      modifies `roundCache
      ensures roundCache == SweepRounds(old(roundCache), now)
    {
      ghost var before := roundCache;
      var expired := set k | k in roundCache && roundCache[k].expires <= now;
      while expired != {}
        invariant forall k :: k in expired ==> k in before && before[k].expires <= now
        invariant forall k :: k in roundCache <==> k in before && (before[k].expires > now || k in expired)
        invariant forall k :: k in roundCache ==> roundCache[k] == before[k]
        decreases |expired|
      {
        var k :| k in expired;
        expired := expired - {k};
        roundCache := roundCache - {k};
      }
    }

    // --- the receiver ---------------------------------------------------------------------------

    method CheckIntentConsistency(env: Envelope, intent: Intent, signer: bytes, clock: Clock)
      returns (refusal: Option<ErrorCode>)
      modifies `replayCache
      ensures (Contents(), refusal) ==
              var (st, problem, _) := CheckIntent(setup, old(Contents()), env, intent, signer, clock); (st, problem)
    {
      refusal := IntentProblem(setup, env, intent, clock.valid);
      if refusal.Some? {
        return;
      }
      SweepIntentReplayCache(clock.replay);
      var key := IntentKey(signer, env, intent);
      if key in replayCache {
        return Some(ReplayDetected);
      }
      replayCache := replayCache[key := ExpiryOf(setup, intent)];
    }

    /** Store the reply of an answered round, and return it. */
    method StoreReply(env: Envelope, r: Reply, now: int) returns (reply: Option<Envelope>)
      modifies `roundCache
      ensures reply == ReplyEnvelope(setup, env, r) && Contents() == Remember(setup, old(Contents()), env, r, now)
    {
      reply := ReplyEnvelope(setup, env, r);
      roundCache := roundCache[RoundKey(setup, env) := CachedRound(now + THIRTY_MINUTES, reply)];
    }

    /** An envelope on an open session. */
    method ContinueSession(env: Envelope, input: Input) returns (outcome: Outcome)
      requires Valid() && env.session in rxSessions
      modifies this, operation
      ensures (Contents(), outcome) ==
              var out := Continue(setup, old(Contents()), env, input); (out.state, out.outcome)
    {
      var rx := rxSessions[env.session];
      if env.intent.NoIntent? {
        return Answered(Some(Refusal(env, MissingIntent)));
      }
      if env.intent.Malformed? {
        return Answered(Some(Refusal(env, InvalidIntent)));
      }
      var intent := env.intent.intent;
      if !Verified(setup.services, intent, rx.signer) {
        return Answered(Some(Refusal(env, BadSignature)));
      }
      var refusal := CheckIntentConsistency(env, intent, rx.signer, input.clock);
      if refusal.Some? {
        return Answered(Some(Refusal(env, refusal.value)));
      }
      if env.phase == rx.openingPhase {
        return Answered(Some(Refusal(env, UnexpectedPhase)));
      }
      outcome := CallProcess(env, intent, input);
    }

    method CallProcess(env: Envelope, intent: Intent, input: Input) returns (outcome: Outcome)
      requires Valid() && env.session in rxSessions
      modifies this, operation
      ensures (Contents(), outcome) ==
              var out := ContinueCall(setup, old(Contents()), env, intent, input); (out.state, out.outcome)
    {
      var rx := rxSessions[env.session];
      var r := operation.ProcessRound(rx.internal, ToMessage(env), input.draws);
      if r.Err? {
        rxSessions := WithoutRx(rxSessions, env.session);
        return Answered(Some(Refusal(env, if r.error.KeyError? then SessionExpired else OperationError)));
      }
      if r.value.done {
        rxSessions := WithoutRx(rxSessions, env.session);
      }
      var reply := StoreReply(env, r.value, input.clock.store);
      outcome := Answered(reply);
    }

    /** The end of opening a session: the peer's key verifies the intent. */
    method OpenSession(p: Pending, peer: Peer, input: Input) returns (outcome: Outcome)
      requires Valid()
      modifies this, operation
      ensures (Contents(), outcome) ==
              var out := OpenFinish(setup, old(Contents()), p, peer, input); (out.state, out.outcome)
    {
      var refusal := CheckIntentConsistency(p.env, p.intent, peer.publicKey, input.clock);
      if refusal.Some? {
        return Answered(Some(Refusal(p.env, refusal.value)));
      }
      if !setup.compatible(peer) {
        return Answered(Some(Refusal(p.env, IncompatiblePeer)));
      }
      if input.config.None? {
        return Raised;
      }
      outcome := CallReceive(p, peer, input);
    }

    method CallReceive(p: Pending, peer: Peer, input: Input) returns (outcome: Outcome)
      requires Valid() && input.config.Some?
      modifies this, operation
      ensures (Contents(), outcome) ==
              var out := OpenCall(setup, old(Contents()), p, peer, input); (out.state, out.outcome)
    {
      var env := p.env;
      var r := operation.ReceiveFirst("receiver", ToMessage(env), input.config.value, env.session, input.newId,
                                    input.draws);
      if r.Err? {
        return Answered(Some(Refusal(env, OperationError)));
      }
      if !r.value.done {
        rxSessions := rxSessions[env.session := RxSession(r.value.session, peer.publicKey, p.url, env.phase)];
      }
      var reply := StoreReply(env, r.value, input.clock.store);
      outcome := Answered(reply);
    }

    /** From `handle_envelope` to the first suspension or the end. */
    method HandleEnvelope(env: Envelope, input: Input) returns (outcome: Outcome)
      requires Valid()
      modifies this, operation
      ensures (Contents(), outcome) ==
              var out := Deliver(setup, old(Contents()), env, input); (out.state, out.outcome)
    {
      if env.operation != setup.behaviour.id {
        return Answered(None);
      }
      if env.version != WIRE_VERSION {
        return Answered(Some(Refusal(env, UnsupportedWireVersion)));
      }
      SweepRoundDedupeCache(input.clock.dedupe);
      var key := RoundKey(setup, env);
      if key in roundCache {
        return Answered(roundCache[key].reply);
      }
      if env.session in rxSessions {
        outcome := ContinueSession(env, input);
      } else {
        outcome := StartOpening(env);
      }
    }

    method StartOpening(env: Envelope) returns (outcome: Outcome)
      ensures (Contents(), outcome) ==
              var out := OpenStart(setup, Contents(), env); (out.state, out.outcome)
    {
      if env.intent.NoIntent? {
        return Answered(Some(Refusal(env, MissingIntent)));
      }
      if env.intent.Malformed? {
        return Answered(Some(Refusal(env, InvalidIntent)));
      }
      var intent := env.intent.intent;
      if |intent.participants| != 2 {
        return Answered(Some(Refusal(env, InvalidIntent)));
      }
      var initiatorUrl, receiverUrl := intent.participants[0], intent.participants[1];
      if initiatorUrl == "" || receiverUrl == "" {
        return Answered(Some(Refusal(env, InvalidIntent)));
      }
      if setup.normalize(receiverUrl) != setup.selfUrl {
        return Answered(Some(Refusal(env, WrongReceiver)));
      }
      if !setup.safeUrl(initiatorUrl) {
        return Answered(Some(Refusal(env, InvalidInitiatorUrl)));
      }
      outcome := Awaiting(Pending(env, intent, initiatorUrl, false));
    }

    /** From a resolution of the peer, or its failure, to the next suspension or the end. */
    method PeerResolved(p: Pending, peer: Option<Peer>, input: Input) returns (outcome: Outcome)
      requires Valid()
      modifies this, operation
      ensures (Contents(), outcome) ==
              var out := Resume(setup, old(Contents()), p, peer, input); (out.state, out.outcome)
    {
      if peer.None? {
        return Raised;
      }
      if Verified(setup.services, p.intent, peer.value.publicKey) {
        outcome := OpenSession(p, peer.value, input);
      } else if !p.forced {
        outcome := Awaiting(p.(forced := true));
      } else {
        outcome := Answered(Some(Refusal(p.env, BadSignature)));
      }
    }

    // --- the initiator ----------------------------------------------------------------------------

    /** `run_intent`: what is returned or raised, and the envelopes sent. */
    method RunIntent(peer: Option<Peer>, job: Job) returns (result: Result<ResultDirective, RunError>,
          sent: seq<Envelope>)
      requires Valid()
      modifies operation
      ensures var out := Initiator.RunIntent(setup, old(operation.sessions), peer, job);
              && result == Publish(setup, job.stamp, out.end) && operation.sessions == out.ops && sent == out.sent
    {
      var end, envelopes := RunRounds(peer, job);
      result, sent := Publish(setup, job.stamp, end), envelopes;
    }

    /** Its rounds, up to the result to be signed. */
    method RunRounds(peer: Option<Peer>, job: Job) returns (end: RunEnd, sent: seq<Envelope>)
      requires Valid()
      modifies operation
      ensures RunOut(end, operation.sessions, sent) == Initiator.RunIntent(setup, old(operation.sessions), peer, job)
    {
      sent := [];
      if peer.None? {
        return Failed(PeerUnresolved), [];
      }
      if !setup.compatible(peer.value) {
        return Failed(Incompatible), [];
      }
      var started := operation.StartSession("initiator", job.inputs, Config([]), "", job.newId, job.startDraws);
      if started.Err? {
        return Failed(StartRaised), [];
      }
      if started.value.done {
        return Finished(job.newId, OrEmpty(started.value.result)), [];
      }
      if started.value.outgoing.None? {
        return Failed(NoOutgoing), [];
      }
      var outgoing := started.value.outgoing.value;
      var wire := WireId(outgoing, job.newId);
      ghost var total := Rounds(setup, operation.sessions, job, wire, outgoing, 0);
      for round := 0 to MAX_ROUNDS
        invariant total == After(sent, Rounds(setup, operation.sessions, job, wire, outgoing, round))
      {
        if setup.opType != "PSI" {
          return Failed(IntentRefused), sent;
        }
        var env := BuildEnvelope(setup, wire, job, outgoing, round);
        var delivery := job.network(round);
        ghost var rest := OnDelivery(setup, job.crowd(round, operation.sessions), job, wire, delivery, round);
        AfterTwice(sent, [env], rest);
        sent := sent + [env];
        // Other handlers of this core run while the reply is awaited.
        operation.sessions := job.crowd(round, operation.sessions);
        if delivery.Lost? {
          return Failed(SendRaised), sent;
        }
        if delivery.reply.None? {
          return Failed(NoReply), sent;
        }
        var reply := delivery.reply.value;
        if reply.error.Some? {
          return Failed(PeerRefused(reply.error.value)), sent;
        }
        var processed := operation.ProcessRound(job.newId, ToMessage(reply), job.draws(round));
        if processed.Err? {
          return Failed(ProcessRaised), sent;
        }
        if processed.value.done {
          return Finished(wire, OrEmpty(processed.value.result)), sent;
        }
        if processed.value.outgoing.None? {
          return Failed(NoOutgoing), sent;
        }
        outgoing := processed.value.outgoing.value;
      }
      end := Failed(RoundLimit);
    }
  }
}
