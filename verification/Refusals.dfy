/** Which defect of an envelope is answered with which refusal, and what it takes to reach the operation. */
module Refusals {
  import opened Wrappers
  import opened Bytes
  import opened Json
  import opened Directives
  import opened Operations
  import opened Receiver
  import opened ReceiverRuns
  import opened ReceiverSafety

  function CodeOf(o: Outcome): Option<ErrorCode> {
    if o.Answered? && o.reply.Some? then o.reply.value.error else None
  }

  // --- the checks of an intent -------------------------------------------------------------------

  /** The signature is there and verifies under `key`. */
  predicate SignedBy(V: Services, d: Intent, key: bytes) {
    d.signature.Some? && d.signature.value != "" && V.verify(key, IntentBytes(d), d.signature.value)
  }

  /** The intent is for this session and payload, and usable at `now`. */
  ghost predicate Fits(S: Setup, env: Envelope, d: Intent, now: int) {
    && d.session == env.session && d.opType == S.opType == "PSI" && Current(S, d, now)
    && d.payloadHash == Hex(S.sha256(PayloadBytes(env.payload)))
  }

  /** An intent of this signer with this id, nonce and hash is remembered and has not expired by `now`. */
  predicate Remembered(st: State, signer: bytes, env: Envelope, d: Intent, now: int) {
    var key := Join([Hex(signer), env.session, d.id, d.nonce, d.payloadHash]);
    key in st.replay && st.replay[key] > now
  }

  /** Each check has its code, in this order. */
  lemma CheckCodes(S: Setup, st: State, env: Envelope, d: Intent, signer: bytes, clock: Clock)
    ensures var code := CheckIntent(S, st, env, d, signer, clock).1;
            var here, mine := d.session == env.session, d.opType == S.opType;
            var usable := Current(S, d, clock.valid) && d.opType == "PSI" && |d.payloadHash| == 64;
            var bound := d.payloadHash == Hex(S.sha256(PayloadBytes(env.payload)));
            var seen := Remembered(st, signer, env, d, clock.replay);
            && (code == Some(IntentSessionMismatch) <==> !here)
            && (code == Some(IntentOperationMismatch) <==> here && !mine)
            && (code == Some(IntentRejected) <==> here && mine && !usable)
            && (code == Some(IntentPayloadMismatch) <==> here && mine && usable && !bound)
            && (code == Some(ReplayDetected) <==> here && mine && usable && bound && seen)
            && (code == None <==> here && mine && usable && bound && !seen)
  {
    CurrentIsValid(S, d, clock.valid);
  }

  lemma CurrentIsValid(S: Setup, d: Intent, now: int)
    ensures Valid(S.services, d, now) <==> Current(S, d, now) && d.opType == "PSI" && |d.payloadHash| == 64
  {
  }

  /** A blank nonce, a hash of another length or a past expiry never leads to a call. */
  lemma UnusableIsRefused(S: Setup, st: State, env: Envelope, d: Intent, signer: bytes, clock: Clock)
    requires (forall i :: 0 <= i < |d.nonce| ==> IsSpace(d.nonce[i])) || |d.payloadHash| != 64
             || forall t :: S.services.parseTime(d.expiry) == Some(t) ==> clock.valid > t
    ensures CheckIntent(S, st, env, d, signer, clock).1.Some?
  {
    CheckCodes(S, st, env, d, signer, clock);
  }

  lemma FitsExactly(S: Setup, st: State, env: Envelope, d: Intent, signer: bytes, clock: Clock)
    ensures CheckIntent(S, st, env, d, signer, clock).1 == None <==>
            Fits(S, env, d, clock.valid) && !Remembered(st, signer, env, d, clock.replay)
  {
    CheckCodes(S, st, env, d, signer, clock);
  }

  // --- what a call comes to ---------------------------------------------------------------------------

  /** The envelope that carries what an operation sends back. */
  function Carrying(S: Setup, env: Envelope, r: Reply): Option<Envelope> {
    match r.outgoing
    case None => None
    case Some(out) =>
      Some(Envelope("1.0", S.behaviour.id, if out.phase.Some? then out.phase.value else "reply", env.session,
                    out.message, None, NoIntent))
  }

  /** The refusal of an envelope: of its operation and session, in phase "error", with the code and nothing else. */
  predicate RefusedWith(o: Outcome, env: Envelope, code: ErrorCode) {
    o == Answered(Some(Envelope("1.0", env.operation, "error", env.session, Obj([]), Some(code), NoIntent)))
  }

  /** A round fails with `KeyError` when there is no session or the operation raises one; else its own way. */
  lemma RoundFailures(b: Behaviour, t: Table, sid: string, m: Message, draws: Draws)
    ensures sid !in t ==> Process(b, t, sid, m, draws) == (Err(KeyError), t)
    ensures sid in t ==> var r := b.onProcess(t[sid].role, t[sid].state, m, t[sid].config, false, draws);
                         && (Process(b, t, sid, m, draws).0.Err? <==> r.Err?)
                         && (r.Err? ==> Process(b, t, sid, m, draws).0.error == r.error)
  {
  }

  /** A `process` call: a missing session and a failure have codes of their own, and the rest is replied. */
  lemma ProcessCodes(S: Setup, st: State, env: Envelope, d: Intent, input: Input)
    requires env.session in st.rx
    ensures var out := ContinueCall(S, st, env, d, input).outcome;
            var r := Process(S.behaviour, st.ops, st.rx[env.session].internal, Message(env.phase, env.payload),
                             input.draws).0;
            match r
            case Err(KeyError) => RefusedWith(out, env, SessionExpired)
            case Err(OtherError) => RefusedWith(out, env, OperationError)
            case Ok(reply) => out == Answered(Carrying(S, env, reply))
  {
  }

  lemma ReceiveCodes(S: Setup, st: State, p: Pending, peer: Peer, input: Input)
    requires input.config.Some?
    ensures var out := OpenCall(S, st, p, peer, input).outcome;
            var r := Receive(S.behaviour, st.ops, "receiver", Message(p.env.phase, p.env.payload), input.config.value,
                             p.env.session, input.newId, input.draws).0;
            match r
            case Err(_) => RefusedWith(out, p.env, OperationError)
            case Ok(reply) => out == Answered(Carrying(S, p.env, reply))
  {
  }

  /** A `receive` that succeeds undone opens the session: its id, the signer's key, the URL and the phase. */
  lemma OpensExactly(S: Setup, st: State, p: Pending, peer: Peer, input: Input)
    requires input.config.Some?
    ensures var rx := OpenCall(S, st, p, peer, input).state.rx;
            var r := Receive(S.behaviour, st.ops, "receiver", Message(p.env.phase, p.env.payload), input.config.value,
                             p.env.session, input.newId, input.draws).0;
            if r.Ok? && !r.value.done then
              && p.env.session in rx && OnlyAt(st.rx, rx, p.env.session)
              && rx[p.env.session] == RxSession(r.value.session, peer.publicKey, p.url, p.env.phase)
            else rx == st.rx
  {
  }

  // --- an envelope on an open session -------------------------------------------------------------------

  /** Intent, signature, the checks, and then the phase. */
  lemma ContinueCodes(S: Setup, st: State, env: Envelope, input: Input)
    requires env.session in st.rx
    ensures var out, rx := Continue(S, st, env, input), st.rx[env.session];
            && (env.intent.NoIntent? ==> RefusedWith(out.outcome, env, MissingIntent))
            && (env.intent.Malformed? ==> RefusedWith(out.outcome, env, InvalidIntent))
            && (env.intent.Parsed? && !SignedBy(S.services, env.intent.intent, rx.signer) ==>
                  RefusedWith(out.outcome, env, BadSignature))
            && (out.call.Some? ==> env.intent.Parsed? && SignedBy(S.services, env.intent.intent, rx.signer))
  {
    if env.intent.Parsed? {
      assert Verified(S.services, env.intent.intent, st.rx[env.session].signer)
             <==> SignedBy(S.services, env.intent.intent, st.rx[env.session].signer);
    }
  }

  lemma VerifiedCodes(S: Setup, st: State, env: Envelope, d: Intent, input: Input)
    requires env.session in st.rx
    ensures var rx := st.rx[env.session];
            var out, (st1, code, _) := ContinueVerified(S, st, env, d, input),
                                       CheckIntent(S, st, env, d, rx.signer, input.clock);
            && (code.Some? ==> RefusedWith(out.outcome, env, code.value) && out.call == None)
            && (code.None? && env.phase == rx.openingPhase ==>
                  RefusedWith(out.outcome, env, UnexpectedPhase) && out.call == None)
            && (code.None? && env.phase != rx.openingPhase ==>
                  out.call.Some? && out.outcome == ContinueCall(S, st1, env, d, input).outcome)
  {
  }

  /** What it takes on an open session to reach `process`. */
  ghost predicate Passes(S: Setup, st: State, env: Envelope, clock: Clock)
    requires env.session in st.rx
  {
    var rx := st.rx[env.session];
    && env.intent.Parsed? && SignedBy(S.services, env.intent.intent, rx.signer)
    && Fits(S, env, env.intent.intent, clock.valid)
    && !Remembered(st, rx.signer, env, env.intent.intent, clock.replay)
    && env.phase != rx.openingPhase
  }

  lemma ContinuesExactly(S: Setup, st: State, env: Envelope, input: Input)
    requires env.session in st.rx
    ensures Continue(S, st, env, input).call.Some? <==> Passes(S, st, env, input.clock)
  {
    ContinueCodes(S, st, env, input);
    if env.intent.Parsed? && SignedBy(S.services, env.intent.intent, st.rx[env.session].signer) {
      VerifiedCodes(S, st, env, env.intent.intent, input);
      FitsExactly(S, st, env, env.intent.intent, st.rx[env.session].signer, input.clock);
    }
  }

  // --- an arriving envelope --------------------------------------------------------------------------------

  /** A reply is stored for its operation, session, phase and payload, and kept beyond `now`. */
  predicate Stored(S: Setup, st: State, env: Envelope, now: int) {
    var key := Join([env.operation, env.session, env.phase, Hex(S.sha256(PayloadBytes(env.payload)))]);
    key in st.rounds && st.rounds[key].expires > now
  }

  /** An envelope of another operation or version is turned away before anything is looked up. */
  lemma NotUnderstood(S: Setup, st: State, env: Envelope, input: Input)
    ensures var out := Deliver(S, st, env, input);
            && (env.operation != S.behaviour.id ==> out == StepOut(st, Answered(None), None, None))
            && (env.operation == S.behaviour.id && env.version != "1.0" ==>
                  RefusedWith(out.outcome, env, UnsupportedWireVersion) && out.state == st && out.call == None)
  {
  }

  /** A delivery reaches `process` exactly when it is new, its session is open, and it passes. */
  lemma ProcessedExactly(S: Setup, st: State, env: Envelope, input: Input)
    ensures Deliver(S, st, env, input).call.Some? <==>
            && env.operation == S.behaviour.id && env.version == "1.0" && !Stored(S, st, env, input.clock.dedupe)
            && env.session in st.rx && Passes(S, st, env, input.clock)
  {
    var st1 := st.(rounds := SweepRounds(st.rounds, input.clock.dedupe));
    if env.session in st.rx {
      ContinuesExactly(S, st1, env, input);
    }
  }

  /** It waits for its peer exactly when it is new, its session is not open, and it is addressed here. */
  lemma WaitsExactly(S: Setup, st: State, env: Envelope, input: Input)
    ensures var out := Deliver(S, st, env, input).outcome;
            out.Awaiting? <==>
            && env.operation == S.behaviour.id && env.version == "1.0" && !Stored(S, st, env, input.clock.dedupe)
            && env.session !in st.rx && env.intent.Parsed?
            && var ps := env.intent.intent.participants;
               && |ps| == 2 && ps[0] != "" && ps[1] != "" && S.normalize(ps[1]) == S.selfUrl && S.safeUrl(ps[0])
    ensures var out := Deliver(S, st, env, input).outcome;
            out.Awaiting? && env.intent.Parsed? && |env.intent.intent.participants| == 2 ==>
              out.pending == Pending(env, env.intent.intent, env.intent.intent.participants[0], false)
  {
    var st1 := st.(rounds := SweepRounds(st.rounds, input.clock.dedupe));
    if env.session in st.rx {
      ContinueShape(S, st1, env, input);
    }
  }

  /** The codes of an opening that does not get that far. */
  lemma OpeningCodes(S: Setup, st: State, env: Envelope)
    ensures var out := OpenStart(S, st, env).outcome;
            && (env.intent.NoIntent? ==> RefusedWith(out, env, MissingIntent))
            && (env.intent.Malformed? ==> RefusedWith(out, env, InvalidIntent))
            && (env.intent.Parsed? ==>
                  var ps := env.intent.intent.participants;
                  var pair := |ps| == 2 && ps[0] != "" && ps[1] != "";
                  && (!pair ==> RefusedWith(out, env, InvalidIntent))
                  && (pair && S.normalize(ps[1]) != S.selfUrl ==> RefusedWith(out, env, WrongReceiver))
                  && (pair && S.normalize(ps[1]) == S.selfUrl && !S.safeUrl(ps[0]) ==>
                        RefusedWith(out, env, InvalidInitiatorUrl)))
  {
  }

  // --- a handler that resumes ---------------------------------------------------------------------------------

  /** With its peer resolved: a second resolution, the checks, compatibility, the configuration, the call. */
  lemma ResumeCodes(S: Setup, st: State, p: Pending, peer: Peer, input: Input)
    ensures var out := Resume(S, st, p, Some(peer), input).outcome;
            var (st1, code, _) := CheckIntent(S, st, p.env, p.intent, peer.publicKey, input.clock);
            if !SignedBy(S.services, p.intent, peer.publicKey) then
              if p.forced then RefusedWith(out, p.env, BadSignature)
              else out == Awaiting(Pending(p.env, p.intent, p.url, true))
            else if code.Some? then RefusedWith(out, p.env, code.value)
            else if !S.compatible(peer) then RefusedWith(out, p.env, IncompatiblePeer)
            else if input.config.None? then out == Raised
            else out == OpenCall(S, st1, p, peer, input).outcome
    ensures Resume(S, st, p, None, input) == StepOut(st, Raised, None, None)
  {
  }

  /** It reaches `receive` exactly when the key verifies, the intent fits and is new, and the peer is compatible. */
  lemma ReceivedExactly(S: Setup, st: State, p: Pending, peer: Option<Peer>, input: Input)
    ensures Resume(S, st, p, peer, input).call.Some? <==>
            && peer.Some? && SignedBy(S.services, p.intent, peer.value.publicKey)
            && Fits(S, p.env, p.intent, input.clock.valid)
            && !Remembered(st, peer.value.publicKey, p.env, p.intent, input.clock.replay)
            && S.compatible(peer.value) && input.config.Some?
  {
    if peer.Some? {
      FitsExactly(S, st, p.env, p.intent, peer.value.publicKey, input.clock);
      OpenFinishShape(S, st, p, peer.value, input);
    }
  }
}
