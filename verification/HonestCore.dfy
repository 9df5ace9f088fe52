/** What an honest initiator sends, an honest receiver admits: between such cores, envelopes only carry messages. */
module HonestCore {
  import opened Wrappers
  import opened Bytes
  import opened Directives
  import opened Operations
  import opened Receiver
  import opened Initiator
  import opened Keys

  /** A whole handler for an envelope: deliver it and, if it waits for its peer, resume it with that peer. */
  function Serve(B: Setup, st: State, env: Envelope, peer: Peer, first: Input, second: Input): (State, Outcome) {
    var o := Deliver(B, st, env, first);
    if o.outcome.Awaiting? then
      var q := Resume(B, o.state, o.outcome.pending, Some(peer), second);
      (q.state, q.outcome)
    else (o.state, o.outcome)
  }

  /** Initiator `A`'s job is addressed to receiver `B`, which resolves `A`'s key and finds it compatible. */
  ghost predicate Partners(A: Setup, B: Setup, job: Job, peer: Peer) {
    && A.services.Ideal() && B.services == A.services && B.sha256 == A.sha256
    && A.opType == "PSI" && B.opType == "PSI" && B.behaviour.id == A.behaviour.id && BarFree(A.behaviour.id)
    && A.selfUrl != "" && A.normalize(job.peerUrl) != ""
    && B.normalize(A.normalize(job.peerUrl)) == B.selfUrl && B.safeUrl(A.selfUrl)
    && peer.publicKey == A.services.publicKey(A.privateKey) && B.compatible(peer)
  }

  /** The intent of a round is usable, and `now` is not past its expiry. */
  predicate InTime(job: Job, round: nat, now: int) {
    !Blank(job.drafts(round).nonce) && now <= job.drafts(round).now + job.hours * HOUR
  }

  /** Nothing at the receiver speaks of session `sid`. */
  ghost predicate NewTo(st: State, sid: string) {
    && sid !in st.rx && sid !in st.ops
    && (forall k :: k in st.rounds ==> KeySession(k) != sid)
    && (forall k :: k in st.replay ==> KeySession(k) != sid)
  }

  /** The receiver's state once an intent has passed: both caches swept, the intent remembered. */
  function Admitted(B: Setup, st: State, env: Envelope, signer: bytes, dedupe: int, replay: int): State
    requires env.intent.Parsed?
  {
    var intent := env.intent.intent;
    st.(rounds := SweepRounds(st.rounds, dedupe),
        replay := SweepReplay(st.replay, replay)[IntentKey(signer, env, intent) := ExpiryOf(B, intent)])
  }

  /** The opening envelope reaches `receive`. */
  lemma OpeningAdmitted(A: Setup, B: Setup, st: State, wire: string, job: Job, out: Outgoing, round: nat, peer: Peer,
        first: Input, second: Input)
    requires Partners(A, B, job, peer) && NewTo(st, wire) && BarFree(wire)
    requires InTime(job, round, second.clock.valid) && second.config.Some?
    ensures var env := BuildEnvelope(A, wire, job, out, round);
            var st1 := Admitted(B, st, env, peer.publicKey, first.clock.dedupe, second.clock.replay);
            var call := OpenCall(B, st1, Pending(env, env.intent.intent, A.selfUrl, false), peer, second);
            && Serve(B, st, env, peer, first, second) == (call.state, call.outcome)
            && Deliver(B, st, env, first).outcome.Awaiting?
  {
    var env := BuildEnvelope(A, wire, job, out, round);
    var intent := env.intent.intent;
    BuiltIntentHolds(A, B, wire, job, out, round, second.clock.valid);
    RoundKeyNamesSession(B, env);
    IntentKeyNamesSession(env, intent, peer.publicKey);
    var st0 := st.(rounds := SweepRounds(st.rounds, first.clock.dedupe));
    var p := Pending(env, intent, A.selfUrl, false);
    assert Deliver(B, st, env, first) == StepOut(st0, Awaiting(p), None, None);
  }

  /** The keys of an envelope are in neither cache. */
  predicate Unseen(B: Setup, st: State, signer: bytes, env: Envelope) {
    && RoundKey(B, env) !in st.rounds
    && (env.intent.Parsed? ==> IntentKey(signer, env, env.intent.intent) !in st.replay)
  }

  /** A later envelope of an open session reaches `process`. */
  lemma RoundAdmitted(A: Setup, B: Setup, st: State, wire: string, job: Job, out: Outgoing, round: nat, peer: Peer,
        input: Input)
    requires Partners(A, B, job, peer) && InTime(job, round, input.clock.valid)
    requires wire in st.rx && st.rx[wire].signer == peer.publicKey && st.rx[wire].openingPhase != PhaseOf(out, round)
    requires Unseen(B, st, peer.publicKey, BuildEnvelope(A, wire, job, out, round))
    ensures var env := BuildEnvelope(A, wire, job, out, round);
            var st1 := Admitted(B, st, env, peer.publicKey, input.clock.dedupe, input.clock.replay);
            var o, call := Deliver(B, st, env, input), ContinueCall(B, st1, env, env.intent.intent, input);
            o.state == call.state && o.outcome == call.outcome
  {
    var env := BuildEnvelope(A, wire, job, out, round);
    BuiltIntentHolds(A, B, wire, job, out, round, input.clock.valid);
    var st0 := st.(rounds := SweepRounds(st.rounds, input.clock.dedupe));
    assert Deliver(B, st, env, input) == Continue(B, st0, env, input);
  }

  /** What a `process` call that ends its session does to the receiver. */
  lemma LastAnswer(B: Setup, st: State, env: Envelope, intent: Intent, input: Input, reply: Reply, ops: Table)
    requires env.session in st.rx && reply.done
    requires Process(B.behaviour, st.ops, st.rx[env.session].internal, ToMessage(env), input.draws) == (Ok(reply), ops)
    ensures var out := ContinueCall(B, st, env, intent, input);
            && out.outcome == Answered(ReplyEnvelope(B, env, reply))
            && out.state.rx == WithoutRx(st.rx, env.session) && out.state.ops == ops
  {
  }

  /** What a `receive` call that opens a session does to it. */
  lemma FirstAnswer(B: Setup, st: State, p: Pending, peer: Peer, input: Input, reply: Reply, ops: Table)
    requires input.config.Some? && !reply.done
    requires Receive(B.behaviour, st.ops, "receiver", ToMessage(p.env), input.config.value, p.env.session, input.newId,
                     input.draws)
             == (Ok(reply), ops)
    ensures var out := OpenCall(B, st, p, peer, input);
            && out.outcome == Answered(ReplyEnvelope(B, p.env, reply)) && out.state.ops == ops
            && out.state.rx == st.rx[p.env.session := RxSession(reply.session, peer.publicKey, p.url, p.env.phase)]
            && out.state.replay == st.replay
            && forall k :: k in out.state.rounds ==> k == RoundKey(B, p.env) || k in st.rounds
  {
  }

  /** The receiver's sessions between an opening and the next envelope, when `before` was before. */
  ghost predicate Between(st: State, before: State, wire: string, rx: RxSession, session: Session) {
    st.rx == before.rx[wire := rx] && st.ops == before.ops[wire := session] && rx.internal == wire
  }

  /** So a later envelope gets what the operation replies to its message. */
  lemma LastRoundServed(A: Setup, B: Setup, st: State, before: State, wire: string, job: Job, out: Outgoing, round: nat,
                        peer: Peer, input: Input, rx: RxSession, session: Session, reply: Reply)
    requires Partners(A, B, job, peer) && InTime(job, round, input.clock.valid)
    requires wire !in before.rx && wire !in before.ops && Between(st, before, wire, rx, session)
    requires rx.signer == peer.publicKey && rx.openingPhase != PhaseOf(out, round)
    requires Unseen(B, st, peer.publicKey, BuildEnvelope(A, wire, job, out, round))
    requires reply.done
    requires Process(B.behaviour, st.ops, wire, Message(PhaseOf(out, round), out.message), input.draws)
             == (Ok(reply), Without(st.ops, wire))
    ensures var env := BuildEnvelope(A, wire, job, out, round);
            var o := Deliver(B, st, env, input);
            o.outcome == Answered(ReplyEnvelope(B, env, reply)) && o.state.rx == before.rx && o.state.ops == before.ops
  {
    var env := BuildEnvelope(A, wire, job, out, round);
    RoundAdmitted(A, B, st, wire, job, out, round, peer, input);
    var st1 := Admitted(B, st, env, peer.publicKey, input.clock.dedupe, input.clock.replay);
    LastAnswer(B, st1, env, env.intent.intent, input, reply, Without(st.ops, wire));
    AsBefore(st, before, wire, rx, session);
  }

  lemma AsBefore(st: State, before: State, wire: string, rx: RxSession, session: Session)
    requires wire !in before.rx && wire !in before.ops && Between(st, before, wire, rx, session)
    ensures WithoutRx(st.rx, wire) == before.rx && Without(st.ops, wire) == before.ops
  {
  }

  /** The only new keys in the caches are the envelope's. */
  ghost predicate Adds(B: Setup, st: State, st1: State, signer: bytes, env: Envelope)
    requires env.intent.Parsed?
  {
    && (forall k :: k in st1.rounds ==> k == RoundKey(B, env) || k in st.rounds)
    && (forall k :: k in st1.replay ==> k == IntentKey(signer, env, env.intent.intent) || k in st.replay)
  }

  /** And an opening envelope gets what it replies to the first. */
  lemma OpeningServed(A: Setup, B: Setup, st: State, wire: string, job: Job, out: Outgoing, round: nat,
                      peer: Peer, first: Input, second: Input, session: Session, reply: Reply)
    requires Partners(A, B, job, peer) && NewTo(st, wire) && BarFree(wire)
    requires InTime(job, round, second.clock.valid) && second.config.Some?
    requires !reply.done && reply.session == wire
    requires Receive(B.behaviour, st.ops, "receiver", Message(PhaseOf(out, round), out.message), second.config.value,
                     wire, second.newId, second.draws)
             == (Ok(reply), st.ops[wire := session])
    ensures var env := BuildEnvelope(A, wire, job, out, round);
            var (st1, outcome) := Serve(B, st, env, peer, first, second);
            && outcome == Answered(ReplyEnvelope(B, env, reply)) && Deliver(B, st, env, first).outcome.Awaiting?
            && Between(st1, st, wire, RxSession(wire, peer.publicKey, A.selfUrl, PhaseOf(out, round)), session)
            && Adds(B, st, st1, peer.publicKey, env)
  {
    var env := BuildEnvelope(A, wire, job, out, round);
    OpeningAdmitted(A, B, st, wire, job, out, round, peer, first, second);
    var st1 := Admitted(B, st, env, peer.publicKey, first.clock.dedupe, second.clock.replay);
    FirstAnswer(B, st1, Pending(env, env.intent.intent, A.selfUrl, false), peer, second, reply,
                st.ops[wire := session]);
  }
}
