/**
 * Whole runs of a receiver core: handlers of any sessions interleave at the resolutions of their
 * peers. This module says what one segment can do; the theorems about runs are built on that.
 */
module ReceiverRuns {
  import opened Wrappers
  import opened Bytes
  import opened Directives
  import opened Operations
  import opened Receiver

  /** A handler: the session of its envelope and a number that tells handlers of a session apart. */
  type Handler = (string, nat)

  datatype World = World(core: State, pending: map<Handler, Pending>)

  datatype Step =
    | Arrive(n: nat, env: Envelope, input: Input)
    | Resolved(session: string, n: nat, peer: Option<Peer>, input: Input)

  function HandlerOf(step: Step): Handler {
    match step
    case Arrive(n, env, _) => (env.session, n)
    case Resolved(session, n, _, _) => (session, n)
  }

  /** An arrival starts a new handler; a resolution wakes a waiting one. */
  predicate Enabled(w: World, step: Step) {
    step.Resolved? <==> HandlerOf(step) in w.pending
  }

  function Act(S: Setup, w: World, step: Step): StepOut
    requires Enabled(w, step)
  {
    match step
    case Arrive(_, env, input) => Deliver(S, w.core, env, input)
    case Resolved(_, _, peer, input) => Resume(S, w.core, w.pending[HandlerOf(step)], peer, input)
  }

  function Settle(pending: map<Handler, Pending>, h: Handler, outcome: Outcome): map<Handler, Pending> {
    if outcome.Awaiting? then pending[h := outcome.pending] else map k | k in pending && k != h :: pending[k]
  }

  function Next(S: Setup, w: World, step: Step): World {
    if !Enabled(w, step) then w
    else
      var out := Act(S, w, step);
      World(out.state, Settle(w.pending, HandlerOf(step), out.outcome))
  }

  function Run(S: Setup, w: World, steps: seq<Step>): World {
    if steps == [] then w else Next(S, Run(S, w, steps[..|steps| - 1]), steps[|steps| - 1])
  }

  /** The world in which step `i` happens. */
  function Before(S: Setup, w: World, steps: seq<Step>, i: nat): World
    requires i <= |steps|
  {
    Run(S, w, steps[..i])
  }

  /** What step `i` does. */
  function OutAt(S: Setup, w: World, steps: seq<Step>, i: nat): Option<StepOut>
    requires i < |steps|
  {
    if Enabled(Before(S, w, steps, i), steps[i]) then Some(Act(S, Before(S, w, steps, i), steps[i])) else None
  }

  function CallAt(S: Setup, w: World, steps: seq<Step>, i: nat): Option<Call>
    requires i < |steps|
  {
    var out := OutAt(S, w, steps, i);
    if out.Some? then out.value.call else None
  }

  function SweepAt(S: Setup, w: World, steps: seq<Step>, i: nat): Option<int>
    requires i < |steps|
  {
    var out := OutAt(S, w, steps, i);
    if out.Some? then out.value.swept else None
  }

  lemma RunStep(S: Setup, w: World, steps: seq<Step>, i: nat)
    requires i < |steps|
    ensures Before(S, w, steps, i + 1) == Next(S, Before(S, w, steps, i), steps[i])
  {
    assert steps[..i + 1][..i] == steps[..i];
  }

  // --- what one segment does --------------------------------------------------------------------

  /** Two maps that differ at one key at most. */
  ghost predicate OnlyAt<T>(m: map<string, T>, n: map<string, T>, s: string) {
    forall k :: k != s ==> (k in m <==> k in n) && (k in m ==> n[k] == m[k])
  }

  /** No operation call, no sweep of the replay cache, no change. */
  ghost predicate Idle(st: State, out: StepOut) {
    out.state == st && out.call == None && out.swept == None
  }

  /** Codes of the refusals that follow an operation call. */
  predicate AfterCall(code: ErrorCode) {
    code.OperationError? || code.SessionExpired?
  }

  /**
   * A segment that looks at the replay cache: either it makes no call and changes nothing but that
   * cache, or it calls the operation and changes only what belongs to its session and its round.
   */
  ghost predicate Checked(S: Setup, st: State, env: Envelope, intent: Intent, signer: bytes, id: string, input: Input,
        out: StepOut) {
    var (st1, problem, swept) := CheckIntent(S, st, env, intent, signer, input.clock);
    && out.swept == swept && !out.outcome.Awaiting?
    && (out.call.None? ==> out.state == st1)
    && (out.call.Some? ==> Called(S, st1, env, intent, signer, id, input, out) && problem.None?)
  }

  ghost predicate Called(S: Setup, st: State, env: Envelope, intent: Intent, signer: bytes, id: string, input: Input,
        out: StepOut)
    requires out.call.Some?
  {
    && out.call.value == Call(out.call.value.opening, env, intent, signer, input.clock.valid)
    && out.state.replay == st.replay
    && OnlyAt(st.rx, out.state.rx, env.session) && OnlyAt(st.ops, out.state.ops, id)
    && out.outcome.Answered?
    && (Refused(out) ==> AfterCall(out.outcome.reply.value.error.value) && out.state.rounds == st.rounds)
    && (!Refused(out) ==>
          out.state.rounds ==
          st.rounds[RoundKey(S, env) := CachedRound(input.clock.store + THIRTY_MINUTES, out.outcome.reply)])
  }

  predicate Refused(out: StepOut) {
    out.outcome.Answered? && out.outcome.reply.Some? && out.outcome.reply.value.error.Some?
  }

  lemma ContinueCallShape(S: Setup, st: State, env: Envelope, intent: Intent, input: Input)
    requires env.session in st.rx
    ensures var out, rx := ContinueCall(S, st, env, intent, input), st.rx[env.session];
            && out.call.Some? && !out.call.value.opening
            && Called(S, st, env, intent, rx.signer, rx.internal, input, out)
            && (env.session in out.state.rx ==> out.state.rx[env.session] == rx)
  {
  }

  lemma ContinueVerifiedShape(S: Setup, st: State, env: Envelope, intent: Intent, input: Input)
    requires env.session in st.rx
    ensures var out, rx := ContinueVerified(S, st, env, intent, input), st.rx[env.session];
            && Checked(S, st, env, intent, rx.signer, rx.internal, input, out)
            && (out.call.Some? ==> !out.call.value.opening && env.phase != rx.openingPhase)
            && (env.session in out.state.rx ==> out.state.rx[env.session] == rx)
  {
    var st1 := CheckIntent(S, st, env, intent, st.rx[env.session].signer, input.clock).0;
    ContinueCallShape(S, st1, env, intent, input);
  }

  lemma ContinueShape(S: Setup, st: State, env: Envelope, input: Input)
    requires env.session in st.rx
    ensures var out, rx := Continue(S, st, env, input), st.rx[env.session];
            && ((Idle(st, out) && !out.outcome.Awaiting?) ||
                (env.intent.Parsed? && Verified(S.services, env.intent.intent, rx.signer) &&
                 Checked(S, st, env, env.intent.intent, rx.signer, rx.internal, input, out)))
            && (out.call.Some? ==> !out.call.value.opening && env.phase != rx.openingPhase)
            && (env.session in out.state.rx ==> out.state.rx[env.session] == rx)
  {
    if env.intent.Parsed? {
      ContinueVerifiedShape(S, st, env, env.intent.intent, input);
    }
  }

  lemma ReceiveTouchesOne(b: Behaviour, t: Table, m: Message, config: Config, sid: string, newId: string, draws: Draws)
    ensures OnlyAt(t, Receive(b, t, "receiver", m, config, sid, newId, draws).1, PickId(sid, newId))
  {
  }

  lemma OpenCallTables(S: Setup, st: State, p: Pending, peer: Peer, input: Input)
    requires input.config.Some?
    ensures var out := OpenCall(S, st, p, peer, input);
            && out.call == Some(Call(true, p.env, p.intent, peer.publicKey, input.clock.valid))
            && out.state.replay == st.replay
            && OnlyAt(st.rx, out.state.rx, p.env.session)
            && OnlyAt(st.ops, out.state.ops, PickId(p.env.session, input.newId))
  {
    ReceiveTouchesOne(S.behaviour, st.ops, ToMessage(p.env), input.config.value, p.env.session, input.newId,
                      input.draws);
  }

  lemma OpenCallShape(S: Setup, st: State, p: Pending, peer: Peer, input: Input)
    requires input.config.Some?
    ensures var out := OpenCall(S, st, p, peer, input);
            out.call.Some? && out.call.value.opening &&
            Called(S, st, p.env, p.intent, peer.publicKey, PickId(p.env.session, input.newId), input, out)
  {
    OpenCallTables(S, st, p, peer, input);
  }

  lemma OpenFinishShape(S: Setup, st: State, p: Pending, peer: Peer, input: Input)
    ensures var out := OpenFinish(S, st, p, peer, input);
            && Checked(S, st, p.env, p.intent, peer.publicKey, PickId(p.env.session, input.newId), input, out)
            && (out.call.Some? ==> out.call.value.opening)
  {
    var st1 := CheckIntent(S, st, p.env, p.intent, peer.publicKey, input.clock).0;
    if input.config.Some? {
      OpenCallShape(S, st1, p, peer, input);
    }
  }

  /** An envelope this receiver looks into. */
  predicate Understood(S: Setup, env: Envelope) {
    env.operation == S.behaviour.id && env.version == WIRE_VERSION
  }

  /** The state in which an arrival looks at the caches. */
  function Fresh(S: Setup, st: State, env: Envelope, input: Input): State {
    if !Understood(S, env) then st
    else st.(rounds := SweepRounds(st.rounds, input.clock.dedupe))
  }

  lemma DeliverShape(S: Setup, st: State, env: Envelope, input: Input)
    ensures var out, st1, s := Deliver(S, st, env, input), Fresh(S, st, env, input), env.session;
            && (Idle(st1, out) ||
                (s in st.rx && env.intent.Parsed? && Verified(S.services, env.intent.intent, st.rx[s].signer) &&
                 Checked(S, st1, env, env.intent.intent, st.rx[s].signer, st.rx[s].internal, input, out)))
            && (out.call.Some? ==> !out.call.value.opening && s in st.rx && env.phase != st.rx[s].openingPhase)
            && (out.outcome.Awaiting? ==> out.outcome.pending.env == env && s !in st.rx && Idle(st1, out))
            && (out.outcome.Awaiting? || out.call.Some? || out.swept.Some? ==> Understood(S, env))
            && (s in st.rx && s in out.state.rx ==> out.state.rx[s] == st.rx[s])
  {
    var st1 := Fresh(S, st, env, input);
    if env.session in st.rx {
      ContinueShape(S, st1, env, input);
    }
  }

  lemma ResumeShape(S: Setup, st: State, p: Pending, peer: Option<Peer>, input: Input)
    ensures var out := Resume(S, st, p, peer, input);
            && (Idle(st, out) ||
                (peer.Some? && Verified(S.services, p.intent, peer.value.publicKey) &&
                 Checked(S, st, p.env, p.intent, peer.value.publicKey, PickId(p.env.session, input.newId), input, out)))
            && (out.call.Some? ==> out.call.value.opening)
            && (out.outcome.Awaiting? ==> out.outcome.pending == p.(forced := true) && !p.forced && Idle(st, out))
  {
    if peer.Some? {
      OpenFinishShape(S, st, p, peer.value, input);
    }
  }
}
