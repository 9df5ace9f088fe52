/**
 * Sessions do not disturb one another. What a set of sessions sees of a run is what it sees when the
 * other sessions' segments, and any deliveries answered from the round cache, are left out of it.
 */
module Isolation {
  import opened Wrappers
  import opened Bytes
  import opened Directives
  import opened Operations
  import opened Receiver
  import opened ReceiverRuns
  import opened ReceiverSafety
  import opened Keys

  /** A set of sessions. */
  type Part = string -> bool

  // --- two states that look alike to a set of sessions --------------------------------------------

  ghost predicate SameAt<T>(P: Part, m: map<string, T>, n: map<string, T>) {
    forall s :: P(s) ==> (s in m <==> s in n) && (s in m ==> n[s] == m[s])
  }

  ghost predicate SameKeyed<T>(P: Part, m: map<string, T>, n: map<string, T>) {
    forall k :: P(KeySession(k)) ==> (k in m <==> k in n) && (k in m ==> n[k] == m[k])
  }

  ghost predicate Total(P: Part) {
    forall s :: P(s)
  }

  /** Equal sessions, and equal cache entries as far as they have not expired by `t`. */
  ghost predicate Alike(P: Part, a: State, b: State, t: int) {
    && (Total(P) ==> a.replay == b.replay)
    && SameAt(P, a.rx, b.rx) && SameAt(P, a.ops, b.ops)
    && SameKeyed(P, SweepReplay(a.replay, t), SweepReplay(b.replay, t))
    && SameKeyed(P, SweepRounds(a.rounds, t), SweepRounds(b.rounds, t))
  }

  lemma LaterReplay(P: Part, m: map<string, int>, n: map<string, int>, t: int, u: int)
    requires t <= u && SameKeyed(P, SweepReplay(m, t), SweepReplay(n, t))
    ensures SameKeyed(P, SweepReplay(m, u), SweepReplay(n, u))
  {
    var mt, nt := SweepReplay(m, t), SweepReplay(n, t);
    forall k | P(KeySession(k))
      ensures k in SweepReplay(m, u) <==> k in SweepReplay(n, u)
      ensures k in SweepReplay(m, u) ==> n[k] == m[k]
    {
      assert k in mt <==> k in nt;
    }
  }

  lemma LaterRounds(P: Part, m: map<string, CachedRound>, n: map<string, CachedRound>, t: int, u: int)
    requires t <= u && SameKeyed(P, SweepRounds(m, t), SweepRounds(n, t))
    ensures SameKeyed(P, SweepRounds(m, u), SweepRounds(n, u))
  {
    var mt, nt := SweepRounds(m, t), SweepRounds(n, t);
    forall k | P(KeySession(k))
      ensures k in SweepRounds(m, u) <==> k in SweepRounds(n, u)
      ensures k in SweepRounds(m, u) ==> n[k] == m[k]
    {
      assert k in mt <==> k in nt;
    }
  }

  /** Time only makes states more alike. */
  lemma Later(P: Part, a: State, b: State, t: int, u: int)
    requires Alike(P, a, b, t) && t <= u
    ensures Alike(P, a, b, u)
  {
    LaterReplay(P, a.replay, b.replay, t, u);
    LaterRounds(P, a.rounds, b.rounds, t, u);
  }

  predicate Ordered(c: Clock, t: int) {
    t <= c.dedupe <= c.valid <= c.replay <= c.store
  }

  // --- a segment of a session in the set, in both states ---------------------------------------------

  lemma SweptAlike(P: Part, m: map<string, int>, n: map<string, int>, t: int, now: int, key: string, v: int)
    requires SameKeyed(P, SweepReplay(m, t), SweepReplay(n, t)) && t <= now && P(KeySession(key))
    ensures var m1, n1 := SweepReplay(m, now), SweepReplay(n, now);
            && (key in m1 <==> key in n1)
            && SameKeyed(P, SweepReplay(m1, now), SweepReplay(n1, now))
            && SameKeyed(P, SweepReplay(m1[key := v], now), SweepReplay(n1[key := v], now))
  {
    LaterReplay(P, m, n, t, now);
    var m1, n1 := SweepReplay(m, now), SweepReplay(n, now);
    assert key in m1 <==> key in n1;
    assert SweepReplay(m1, now) == m1 && SweepReplay(n1, now) == n1;
    StoreReplay(P, m1, n1, key, v, now);
  }

  lemma CheckAlike(S: Setup, P: Part, a: State, b: State, t: int, env: Envelope, intent: Intent, signer: bytes,
        clock: Clock)
    requires Alike(P, a, b, t) && t <= clock.replay && P(env.session) && BarFree(S.behaviour.id) && BarFree(env.session)
    ensures var (a1, p, sa) := CheckIntent(S, a, env, intent, signer, clock);
            var (b1, q, sb) := CheckIntent(S, b, env, intent, signer, clock);
            && p == q && sa == sb && Alike(P, a1, b1, clock.replay)
            && a1.rx == a.rx && b1.rx == b.rx && a1.ops == a.ops && b1.ops == b.ops
  {
    if IntentProblem(S, env, intent, clock.valid).Some? {
      Later(P, a, b, t, clock.replay);
    } else {
      LaterRounds(P, a.rounds, b.rounds, t, clock.replay);
      IntentKeyNamesSession(env, intent, signer);
      SweptAlike(P, a.replay, b.replay, t, clock.replay, IntentKey(signer, env, intent), ExpiryOf(S, intent));
    }
  }

  lemma StoreReplay(P: Part, m: map<string, int>, n: map<string, int>, key: string, v: int, t: int)
    requires SameKeyed(P, SweepReplay(m, t), SweepReplay(n, t))
    ensures SameKeyed(P, SweepReplay(m[key := v], t), SweepReplay(n[key := v], t))
  {
    var mt, nt := SweepReplay(m, t), SweepReplay(n, t);
    forall k | P(KeySession(k))
      ensures k in SweepReplay(m[key := v], t) <==> k in SweepReplay(n[key := v], t)
      ensures k in SweepReplay(m[key := v], t) ==> n[key := v][k] == m[key := v][k]
    {
      assert k in mt <==> k in nt;
    }
  }

  lemma StoreRounds(P: Part, m: map<string, CachedRound>, n: map<string, CachedRound>, key: string, v: CachedRound,
        t: int)
    requires SameKeyed(P, SweepRounds(m, t), SweepRounds(n, t))
    ensures SameKeyed(P, SweepRounds(m[key := v], t), SweepRounds(n[key := v], t))
  {
    var mt, nt := SweepRounds(m, t), SweepRounds(n, t);
    forall k | P(KeySession(k))
      ensures k in SweepRounds(m[key := v], t) <==> k in SweepRounds(n[key := v], t)
      ensures k in SweepRounds(m[key := v], t) ==> n[key := v][k] == m[key := v][k]
    {
      assert k in mt <==> k in nt;
    }
  }

  lemma ProcessAlike(B: Behaviour, P: Part, t: Table, u: Table, sid: string, m: Message, draws: Draws)
    requires SameAt(P, t, u) && P(sid)
    ensures Process(B, t, sid, m, draws).0 == Process(B, u, sid, m, draws).0
    ensures SameAt(P, Process(B, t, sid, m, draws).1, Process(B, u, sid, m, draws).1)
  {
  }

  lemma ReceiveAlike(B: Behaviour, P: Part, t: Table, u: Table, m: Message, config: Config, sid: string, newId: string,
        draws: Draws)
    requires SameAt(P, t, u)
    ensures var (r, t1) := Receive(B, t, "receiver", m, config, sid, newId, draws);
            var (q, u1) := Receive(B, u, "receiver", m, config, sid, newId, draws);
            r == q && SameAt(P, t1, u1)
  {
  }

  /** Two segments that end alike: what is seen of them is equal. */
  ghost predicate SameOut(P: Part, x: StepOut, y: StepOut, t: int) {
    x.outcome == y.outcome && x.call == y.call && Alike(P, x.state, y.state, t)
  }

  lemma RememberAlike(S: Setup, P: Part, a: State, b: State, env: Envelope, r: Reply, now: int)
    requires Alike(P, a, b, now)
    ensures Alike(P, Remember(S, a, env, r, now), Remember(S, b, env, r, now), now)
  {
    StoreRounds(P, a.rounds, b.rounds, RoundKey(S, env), CachedRound(now + THIRTY_MINUTES, ReplyEnvelope(S, env, r)),
                now);
  }

  lemma ContinueCallAlike(S: Setup, P: Part, a: State, b: State, env: Envelope, intent: Intent, input: Input)
    requires Alike(P, a, b, input.clock.store) && P(env.session)
    requires env.session in a.rx && a.rx[env.session].internal == env.session
    ensures env.session in b.rx
    ensures SameOut(P, ContinueCall(S, a, env, intent, input), ContinueCall(S, b, env, intent, input),
                    input.clock.store)
  {
    var s := env.session;
    ProcessAlike(S.behaviour, P, a.ops, b.ops, s, ToMessage(env), input.draws);
    var (r, aops) := Process(S.behaviour, a.ops, s, ToMessage(env), input.draws);
    var (q, bops) := Process(S.behaviour, b.ops, s, ToMessage(env), input.draws);
    var a1, b1 := a.(ops := aops), b.(ops := bops);
    var a2, b2 := a1.(rx := WithoutRx(a.rx, s)), b1.(rx := WithoutRx(b.rx, s));
    assert Alike(P, a1, b1, input.clock.store) && Alike(P, a2, b2, input.clock.store);
    if r.Ok? {
      RememberAlike(S, P, if r.value.done then a2 else a1, if r.value.done then b2 else b1, env, r.value,
                    input.clock.store);
    }
  }

  lemma ContinueVerifiedAlike(S: Setup, P: Part, a: State, b: State, t: int, env: Envelope, intent: Intent,
        input: Input)
    requires Alike(P, a, b, t) && Ordered(input.clock, t) && P(env.session)
    requires BarFree(S.behaviour.id) && BarFree(env.session)
    requires env.session in a.rx && a.rx[env.session].internal == env.session
    ensures env.session in b.rx && b.rx[env.session] == a.rx[env.session]
    ensures SameOut(P, ContinueVerified(S, a, env, intent, input), ContinueVerified(S, b, env, intent, input),
                    input.clock.store)
  {
    var signer := a.rx[env.session].signer;
    CheckAlike(S, P, a, b, t, env, intent, signer, input.clock);
    var a1 := CheckIntent(S, a, env, intent, signer, input.clock).0;
    var b1 := CheckIntent(S, b, env, intent, signer, input.clock).0;
    Later(P, a1, b1, input.clock.replay, input.clock.store);
    ContinueCallAlike(S, P, a1, b1, env, intent, input);
  }

  lemma ContinueAlike(S: Setup, P: Part, a: State, b: State, t: int, env: Envelope, input: Input)
    requires Alike(P, a, b, t) && Ordered(input.clock, t) && P(env.session)
    requires BarFree(S.behaviour.id) && BarFree(env.session)
    requires env.session in a.rx && a.rx[env.session].internal == env.session
    ensures env.session in b.rx
    ensures SameOut(P, Continue(S, a, env, input), Continue(S, b, env, input), input.clock.store)
  {
    Later(P, a, b, t, input.clock.store);
    assert b.rx[env.session] == a.rx[env.session];
    if env.intent.Parsed? {
      ContinueVerifiedAlike(S, P, a, b, t, env, env.intent.intent, input);
    }
  }

  lemma OpenAlike(P: Part, a: State, b: State, sid: string, x: RxSession, t: int)
    requires Alike(P, a, b, t)
    ensures Alike(P, a.(rx := a.rx[sid := x]), b.(rx := b.rx[sid := x]), t)
  {
  }

  lemma OpenCallAlike(S: Setup, P: Part, a: State, b: State, p: Pending, peer: Peer, input: Input)
    requires Alike(P, a, b, input.clock.store) && input.config.Some?
    ensures SameOut(P, OpenCall(S, a, p, peer, input), OpenCall(S, b, p, peer, input), input.clock.store)
  {
    var env, m, sid := p.env, ToMessage(p.env), p.env.session;
    ReceiveAlike(S.behaviour, P, a.ops, b.ops, m, input.config.value, sid, input.newId, input.draws);
    var (r, aops) := Receive(S.behaviour, a.ops, "receiver", m, input.config.value, sid, input.newId, input.draws);
    var (q, bops) := Receive(S.behaviour, b.ops, "receiver", m, input.config.value, sid, input.newId, input.draws);
    var a1, b1 := a.(ops := aops), b.(ops := bops);
    assert Alike(P, a1, b1, input.clock.store);
    if r.Ok? {
      var x := RxSession(r.value.session, peer.publicKey, p.url, env.phase);
      var a2, b2 := a1.(rx := a.rx[sid := x]), b1.(rx := b.rx[sid := x]);
      OpenAlike(P, a1, b1, sid, x, input.clock.store);
      RememberAlike(S, P, if r.value.done then a1 else a2, if r.value.done then b1 else b2, env, r.value,
                    input.clock.store);
    }
  }

  lemma OpenFinishAlike(S: Setup, P: Part, a: State, b: State, t: int, p: Pending, peer: Peer, input: Input)
    requires Alike(P, a, b, t) && Ordered(input.clock, t) && P(p.env.session)
    requires BarFree(S.behaviour.id) && BarFree(p.env.session)
    ensures SameOut(P, OpenFinish(S, a, p, peer, input), OpenFinish(S, b, p, peer, input), input.clock.store)
  {
    CheckAlike(S, P, a, b, t, p.env, p.intent, peer.publicKey, input.clock);
    var a1 := CheckIntent(S, a, p.env, p.intent, peer.publicKey, input.clock).0;
    var b1 := CheckIntent(S, b, p.env, p.intent, peer.publicKey, input.clock).0;
    Later(P, a1, b1, input.clock.replay, input.clock.store);
    if input.config.Some? {
      OpenCallAlike(S, P, a1, b1, p, peer, input);
    }
  }

  lemma FreshAlike(P: Part, a: State, b: State, t: int, now: int)
    requires Alike(P, a, b, t) && t <= now
    ensures var m, n := SweepRounds(a.rounds, now), SweepRounds(b.rounds, now);
            SameKeyed(P, m, n) && Alike(P, a.(rounds := m), b.(rounds := n), now)
  {
    Later(P, a, b, t, now);
    var m, n := SweepRounds(a.rounds, now), SweepRounds(b.rounds, now);
    assert SweepRounds(m, now) == m && SweepRounds(n, now) == n;
  }

  lemma HandleAlike(S: Setup, P: Part, a: State, b: State, t: int, env: Envelope, input: Input)
    requires Alike(P, a, b, t) && SameKeyed(P, a.rounds, b.rounds) && t == input.clock.dedupe && Ordered(input.clock, t)
    requires P(env.session) && BarFree(S.behaviour.id) && BarFree(env.session) && env.operation == S.behaviour.id
    requires env.session in a.rx ==> a.rx[env.session].internal == env.session
    ensures SameOut(P, Handle(S, a, env, input), Handle(S, b, env, input), input.clock.store)
  {
    RoundKeyNamesSession(S, env);
    Later(P, a, b, t, input.clock.store);
    assert env.session in a.rx <==> env.session in b.rx;
    if env.session in a.rx {
      ContinueAlike(S, P, a, b, t, env, input);
    }
  }

  lemma DeliverAlike(S: Setup, P: Part, a: State, b: State, t: int, env: Envelope, input: Input)
    requires Alike(P, a, b, t) && Ordered(input.clock, t) && P(env.session)
    requires BarFree(S.behaviour.id) && BarFree(env.session)
    requires Agree(a)
    ensures SameOut(P, Deliver(S, a, env, input), Deliver(S, b, env, input), input.clock.store)
  {
    if env.operation == S.behaviour.id && env.version == WIRE_VERSION {
      var now := input.clock.dedupe;
      FreshAlike(P, a, b, t, now);
      var a1, b1 := a.(rounds := SweepRounds(a.rounds, now)), b.(rounds := SweepRounds(b.rounds, now));
      HandleAlike(S, P, a1, b1, now, env, input);
    } else {
      Later(P, a, b, t, input.clock.store);
    }
  }

  lemma ResumeAlike(S: Setup, P: Part, a: State, b: State, t: int, p: Pending, peer: Option<Peer>, input: Input)
    requires Alike(P, a, b, t) && Ordered(input.clock, t) && P(p.env.session)
    requires BarFree(S.behaviour.id) && BarFree(p.env.session)
    ensures SameOut(P, Resume(S, a, p, peer, input), Resume(S, b, p, peer, input), input.clock.store)
  {
    Later(P, a, b, t, input.clock.store);
    if peer.Some? {
      OpenFinishAlike(S, P, a, b, t, p, peer.value, input);
    }
  }

  // --- one step of a run -----------------------------------------------------------------------------

  /** Alike in their states and in the handlers that wait. */
  ghost predicate Same(P: Part, w: World, v: World, t: int) {
    && Alike(P, w.core, v.core, t)
    && (forall h: Handler :: P(h.0) ==> (h in w.pending <==> h in v.pending))
    && (forall h: Handler :: P(h.0) && h in w.pending ==> v.pending[h] == w.pending[h])
  }

  predicate CleanStep(step: Step) {
    NamedStep(step) && BarFree(HandlerOf(step).0)
  }

  /** What every reachable world keeps. */
  ghost predicate Sound(S: Setup, w: World) {
    && Agree(w.core) && Named(w)
    && forall h :: h in w.pending ==> Understood(S, w.pending[h].env)
  }

  lemma SoundKept(S: Setup, w: World, step: Step)
    requires Sound(S, w) && NamedStep(step)
    ensures Sound(S, Next(S, w, step))
  {
    AgreeKept(S, w, step);
    if Enabled(w, step) {
      match step {
        case Arrive(_, env, input) => DeliverShape(S, w.core, env, input);
        case Resolved(_, _, peer, input) => ResumeShape(S, w.core, w.pending[HandlerOf(step)], peer, input);
      }
    }
  }

  /** What an observer sees of a step. */
  datatype Seen = Skipped | Seen(outcome: Outcome, call: Option<Call>)

  function See(S: Setup, w: World, step: Step): Seen {
    if Enabled(w, step) then
      var out := Act(S, w, step);
      Seen(out.outcome, out.call)
    else Skipped
  }

  lemma SettleAlike(P: Part, w: World, v: World, x: StepOut, y: StepOut, h: Handler, t: int, u: int)
    requires Same(P, w, v, t) && SameOut(P, x, y, u) && P(h.0)
    ensures Same(P, World(x.state, Settle(w.pending, h, x.outcome)), World(y.state, Settle(v.pending, h, y.outcome)), u)
  {
  }

  lemma ActAlike(S: Setup, P: Part, w: World, v: World, t: int, step: Step)
    requires Same(P, w, v, t) && Sound(S, w) && BarFree(S.behaviour.id) && Enabled(w, step) && Enabled(v, step)
    requires CleanStep(step) && P(HandlerOf(step).0) && Ordered(step.input.clock, t)
    ensures SameOut(P, Act(S, w, step), Act(S, v, step), step.input.clock.store)
  {
    match step
    case Arrive(_, env, input) => DeliverAlike(S, P, w.core, v.core, t, env, input);
    case Resolved(_, _, peer, input) => ResumeAlike(S, P, w.core, v.core, t, w.pending[HandlerOf(step)], peer, input);
  }

  lemma OwnStep(S: Setup, P: Part, w: World, v: World, t: int, step: Step)
    requires Same(P, w, v, t) && Sound(S, w) && Sound(S, v) && BarFree(S.behaviour.id)
    requires CleanStep(step) && P(HandlerOf(step).0) && Ordered(step.input.clock, t)
    ensures See(S, w, step) == See(S, v, step)
    ensures Same(P, Next(S, w, step), Next(S, v, step), step.input.clock.store)
  {
    assert Enabled(w, step) <==> Enabled(v, step);
    if Enabled(w, step) {
      ActAlike(S, P, w, v, t, step);
      SettleAlike(P, w, v, Act(S, w, step), Act(S, v, step), HandlerOf(step), t, step.input.clock.store);
    } else {
      Later(P, w.core, v.core, t, step.input.clock.store);
    }
  }

  lemma ReplayOfOthers(P: Part, m: map<string, int>, key: string, v: int, now: int, t: int)
    requires now <= t && !P(KeySession(key))
    ensures SameKeyed(P, SweepReplay(SweepReplay(m, now), t), SweepReplay(m, t))
    ensures SameKeyed(P, SweepReplay(SweepReplay(m, now)[key := v], t), SweepReplay(m, t))
  {
  }

  lemma RoundsOfOthers(P: Part, m: map<string, CachedRound>, key: string, v: CachedRound, t: int)
    requires !P(KeySession(key))
    ensures SameKeyed(P, SweepRounds(m[key := v], t), SweepRounds(m, t))
  {
  }

  lemma CheckOthers(S: Setup, P: Part, st: State, env: Envelope, intent: Intent, signer: bytes, clock: Clock, t: int)
    requires clock.replay <= t && BarFree(env.session) && !P(env.session)
    ensures Alike(P, CheckIntent(S, st, env, intent, signer, clock).0, st, t)
  {
    IntentKeyNamesSession(env, intent, signer);
    AlikeToOthers(P, st, IntentKey(signer, env, intent), ExpiryOf(S, intent), clock.replay, t);
  }

  lemma AlikeToOthers(P: Part, st: State, key: string, v: int, now: int, t: int)
    requires now <= t && !P(KeySession(key))
    ensures var m := SweepReplay(st.replay, now);
            Alike(P, st, st, t) && Alike(P, st.(replay := m), st, t) && Alike(P, st.(replay := m[key := v]), st, t)
  {
    ReplayOfOthers(P, st.replay, key, v, now, t);
  }

  lemma CalledOthers(S: Setup, P: Part, st: State, env: Envelope, intent: Intent, signer: bytes, id: string,
        input: Input, out: StepOut)
    requires out.call.Some? && Called(S, st, env, intent, signer, id, input, out)
    requires BarFree(env.operation) && BarFree(env.session) && !P(env.session) && !P(id)
    ensures Alike(P, out.state, st, input.clock.store)
  {
    RoundKeyNamesSession(S, env);
    if !Refused(out) {
      var now := input.clock.store;
      RoundsOfOthers(P, st.rounds, RoundKey(S, env), CachedRound(now + THIRTY_MINUTES, out.outcome.reply), now);
    }
  }

  lemma AlikeTransitive(P: Part, a: State, b: State, c: State, t: int)
    requires Alike(P, a, b, t) && Alike(P, b, c, t)
    ensures Alike(P, a, c, t)
  {
  }

  /** What a segment that looks at the replay cache leaves alone: everything of other sessions. */
  lemma CheckedOthers(S: Setup, P: Part, st: State, env: Envelope, intent: Intent, signer: bytes, id: string,
        input: Input, out: StepOut, t: int)
    requires Checked(S, st, env, intent, signer, id, input, out) && Ordered(input.clock, t)
    requires BarFree(env.operation) && BarFree(env.session) && !P(env.session) && !P(id)
    ensures Alike(P, out.state, st, input.clock.store)
  {
    CheckOthers(S, P, st, env, intent, signer, input.clock, input.clock.store);
    if out.call.Some? {
      var st1 := CheckIntent(S, st, env, intent, signer, input.clock).0;
      CalledOthers(S, P, st1, env, intent, signer, id, input, out);
      AlikeTransitive(P, out.state, st1, st, input.clock.store);
    }
  }

  /** A step of another session changes nothing that the set looks at. */
  lemma OtherStep(S: Setup, P: Part, w: World, step: Step, t: int)
    requires Sound(S, w) && BarFree(S.behaviour.id)
    requires CleanStep(step) && !P(HandlerOf(step).0) && Ordered(step.input.clock, t)
    ensures Same(P, Next(S, w, step), w, step.input.clock.store)
  {
    if Enabled(w, step) {
      var st, out := w.core, Act(S, w, step);
      match step {
        case Arrive(_, env, input) =>
          DeliverShape(S, st, env, input);
          var st1 := Fresh(S, st, env, input);
          if !Idle(st1, out) {
            CheckedOthers(S, P, st1, env, env.intent.intent, st.rx[env.session].signer, st.rx[env.session].internal,
                          input, out, t);
          }
        case Resolved(_, _, peer, input) =>
          var p := w.pending[HandlerOf(step)];
          ResumeShape(S, st, p, peer, input);
          if !Idle(st, out) {
            CheckedOthers(S, P, st, p.env, p.intent, peer.value.publicKey, PickId(p.env.session, input.newId), input,
                          out, t);
          }
      }
    }
  }
}
