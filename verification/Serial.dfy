/**
 * Serialisability under the session lock: an interleaved run is the run of its handlers one after the
 * other, in the order in which they complete, with the clock readings they had.
 */
module Serial {
  import opened Wrappers
  import opened Bytes
  import opened Directives
  import opened Operations
  import opened Receiver
  import opened ReceiverRuns
  import opened ReceiverSafety
  import opened Keys
  import opened Isolation
  import opened Projection

  // --- a sweep of the round cache commutes with later segments ----------------------------------

  function Swept(st: State, t: int): State {
    st.(rounds := SweepRounds(st.rounds, t))
  }

  /** The same outcome, with the round cache swept at `t` as well. */
  function SweptOut(out: StepOut, t: int): StepOut {
    out.(state := Swept(out.state, t))
  }

  lemma SweepTwice(m: map<string, CachedRound>, t: int, u: int)
    requires t <= u
    ensures SweepRounds(SweepRounds(m, t), u) == SweepRounds(m, u) == SweepRounds(SweepRounds(m, u), t)
  {
  }

  lemma RememberSwept(S: Setup, st: State, env: Envelope, r: Reply, now: int, t: int)
    requires t <= now
    ensures Remember(S, Swept(st, t), env, r, now) == Swept(Remember(S, st, env, r, now), t)
  {
    var key, c := RoundKey(S, env), CachedRound(now + THIRTY_MINUTES, ReplyEnvelope(S, env, r));
    assert SweepRounds(st.rounds, t)[key := c] == SweepRounds(st.rounds[key := c], t);
  }

  lemma ContinueCallSwept(S: Setup, st: State, env: Envelope, intent: Intent, input: Input, t: int)
    requires env.session in st.rx && t <= input.clock.store
    ensures ContinueCall(S, Swept(st, t), env, intent, input) == SweptOut(ContinueCall(S, st, env, intent, input), t)
  {
    var rx := st.rx[env.session];
    var (r, ops) := Process(S.behaviour, st.ops, rx.internal, ToMessage(env), input.draws);
    if r.Ok? {
      var open := st.(ops := ops);
      var next := if r.value.done then open.(rx := WithoutRx(st.rx, env.session)) else open;
      RememberSwept(S, next, env, r.value, input.clock.store, t);
    }
  }

  lemma CheckIntentSwept(S: Setup, st: State, env: Envelope, intent: Intent, signer: bytes, clock: Clock, t: int)
    ensures var (st1, problem, swept) := CheckIntent(S, st, env, intent, signer, clock);
            CheckIntent(S, Swept(st, t), env, intent, signer, clock) == (Swept(st1, t), problem, swept)
  {
  }

  lemma ContinueVerifiedSwept(S: Setup, st: State, env: Envelope, intent: Intent, input: Input, t: int)
    requires env.session in st.rx && t <= input.clock.store
    ensures ContinueVerified(S, Swept(st, t), env, intent, input)
            == SweptOut(ContinueVerified(S, st, env, intent, input), t)
  {
    var signer := st.rx[env.session].signer;
    CheckIntentSwept(S, st, env, intent, signer, input.clock, t);
    ContinueCallSwept(S, CheckIntent(S, st, env, intent, signer, input.clock).0, env, intent, input, t);
  }

  lemma ContinueSwept(S: Setup, st: State, env: Envelope, input: Input, t: int)
    requires env.session in st.rx && t <= input.clock.store
    ensures Continue(S, Swept(st, t), env, input) == SweptOut(Continue(S, st, env, input), t)
  {
    if env.intent.Parsed? {
      ContinueVerifiedSwept(S, st, env, env.intent.intent, input, t);
    }
  }

  lemma OpenCallSwept(S: Setup, st: State, p: Pending, peer: Peer, input: Input, t: int)
    requires input.config.Some? && t <= input.clock.store
    ensures OpenCall(S, Swept(st, t), p, peer, input) == SweptOut(OpenCall(S, st, p, peer, input), t)
  {
    var sid := p.env.session;
    var (r, ops) := Receive(S.behaviour, st.ops, "receiver", ToMessage(p.env), input.config.value, sid, input.newId,
                            input.draws);
    if r.Ok? {
      var open := st.(ops := ops);
      var rx := st.rx[sid := RxSession(r.value.session, peer.publicKey, p.url, p.env.phase)];
      RememberSwept(S, if r.value.done then open else open.(rx := rx), p.env, r.value, input.clock.store, t);
    }
  }

  lemma OpenFinishSwept(S: Setup, st: State, p: Pending, peer: Peer, input: Input, t: int)
    requires t <= input.clock.store
    ensures OpenFinish(S, Swept(st, t), p, peer, input) == SweptOut(OpenFinish(S, st, p, peer, input), t)
  {
    CheckIntentSwept(S, st, p.env, p.intent, peer.publicKey, input.clock, t);
    if input.config.Some? {
      OpenCallSwept(S, CheckIntent(S, st, p.env, p.intent, peer.publicKey, input.clock).0, p, peer, input, t);
    }
  }

  lemma ResumeSwept(S: Setup, st: State, p: Pending, peer: Option<Peer>, input: Input, t: int)
    requires t <= input.clock.store
    ensures Resume(S, Swept(st, t), p, peer, input) == SweptOut(Resume(S, st, p, peer, input), t)
  {
    if peer.Some? {
      OpenFinishSwept(S, st, p, peer.value, input, t);
    }
  }

  /** A delivery that sweeps at or after `t` anyway. */
  lemma HandleSwept(S: Setup, st: State, env: Envelope, input: Input, t: int)
    requires Swept(st, t) == st && t <= input.clock.store
    ensures SweptOut(Handle(S, st, env, input), t) == Handle(S, st, env, input)
  {
    if RoundKey(S, env) !in st.rounds && env.session in st.rx {
      ContinueSwept(S, st, env, input, t);
    }
  }

  lemma DeliverSwept(S: Setup, st: State, env: Envelope, input: Input, t: int)
    requires Ordered(input.clock, t)
    ensures Deliver(S, Swept(st, t), env, input) == SweptOut(Deliver(S, st, env, input), t)
  {
    var now := input.clock.dedupe;
    SweepTwice(st.rounds, t, now);
    assert Swept(Swept(st, t), now) == Swept(st, now) == Swept(Swept(st, now), t);
    if Understood(S, env) {
      HandleSwept(S, Swept(st, now), env, input, t);
    }
  }

  // --- a segment that ends waiting commutes with later ones of other sessions -----------------------

  ghost predicate Waits(S: Setup, w: World, a: Step) {
    Enabled(w, a) && Act(S, w, a).outcome.Awaiting?
  }

  /** All that a waiting segment does to the state. */
  function Cleared(st: State, a: Step): State {
    if a.Arrive? then Swept(st, a.input.clock.dedupe) else st
  }

  function Suspended(w: World, a: Step, p: Pending): World {
    World(Cleared(w.core, a), w.pending[HandlerOf(a) := p])
  }

  lemma WaitingEffect(S: Setup, w: World, a: Step)
    requires Waits(S, w, a)
    ensures Next(S, w, a) == Suspended(w, a, Act(S, w, a).outcome.pending)
    ensures See(S, w, a) == Seen(Act(S, w, a).outcome, None)
  {
    match a
    case Arrive(_, env, input) => DeliverShape(S, w.core, env, input);
    case Resolved(_, _, peer, input) => ResumeShape(S, w.core, w.pending[HandlerOf(a)], peer, input);
  }

  /** `b` read the clock after `a` did. */
  predicate Reads(a: Step, b: Step) {
    a.Arrive? ==> Ordered(b.input.clock, a.input.clock.dedupe)
  }

  lemma StepSuspended(S: Setup, w: World, a: Step, p: Pending, b: Step)
    requires HandlerOf(b) != HandlerOf(a) && Reads(a, b)
    ensures See(S, Suspended(w, a, p), b) == See(S, w, b)
    ensures Next(S, Suspended(w, a, p), b) == Suspended(Next(S, w, b), a, p)
  {
    var v, t := Suspended(w, a, p), a.input.clock.dedupe;
    assert Enabled(v, b) <==> Enabled(w, b);
    if Enabled(w, b) {
      StepCleared(S, w, a, p, b);
      var ha, hb, out := HandlerOf(a), HandlerOf(b), Act(S, w, b).outcome;
      assert Settle(w.pending[ha := p], hb, out) == Settle(w.pending, hb, out)[ha := p];
    }
  }

  lemma StepCleared(S: Setup, w: World, a: Step, p: Pending, b: Step)
    requires HandlerOf(b) != HandlerOf(a) && Reads(a, b) && Enabled(w, b)
    ensures var out := Act(S, w, b);
            Act(S, Suspended(w, a, p), b) == out.(state := Cleared(out.state, a))
  {
    if a.Arrive? {
      var t := a.input.clock.dedupe;
      match b
      case Arrive(_, env, input) => DeliverSwept(S, w.core, env, input, t);
      case Resolved(_, _, peer, input) => ResumeSwept(S, w.core, w.pending[HandlerOf(b)], peer, input, t);
    }
  }

  /** The round cache gains no key of another session. */
  lemma StepRounds(S: Setup, w: World, b: Step, k: string)
    requires Sound(S, w) && CleanStep(b) && BarFree(S.behaviour.id) && KeySession(k) != HandlerOf(b).0
    ensures var v := Next(S, w, b).core.rounds; k in v ==> k in w.core.rounds && v[k] == w.core.rounds[k]
  {
    if Enabled(w, b) {
      var st, out := w.core, Act(S, w, b);
      match b {
        case Arrive(_, env, input) =>
          DeliverShape(S, st, env, input);
          var st1 := Fresh(S, st, env, input);
          if !Idle(st1, out) {
            var rx := st.rx[env.session];
            SegmentRounds(S, st1, env, env.intent.intent, rx.signer, rx.internal, input, out, k);
          }
        case Resolved(_, _, peer, input) =>
          var p := w.pending[HandlerOf(b)];
          ResumeShape(S, st, p, peer, input);
          if !Idle(st, out) {
            var id := PickId(p.env.session, input.newId);
            SegmentRounds(S, st, p.env, p.intent, peer.value.publicKey, id, input, out, k);
          }
      }
    }
  }

  lemma SegmentRounds(S: Setup, st: State, env: Envelope, intent: Intent, signer: bytes, id: string, input: Input,
        out: StepOut, k: string)
    requires Checked(S, st, env, intent, signer, id, input, out)
    requires BarFree(env.operation) && BarFree(env.session) && KeySession(k) != env.session
    ensures k in out.state.rounds ==> k in st.rounds && out.state.rounds[k] == st.rounds[k]
  {
    RoundKeyNamesSession(S, env);
  }

  /** An envelope of another operation or wire version. */
  predicate Ignored(S: Setup, step: Step) {
    step.Arrive? && !Understood(S, step.env)
  }

  /** A step of another session, or one that is skipped or ignored. */
  ghost predicate Apart(S: Setup, w: World, a: Step, b: Step) {
    && HandlerOf(a) != HandlerOf(b)
    && (Enabled(w, b) && !Ignored(S, b) ==> HandlerOf(a).0 != HandlerOf(b).0)
  }

  lemma IgnoredEffect(S: Setup, w: World, b: Step)
    requires Ignored(S, b) && Enabled(w, b)
    ensures Next(S, w, b) == w
  {
    var h := HandlerOf(b);
    assert (map k | k in w.pending && k != h :: w.pending[k]) == w.pending;
  }

  lemma StillWaits(S: Setup, w: World, a: Step, b: Step)
    requires Waits(S, w, a) && Apart(S, w, a, b)
    requires Sound(S, w) && CleanStep(a) && CleanStep(b) && BarFree(S.behaviour.id)
    ensures Waits(S, Next(S, w, b), a) && Act(S, Next(S, w, b), a).outcome == Act(S, w, a).outcome
  {
    if Enabled(w, b) && Ignored(S, b) {
      IgnoredEffect(S, w, b);
    } else if Enabled(w, b) {
      match a {
        case Arrive(_, env, input) => ArrivalWaits(S, w, env, input, b);
        case Resolved(_, _, peer, input) =>
          ResumptionWaits(S, w.core, Next(S, w, b).core, w.pending[HandlerOf(a)], peer, input);
      }
    }
  }

  /** Whether a resumed handler waits does not depend on the state. */
  lemma ResumptionWaits(S: Setup, st: State, st1: State, p: Pending, peer: Option<Peer>, input: Input)
    requires Resume(S, st, p, peer, input).outcome.Awaiting?
    ensures Resume(S, st1, p, peer, input).outcome == Resume(S, st, p, peer, input).outcome
  {
    ResumeShape(S, st, p, peer, input);
  }

  /** A delivery that waits still does so after a step of another session. */
  lemma ArrivalWaits(S: Setup, w: World, env: Envelope, input: Input, b: Step)
    requires Sound(S, w) && CleanStep(b) && BarFree(S.behaviour.id) && BarFree(env.session)
    requires Enabled(w, b) && HandlerOf(b).0 != env.session && Deliver(S, w.core, env, input).outcome.Awaiting?
    ensures Deliver(S, Next(S, w, b).core, env, input).outcome == Deliver(S, w.core, env, input).outcome
  {
    DeliverShape(S, w.core, env, input);
    RoundKeyNamesSession(S, env);
    StepRounds(S, w, b, RoundKey(S, env));
    CallSession(S, w, b);
    TablesChangeByCalls(S, w, b, env.session);
    DeliverWaits(S, w.core, Next(S, w, b).core, env, input);
  }

  /** Whether a delivery waits depends on its cache key and on its session being open. */
  lemma DeliverWaits(S: Setup, st: State, st1: State, env: Envelope, input: Input)
    requires Deliver(S, st, env, input).outcome.Awaiting? && env.session !in st1.rx
    requires var k := RoundKey(S, env); k in st1.rounds ==> k in st.rounds && st1.rounds[k] == st.rounds[k]
    ensures Deliver(S, st1, env, input).outcome == Deliver(S, st, env, input).outcome
  {
    DeliverShape(S, st, env, input);
  }

  /** The two orders show the same and lead to the same world. */
  lemma WaitingCommutes(S: Setup, w: World, a: Step, b: Step)
    requires Waits(S, w, a) && Apart(S, w, a, b) && Reads(a, b)
    requires Sound(S, w) && CleanStep(a) && CleanStep(b) && BarFree(S.behaviour.id)
    ensures See(S, Next(S, w, a), b) == See(S, w, b) && See(S, Next(S, w, b), a) == See(S, w, a)
    ensures Next(S, Next(S, w, a), b) == Next(S, Next(S, w, b), a) && Waits(S, Next(S, w, b), a)
  {
    WaitingEffect(S, w, a);
    StepSuspended(S, w, a, Act(S, w, a).outcome.pending, b);
    StillWaits(S, w, a, b);
    WaitingEffect(S, Next(S, w, b), a);
  }

  // --- logs -----------------------------------------------------------------------------------------

  /** A step and what is seen of it. */
  datatype Event = Event(step: Step, seen: Seen) {
    function By(): Handler {
      HandlerOf(step)
    }

    predicate Waiting() {
      seen.Seen? && seen.outcome.Awaiting?
    }
  }

  function Log(S: Setup, w: World, steps: seq<Step>): seq<Event> {
    if steps == [] then []
    else
      var n := |steps| - 1;
      Log(S, w, steps[..n]) + [Event(steps[n], See(S, Run(S, w, steps[..n]), steps[n]))]
  }

  function Steps(es: seq<Event>): (steps: seq<Step>)
    ensures |steps| == |es|
  {
    seq(|es|, i requires 0 <= i < |es| => es[i].step)
  }

  /** From `w`, the steps of `es` show what `es` says. */
  ghost predicate Plays(S: Setup, w: World, es: seq<Event>)
    decreases |es|
  {
    es != [] ==> See(S, w, es[0].step) == es[0].seen && Plays(S, Next(S, w, es[0].step), es[1..])
  }

  function Final(S: Setup, w: World, es: seq<Event>): World
    decreases |es|
  {
    if es == [] then w else Final(S, Next(S, w, es[0].step), es[1..])
  }

  lemma {:induction false} PlaysAppend(S: Setup, w: World, xs: seq<Event>, ys: seq<Event>)
    ensures Plays(S, w, xs + ys) <==> Plays(S, w, xs) && Plays(S, Final(S, w, xs), ys)
    ensures Final(S, w, xs + ys) == Final(S, Final(S, w, xs), ys)
    decreases |xs|
  {
    if xs == [] {
      assert xs + ys == ys;
    } else {
      assert (xs + ys)[1..] == xs[1..] + ys;
      PlaysAppend(S, Next(S, w, xs[0].step), xs[1..], ys);
    }
  }

  lemma {:induction false} PlaysIsLog(S: Setup, w: World, es: seq<Event>)
    requires Plays(S, w, es)
    ensures Log(S, w, Steps(es)) == es && Run(S, w, Steps(es)) == Final(S, w, es)
    decreases |es|
  {
    if es != [] {
      var n := |es| - 1;
      var front, last := es[..n], es[n];
      assert es == front + [last];
      PlaysAppend(S, w, front, [last]);
      PlaysIsLog(S, w, front);
      LogSnoc(S, w, Steps(front), last.step);
      assert Steps(es) == Steps(front) + [last.step];
    }
  }

  lemma LogSnoc(S: Setup, w: World, steps: seq<Step>, step: Step)
    ensures Log(S, w, steps + [step]) == Log(S, w, steps) + [Event(step, See(S, Run(S, w, steps), step))]
    ensures Run(S, w, steps + [step]) == Next(S, Run(S, w, steps), step)
  {
    assert (steps + [step])[..|steps|] == steps;
  }

  lemma {:induction false} LogPlays(S: Setup, w: World, steps: seq<Step>)
    ensures Plays(S, w, Log(S, w, steps)) && Final(S, w, Log(S, w, steps)) == Run(S, w, steps)
    decreases |steps|
  {
    if steps != [] {
      var n := |steps| - 1;
      LogPlays(S, w, steps[..n]);
      PlaysAppend(S, w, Log(S, w, steps[..n]), [Event(steps[n], See(S, Run(S, w, steps[..n]), steps[n]))]);
    }
  }

  ghost predicate CleanEvents(S: Setup, es: seq<Event>) {
    BarFree(S.behaviour.id) && forall i :: 0 <= i < |es| ==> CleanStep(es[i].step)
  }

  // --- moving waiting segments ------------------------------------------------------------------------

  /** `x` comes after the waiting segment `a` and belongs to another session, or is skipped or ignored. */
  predicate Passes(S: Setup, a: Event, x: Event) {
    && a.By() != x.By() && Reads(a.step, x.step)
    && (x.seen.Skipped? || Ignored(S, x.step) || a.By().0 != x.By().0)
  }

  lemma {:induction false} MovePast(S: Setup, w: World, a: Event, xs: seq<Event>)
    requires Plays(S, w, [a] + xs) && a.Waiting() && Sound(S, w) && CleanEvents(S, [a] + xs)
    requires forall i :: 0 <= i < |xs| ==> Passes(S, a, xs[i])
    ensures Plays(S, w, xs + [a]) && Final(S, w, xs + [a]) == Final(S, w, [a] + xs)
    decreases |xs|
  {
    if xs == [] {
      assert xs + [a] == [a] + xs;
    } else {
      var b, ys := xs[0], xs[1..];
      var w1 := Next(S, w, b.step);
      assert ([a] + xs)[1..] == xs && xs == [b] + ys && ([a] + ys)[1..] == ys && (xs + [a])[1..] == ys + [a];
      assert CleanStep(([a] + xs)[0].step) && CleanStep(([a] + xs)[1].step);
      assert Passes(S, a, b);
      EnabledAlike(S, w, a.step, b.step);
      WaitingCommutes(S, w, a.step, b.step);
      SoundKept(S, w, b.step);
      forall i | 0 <= i < |[a] + ys|
        ensures CleanStep(([a] + ys)[i].step)
      {
        assert ([a] + ys)[i] == ([a] + xs)[if i == 0 then 0 else i + 1];
      }
      MovePast(S, w1, a, ys);
    }
  }

  /** A step does not change which steps of other handlers are enabled. */
  lemma EnabledAlike(S: Setup, w: World, a: Step, b: Step)
    requires HandlerOf(a) != HandlerOf(b)
    ensures Enabled(Next(S, w, a), b) <==> Enabled(w, b)
  {
  }

  function Own(es: seq<Event>, h: Handler): seq<Event> {
    if es == [] then [] else (if es[0].By() == h then [es[0]] else []) + Own(es[1..], h)
  }

  function Rest(es: seq<Event>, h: Handler): seq<Event> {
    if es == [] then [] else (if es[0].By() == h then [] else [es[0]]) + Rest(es[1..], h)
  }

  /** Events of one handler, or of two sessions, or the later one is skipped or ignored; and in clock order. */
  predicate Compatible(S: Setup, a: Event, x: Event) {
    && Reads(a.step, x.step)
    && (a.By() == x.By() || x.seen.Skipped? || Ignored(S, x.step) || a.By().0 != x.By().0)
  }

  ghost predicate InOrder(S: Setup, es: seq<Event>) {
    forall i, j :: 0 <= i < j < |es| ==> Compatible(S, es[i], es[j])
  }

  lemma {:induction false} OwnMembers(es: seq<Event>, h: Handler)
    ensures forall e :: e in Own(es, h) <==> e in es && e.By() == h
    ensures forall e :: e in Rest(es, h) <==> e in es && e.By() != h
    ensures multiset(Own(es, h)) + multiset(Rest(es, h)) == multiset(es)
    decreases |es|
  {
    if es != [] {
      OwnMembers(es[1..], h);
      assert es == [es[0]] + es[1..];
    }
  }

  lemma InOrderTail(S: Setup, es: seq<Event>)
    requires es != [] && InOrder(S, es)
    ensures InOrder(S, es[1..])
    ensures forall e :: e in es[1..] ==> Compatible(S, es[0], e)
  {
  }

  /** `b` and the segments of its handler, then what waits of other handlers. */
  function Gathered(o: seq<Event>, b: Event): seq<Event> {
    Own(o, b.By()) + [b] + Rest(o, b.By())
  }

  lemma {:induction false} Gather(S: Setup, w: World, o: seq<Event>, b: Event)
    requires Plays(S, w, o + [b]) && Sound(S, w) && CleanEvents(S, o + [b]) && InOrder(S, o + [b])
    requires forall e :: e in o ==> e.Waiting()
    ensures Plays(S, w, Gathered(o, b)) && Final(S, w, Gathered(o, b)) == Final(S, w, o + [b])
    decreases |o|
  {
    if o == [] {
      assert o + [b] == [b] && Gathered(o, b) == [b];
    } else {
      var a, rest := o[0], o[1..];
      assert o == [a] + rest && (o + [b])[1..] == rest + [b] && (o + [b])[0] == a;
      CleanTail(S, o + [b]);
      InOrderTail(S, o + [b]);
      SoundKept(S, w, a.step);
      Gather(S, Next(S, w, a.step), rest, b);
      assert ([a] + Gathered(rest, b))[1..] == Gathered(rest, b);
      if a.By() == b.By() {
        assert Gathered(o, b) == [a] + Gathered(rest, b);
      } else {
        GatherPast(S, w, a, rest, b);
      }
    }
  }

  lemma CleanTail(S: Setup, es: seq<Event>)
    requires es != [] && CleanEvents(S, es)
    ensures CleanEvents(S, es[1..]) && CleanStep(es[0].step)
  {
  }

  /** The waiting segment `a` of another handler goes behind `b` and its segments. */
  lemma GatherPast(S: Setup, w: World, a: Event, o: seq<Event>, b: Event)
    requires Plays(S, w, [a] + Gathered(o, b)) && a.Waiting() && a.By() != b.By() && Sound(S, w)
    requires BarFree(S.behaviour.id) && CleanStep(a.step) && CleanEvents(S, o + [b])
    requires forall e :: e in o + [b] ==> Compatible(S, a, e)
    requires forall e :: e in o ==> e.Waiting()
    ensures Plays(S, w, Gathered([a] + o, b))
    ensures Final(S, w, Gathered([a] + o, b)) == Final(S, w, [a] + Gathered(o, b))
  {
    var own, rest := Own(o, b.By()) + [b], Rest(o, b.By());
    PassesOwn(S, a, o, b);
    CleanOwn(S, a, o, b);
    GatheredParts(a, o, b);
    PlaysAppend(S, w, [a] + own, rest);
    MovePast(S, w, a, own);
    PlaysAppend(S, w, own + [a], rest);
  }

  lemma GatheredParts(a: Event, o: seq<Event>, b: Event)
    requires a.By() != b.By()
    ensures var own, rest := Own(o, b.By()) + [b], Rest(o, b.By());
            [a] + Gathered(o, b) == ([a] + own) + rest && Gathered([a] + o, b) == (own + [a]) + rest
  {
    assert ([a] + o)[1..] == o;
    assert Own([a] + o, b.By()) == [] + Own(o, b.By()) == Own(o, b.By());
  }

  lemma PassesOwn(S: Setup, a: Event, o: seq<Event>, b: Event)
    requires a.By() != b.By() && forall e :: e in o + [b] ==> Compatible(S, a, e)
    requires forall e :: e in o ==> e.Waiting()
    ensures var own := Own(o, b.By()) + [b]; forall i :: 0 <= i < |own| ==> Passes(S, a, own[i])
  {
    var own := Own(o, b.By()) + [b];
    OwnMembers(o, b.By());
    forall i | 0 <= i < |own|
      ensures Passes(S, a, own[i])
    {
      assert own[i] in o + [b];
      assert own[i] in Own(o, b.By()) || own[i] == b;
    }
  }

  lemma CleanOwn(S: Setup, a: Event, o: seq<Event>, b: Event)
    requires BarFree(S.behaviour.id) && CleanStep(a.step) && CleanEvents(S, o + [b])
    ensures CleanEvents(S, [a] + (Own(o, b.By()) + [b]))
  {
    var own, es := Own(o, b.By()), [a] + (Own(o, b.By()) + [b]);
    OwnMembers(o, b.By());
    forall i | 0 <= i < |es|
      ensures CleanStep(es[i].step)
    {
      assert es[i] == a || es[i] in o + [b];
    }
  }

  // --- the serial order ------------------------------------------------------------------------------

  /** The blocks of the handlers that completed, in the order in which they did, and what still waits. */
  function Split(es: seq<Event>): (seq<seq<Event>>, seq<Event>) {
    if es == [] then ([], [])
    else
      var n := |es| - 1;
      var (blocks, open) := Split(es[..n]);
      var e := es[n];
      if e.Waiting() then (blocks, open + [e]) else (blocks + [Own(open, e.By()) + [e]], Rest(open, e.By()))
  }

  function Flatten(blocks: seq<seq<Event>>): seq<Event> {
    if blocks == [] then [] else Flatten(blocks[..|blocks| - 1]) + blocks[|blocks| - 1]
  }

  /** One handler after the other; handlers that never completed come last. */
  function SerialOrder(es: seq<Event>): seq<Event> {
    Flatten(Split(es).0) + Split(es).1
  }

  /** What is known of a waiting segment set aside, in the world `v` reached so far. */
  ghost predicate Aside(e: Event, v: World, now: int) {
    && e.Waiting() && e.By() in v.pending && CleanStep(e.step)
    && (e.step.Arrive? ==> e.step.input.clock.dedupe <= now)
  }

  ghost predicate SetAside(S: Setup, open: seq<Event>, v: World, now: int) {
    InOrder(S, open) && forall e :: e in open ==> Aside(e, v, now)
  }

  lemma PendingElsewhere(S: Setup, w: World, step: Step, h: Handler)
    requires h != HandlerOf(step)
    ensures h in Next(S, w, step).pending <==> h in w.pending
  {
  }

  lemma OrderedNext(S: Setup, open: seq<Event>, v: World, now: int, e: Event)
    requires SetAside(S, open, v, now) && Quiet(v) && Ordered(e.step.input.clock, now)
    requires e.seen == See(S, v, e.step) && Admits(S, v, e.step)
    ensures InOrder(S, open + [e])
  {
    var es := open + [e];
    forall i, j | 0 <= i < j < |es|
      ensures Compatible(S, es[i], es[j])
    {
      assert es[i] == open[i] && open[i] in open;
      if j < |open| {
        assert es[j] == open[j];
      }
    }
  }

  lemma {:induction false} MonotoneAt(steps: seq<Step>, t: int, n: nat)
    requires Monotone(steps, t) && n < |steps|
    ensures Ordered(steps[n].input.clock, End(steps[..n], t))
    decreases |steps|
  {
    var m := |steps| - 1;
    if n < m {
      MonotoneAt(steps[..m], t, n);
      assert steps[..m][..n] == steps[..n];
    }
  }

  lemma CleanOpen(S: Setup, open: seq<Event>, e: Event)
    requires BarFree(S.behaviour.id) && CleanStep(e.step) && forall x :: x in open ==> CleanStep(x.step)
    ensures CleanEvents(S, open + [e])
  {
    var es := open + [e];
    forall i | 0 <= i < |es|
      ensures CleanStep(es[i].step)
    {
      assert es[i] in open || es[i] == e;
    }
  }

  lemma InOrderRest(S: Setup, es: seq<Event>, h: Handler)
    requires InOrder(S, es)
    ensures InOrder(S, Rest(es, h))
    decreases |es|
  {
    if es != [] {
      InOrderTail(S, es);
      InOrderRest(S, es[1..], h);
      OwnMembers(es[1..], h);
      var rest := Rest(es, h);
      forall i, j | 0 <= i < j < |rest|
        ensures Compatible(S, rest[i], rest[j])
      {
        if rest == [es[0]] + Rest(es[1..], h) {
          assert rest[j] == Rest(es[1..], h)[j - 1];
          if i > 0 {
            assert rest[i] == Rest(es[1..], h)[i - 1];
          }
        }
      }
    }
  }

  /** One more step of the run: what is set aside stays so, unless it is of the handler that completed. */
  lemma AsideNext(S: Setup, x: Event, v: World, now: int, e: Event)
    requires Ordered(e.step.input.clock, now) && e.seen == See(S, v, e.step) && CleanStep(e.step)
    requires if x.By() == e.By() then e.Waiting() && (x == e || Aside(x, v, now)) else Aside(x, v, now)
    ensures Aside(x, Next(S, v, e.step), e.step.input.clock.store)
  {
    if x.By() != e.By() {
      PendingElsewhere(S, v, e.step, x.By());
    }
  }

  lemma AsideKept(S: Setup, open: seq<Event>, v: World, now: int, e: Event)
    requires SetAside(S, open, v, now) && InOrder(S, open + [e]) && CleanStep(e.step)
    requires Ordered(e.step.input.clock, now) && e.seen == See(S, v, e.step)
    ensures SetAside(S, StillOpen(open, e), Next(S, v, e.step), e.step.input.clock.store)
  {
    InOrderRest(S, open, e.By());
    OwnMembers(open, e.By());
    forall x | x in StillOpen(open, e)
      ensures Aside(x, Next(S, v, e.step), e.step.input.clock.store)
    {
      assert x == e || Aside(x, v, now);
      AsideNext(S, x, v, now, e);
    }
  }

  function StillOpen(open: seq<Event>, e: Event): seq<Event> {
    if e.Waiting() then open + [e] else Rest(open, e.By())
  }

  /** Nothing is lost and nothing is added. */
  lemma {:induction false} SerialPermutes(es: seq<Event>)
    ensures multiset(SerialOrder(es)) == multiset(es)
    decreases |es|
  {
    if es != [] {
      var n := |es| - 1;
      var (blocks, open) := Split(es[..n]);
      var e := es[n];
      SerialPermutes(es[..n]);
      assert es == es[..n] + [e];
      if !e.Waiting() {
        PermutesNext(blocks, open, e);
      }
    }
  }

  lemma PermutesNext(blocks: seq<seq<Event>>, open: seq<Event>, e: Event)
    ensures multiset(Flatten(blocks + [Own(open, e.By()) + [e]]) + Rest(open, e.By()))
            == multiset(Flatten(blocks) + open) + multiset{e}
  {
    OwnMembers(open, e.By());
    FlattenSnoc(blocks, Own(open, e.By()) + [e]);
  }

  lemma FlattenSnoc(blocks: seq<seq<Event>>, block: seq<Event>)
    ensures Flatten(blocks + [block]) == Flatten(blocks) + block
  {
    assert (blocks + [block])[..|blocks|] == blocks;
  }

  lemma {:induction false} LogIsClean(S: Setup, w: World, steps: seq<Step>)
    requires AllClean(S, steps)
    ensures forall e :: e in Log(S, w, steps) ==> CleanStep(e.step)
    decreases |steps|
  {
    if steps != [] {
      LogIsClean(S, w, steps[..|steps| - 1]);
    }
  }

  lemma {:induction false} SoundFinal(S: Setup, w: World, es: seq<Event>)
    requires Sound(S, w) && forall e :: e in es ==> CleanStep(e.step)
    ensures Sound(S, Final(S, w, es))
    decreases |es|
  {
    if es != [] {
      assert es[0] in es;
      SoundKept(S, w, es[0].step);
      SoundFinal(S, Next(S, w, es[0].step), es[1..]);
    }
  }

  lemma SoundDone(S: Setup, w: World, steps: seq<Step>, n: nat)
    requires Sound(S, w) && AllClean(S, steps) && n <= |steps|
    ensures Sound(S, Final(S, w, Flatten(Split(Log(S, w, steps[..n])).0)))
  {
    var es := Log(S, w, steps[..n]);
    var done := Flatten(Split(es).0);
    LogIsClean(S, w, steps[..n]);
    SerialPermutes(es);
    forall e | e in done
      ensures CleanStep(e.step)
    {
      assert e in multiset(SerialOrder(es));
    }
    SoundFinal(S, w, done);
  }

  /** The serial order of a run plays as it says and leads to the same world. */
  lemma {:induction false} Reordered(S: Setup, w: World, steps: seq<Step>, t: int, n: nat)
    requires Guarded(S, w, steps, t) && n <= |steps|
    ensures var es := Log(S, w, steps[..n]);
            && Plays(S, w, SerialOrder(es)) && Final(S, w, SerialOrder(es)) == Before(S, w, steps, n)
            && SetAside(S, Split(es).1, Before(S, w, steps, n), End(steps[..n], t))
    decreases n
  {
    if n > 0 {
      var m := n - 1;
      var front, v, step := steps[..m], Before(S, w, steps, m), steps[m];
      var es, e := Log(S, w, front), Event(step, See(S, v, step));
      assert steps[..n][..m] == front;
      assert Log(S, w, steps[..n]) == es + [e] && (es + [e])[..|es|] == es;
      Reordered(S, w, steps, t, m);
      MonotoneAt(steps, t, m);
      CleanIsNamed(S, steps);
      QuietRun(S, w, steps, m);
      RunStep(S, w, steps, m);
      var (blocks, open) := Split(es);
      OrderedNext(S, open, v, End(front, t), e);
      AsideKept(S, open, v, End(front, t), e);
      CleanOpen(S, open, e);
      SoundDone(S, w, steps, m);
      ReorderedStep(S, w, blocks, open, v, e);
    }
  }

  lemma ReorderedStep(S: Setup, w: World, blocks: seq<seq<Event>>, open: seq<Event>, v: World, e: Event)
    requires Plays(S, w, Flatten(blocks) + open) && Final(S, w, Flatten(blocks) + open) == v
    requires e.seen == See(S, v, e.step) && InOrder(S, open + [e]) && Sound(S, Final(S, w, Flatten(blocks)))
    requires CleanEvents(S, open + [e]) && forall x :: x in open ==> x.Waiting()
    ensures var es := if e.Waiting() then Flatten(blocks) + (open + [e])
                      else Flatten(blocks + [Own(open, e.By()) + [e]]) + Rest(open, e.By());
            Plays(S, w, es) && Final(S, w, es) == Next(S, v, e.step)
  {
    var done := Flatten(blocks);
    PlaysOneMore(S, w, done, open, e);
    if !e.Waiting() {
      GatherAfter(S, w, done, open, e);
      GatheredBlock(blocks, open, e);
    }
  }

  lemma GatherAfter(S: Setup, w: World, done: seq<Event>, open: seq<Event>, e: Event)
    requires Plays(S, w, done + (open + [e])) && Sound(S, Final(S, w, done))
    requires CleanEvents(S, open + [e]) && InOrder(S, open + [e]) && forall x :: x in open ==> x.Waiting()
    ensures Plays(S, w, done + Gathered(open, e))
    ensures Final(S, w, done + Gathered(open, e)) == Final(S, w, done + (open + [e]))
  {
    PlaysAppend(S, w, done, open + [e]);
    Gather(S, Final(S, w, done), open, e);
    PlaysAppend(S, w, done, Gathered(open, e));
  }

  lemma GatheredBlock(blocks: seq<seq<Event>>, open: seq<Event>, e: Event)
    ensures Flatten(blocks) + Gathered(open, e)
            == Flatten(blocks + [Own(open, e.By()) + [e]]) + Rest(open, e.By())
  {
    FlattenSnoc(blocks, Own(open, e.By()) + [e]);
  }

  lemma PlaysOneMore(S: Setup, w: World, done: seq<Event>, open: seq<Event>, e: Event)
    requires Plays(S, w, done + open) && e.seen == See(S, Final(S, w, done + open), e.step)
    ensures Plays(S, w, done + (open + [e]))
    ensures Final(S, w, done + (open + [e])) == Next(S, Final(S, w, done + open), e.step)
  {
    PlaysAppend(S, w, done + open, [e]);
    assert (done + open) + [e] == done + (open + [e]);
  }

  /**
   * Serialisability: under the session lock, a run shows at every step what the serial run with the
   * same clock readings shows, and both lead to the same world.
   */
  lemma Serialisable(S: Setup, w: World, steps: seq<Step>, t: int)
    requires Guarded(S, w, steps, t)
    ensures var es := Log(S, w, steps);
            && Log(S, w, Steps(SerialOrder(es))) == SerialOrder(es) && multiset(SerialOrder(es)) == multiset(es)
            && Run(S, w, Steps(SerialOrder(es))) == Run(S, w, steps)
  {
    assert steps[..|steps|] == steps;
    Reordered(S, w, steps, t, |steps|);
    SerialPermutes(Log(S, w, steps));
    PlaysIsLog(S, w, SerialOrder(Log(S, w, steps)));
  }

  // --- the blocks are whole handlers --------------------------------------------------------------

  /** A handler from its arrival to its completion, or the rest of one that already waited in `w`. */
  ghost predicate Whole(w: World, block: seq<Event>) {
    && block != [] && !block[|block| - 1].Waiting()
    && (forall i :: 0 <= i < |block| - 1 ==> block[i].Waiting())
    && (forall i :: 0 <= i < |block| ==> block[i].By() == block[0].By())
    && (forall i :: 0 < i < |block| ==> block[i].step.Resolved?)
    && (block[0].step.Arrive? || block[0].By() in w.pending || block[0].seen.Skipped?)
  }

  /** The segments of a handler set aside so far. */
  ghost predicate Begun(w: World, v: World, open: seq<Event>, h: Handler) {
    var own := Own(open, h);
    && (forall i :: 0 < i < |own| ==> own[i].step.Resolved?)
    && (own != [] ==> own[0].step.Arrive? || h in w.pending)
    && (h in v.pending ==> own != [] || h in w.pending)
    && (own != [] ==> h in v.pending)
  }

  lemma {:induction false} OwnSnoc(es: seq<Event>, e: Event, h: Handler)
    ensures Own(es + [e], h) == Own(es, h) + (if e.By() == h then [e] else [])
    decreases |es|
  {
    if es == [] {
      assert es + [e] == [e];
    } else {
      assert (es + [e])[1..] == es[1..] + [e];
      OwnSnoc(es[1..], e, h);
    }
  }

  lemma {:induction false} OwnRest(es: seq<Event>, g: Handler, h: Handler)
    ensures Own(Rest(es, g), h) == if g == h then [] else Own(es, h)
    decreases |es|
  {
    if es != [] {
      var rest := Rest(es[1..], g);
      OwnRest(es[1..], g, h);
      if es[0].By() == g {
        assert Rest(es, g) == rest;
        assert g != h ==> Own(es, h) == Own(es[1..], h);
      } else {
        assert ([es[0]] + rest)[1..] == rest;
        assert Own([es[0]] + rest, h) == (if es[0].By() == h then [es[0]] else []) + Own(rest, h);
      }
    }
  }

  lemma BegunNext(S: Setup, w: World, v: World, open: seq<Event>, e: Event, h: Handler)
    requires Begun(w, v, open, h) && e.seen == See(S, v, e.step) && (e.step.Arrive? ==> e.By() !in v.pending)
    ensures Begun(w, Next(S, v, e.step), StillOpen(open, e), h)
  {
    OwnSnoc(open, e, h);
    OwnRest(open, e.By(), h);
    if h != e.By() {
      PendingElsewhere(S, v, e.step, h);
    }
  }

  lemma {:induction false} OwnEvents(es: seq<Event>, h: Handler)
    ensures forall i :: 0 <= i < |Own(es, h)| ==> Own(es, h)[i] in es && Own(es, h)[i].By() == h
    decreases |es|
  {
    OwnMembers(es, h);
  }

  lemma BlockIsWhole(S: Setup, w: World, v: World, open: seq<Event>, e: Event)
    requires Begun(w, v, open, e.By()) && e.seen == See(S, v, e.step) && (e.step.Arrive? ==> e.By() !in v.pending)
    requires !e.Waiting() && forall x :: x in open ==> x.Waiting()
    ensures Whole(w, Own(open, e.By()) + [e])
  {
    OwnEvents(open, e.By());
  }

  /** The events that completed their handlers, in order. */
  function Completions(es: seq<Event>): seq<Event> {
    if es == [] then []
    else
      var n := |es| - 1;
      Completions(es[..n]) + (if es[n].Waiting() then [] else [es[n]])
  }

  /** The last events of the blocks. */
  function Ends(blocks: seq<seq<Event>>): seq<Event> {
    if blocks == [] then []
    else
      var last := blocks[|blocks| - 1];
      Ends(blocks[..|blocks| - 1]) + (if last == [] then [] else [last[|last| - 1]])
  }

  lemma {:induction false} EndsAreCompletions(es: seq<Event>)
    ensures Ends(Split(es).0) == Completions(es)
    decreases |es|
  {
    if es != [] {
      var n := |es| - 1;
      EndsAreCompletions(es[..n]);
      var (blocks, open) := Split(es[..n]);
      var block := Own(open, es[n].By()) + [es[n]];
      assert (blocks + [block])[..|blocks|] == blocks;
    }
  }

  ghost predicate Handlers(w: World, v: World, blocks: seq<seq<Event>>, open: seq<Event>) {
    && (forall block :: block in blocks ==> Whole(w, block))
    && (forall e :: e in open ==> e.Waiting())
    && (forall h :: Begun(w, v, open, h))
  }

  lemma HandlersNext(S: Setup, w: World, v: World, blocks: seq<seq<Event>>, open: seq<Event>, e: Event)
    requires Handlers(w, v, blocks, open) && e.seen == See(S, v, e.step) && (e.step.Arrive? ==> e.By() !in v.pending)
    ensures var blocks1 := if e.Waiting() then blocks else blocks + [Own(open, e.By()) + [e]];
            Handlers(w, Next(S, v, e.step), blocks1, StillOpen(open, e))
  {
    forall h ensures Begun(w, Next(S, v, e.step), StillOpen(open, e), h) {
      assert Begun(w, v, open, h);
      BegunNext(S, w, v, open, e, h);
    }
    if !e.Waiting() {
      assert Begun(w, v, open, e.By());
      BlockIsWhole(S, w, v, open, e);
      OwnMembers(open, e.By());
    }
  }

  lemma {:induction false} HandlersRun(S: Setup, w: World, steps: seq<Step>, t: int, n: nat)
    requires Guarded(S, w, steps, t) && n <= |steps|
    ensures var (blocks, open) := Split(Log(S, w, steps[..n])); Handlers(w, Before(S, w, steps, n), blocks, open)
    decreases n
  {
    if n > 0 {
      var m := n - 1;
      var es, e := Log(S, w, steps[..m]), Event(steps[m], See(S, Before(S, w, steps, m), steps[m]));
      assert steps[..n][..m] == steps[..m];
      assert Log(S, w, steps[..n]) == es + [e] && (es + [e])[..|es|] == es;
      HandlersRun(S, w, steps, t, m);
      RunStep(S, w, steps, m);
      assert Admits(S, Before(S, w, steps, m), steps[m]);
      HandlersNext(S, w, Before(S, w, steps, m), Split(es).0, Split(es).1, e);
    }
  }

  /**
   * In the serial order, whole handlers follow one another in the order in which they completed, and
   * segments of handlers that never did come last.
   */
  lemma BlocksAreHandlers(S: Setup, w: World, steps: seq<Step>, t: int)
    requires Guarded(S, w, steps, t)
    ensures var es := Log(S, w, steps);
            && (forall block :: block in Split(es).0 ==> Whole(w, block))
            && (forall e :: e in Split(es).1 ==> e.Waiting())
            && Ends(Split(es).0) == Completions(es)
  {
    assert steps[..|steps|] == steps;
    HandlersRun(S, w, steps, t, |steps|);
    EndsAreCompletions(Log(S, w, steps));
  }
}
