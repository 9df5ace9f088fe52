/** At-most-once is strict: a run in which one intent opens a session twice, the second time as it expires. */
module ExpiryInstant {
  import opened Wrappers
  import opened Directives
  import opened Operations
  import opened Receiver
  import opened ReceiverRuns
  import opened ReceiverSafety
  import opened Isolation
  import opened Crypto
  import opened PsiOperation
  import opened Projection

  /** An envelope that opens a session, and what the receiver resolves and draws for it. */
  datatype Opening = Opening(env: Envelope, intent: Intent, url: string, peer: Peer, config: Config, draws: Draws) {
    function Key(): string {
      IntentKey(peer.publicKey, env, intent)
    }

    function Sid(): string {
      env.session
    }
  }

  /** A later envelope of the session, with an intent of its own. */
  datatype Closing = Closing(env: Envelope, intent: Intent, draws: Draws)

  function Received(S: Setup, o: Opening): Result<StepResult, Failure> {
    S.behaviour.onProcess("receiver", map[], ToMessage(o.env), o.config, true, o.draws)
  }

  /** The opening passes every check until its intent expires. */
  ghost predicate Admissible(S: Setup, o: Opening) {
    && Addressed(S, o.env, o.intent, o.url) && o.Sid() != ""
    && Verified(S.services, o.intent, o.peer.publicKey) && S.compatible(o.peer)
    && IntentProblem(S, o.env, o.intent, ExpiryOf(S, o.intent)) == None
  }

  /** And the operation goes on from it. */
  ghost predicate Opens(S: Setup, o: Opening) {
    Admissible(S, o) && Received(S, o).Ok? && !Received(S, o).value.done
  }

  /** The later envelope is of the opener's session and key and passes every check at `t`. */
  ghost predicate Belongs(S: Setup, o: Opening, c: Closing, t: int) {
    && Understood(S, c.env) && c.env.session == o.Sid() && c.env.intent == Parsed(c.intent)
    && Verified(S.services, c.intent, o.peer.publicKey) && IntentProblem(S, c.env, c.intent, t) == None
    && c.env.phase != o.env.phase
    && RoundKey(S, c.env) != RoundKey(S, o.env) && IntentKey(o.peer.publicKey, c.env, c.intent) != o.Key()
  }

  /** And it fails in the operation. */
  ghost predicate Closes(S: Setup, o: Opening, c: Closing, t: int)
    requires Received(S, o).Ok?
  {
    && Belongs(S, o, c, t)
    && S.behaviour.onProcess("receiver", Received(S, o).value.next, ToMessage(c.env), o.config, false, c.draws).Err?
  }

  /** The inputs of a segment in which every reading of the clock is `t`. */
  function At(config: Config, draws: Draws, t: int): Input {
    Input(Clock(t, t, t, t), Some(config), draws, "")
  }

  function Arrival(o: Opening, n: nat, t: int): Step {
    Arrive(n, o.env, At(o.config, o.draws, t))
  }

  function Resolution(o: Opening, n: nat, t: int): Step {
    Resolved(o.Sid(), n, Some(o.peer), At(o.config, o.draws, t))
  }

  function Last(o: Opening, c: Closing, n: nat, t: int): Step {
    Arrive(n, c.env, At(o.config, c.draws, t))
  }

  /** Nobody waits, the session is closed, and at `t` no cache holds anything of the opening. */
  ghost predicate Forgotten(S: Setup, o: Opening, w: World, t: int) {
    && w.pending == map[] && o.Sid() !in w.core.rx
    && RoundKey(S, o.env) !in SweepRounds(w.core.rounds, t) && o.Key() !in SweepReplay(w.core.replay, t)
  }

  /** What the caches hold of the opening is gone at its expiry. */
  ghost predicate Fading(S: Setup, o: Opening, st: State) {
    var e := ExpiryOf(S, o.intent);
    && (RoundKey(S, o.env) in st.rounds ==> st.rounds[RoundKey(S, o.env)].expires <= e)
    && (o.Key() in st.replay ==> st.replay[o.Key()] <= e)
  }

  /** Nobody waits, the session is open, and the opening is all that the caches hold. */
  ghost predicate Open(S: Setup, o: Opening, w: World)
    requires Received(S, o).Ok?
  {
    && w.pending == map[] && Fading(S, o, w.core)
    && o.Sid() in w.core.rx && w.core.rx[o.Sid()] == RxSession(o.Sid(), o.peer.publicKey, o.url, o.env.phase)
    && o.Sid() in w.core.ops && w.core.ops[o.Sid()] == Session("receiver", Received(S, o).value.next, o.config)
    && (forall k :: k in w.core.rounds ==> k == RoundKey(S, o.env)) && (forall k :: k in w.core.replay ==> k == o.Key())
  }

  lemma Waits(S: Setup, o: Opening, w: World, n: nat, t: int)
    requires Opens(S, o) && Forgotten(S, o, w, t)
    ensures Enabled(w, Arrival(o, n, t))
    ensures Next(S, w, Arrival(o, n, t)) ==
            World(w.core.(rounds := SweepRounds(w.core.rounds, t)),
                  map[(o.Sid(), n) := Pending(o.env, o.intent, o.url, false)])
  {
  }

  /** Until it expires, the opening is served whenever it is forgotten. */
  lemma Served(S: Setup, o: Opening, w: World, n: nat, t: int)
    requires Opens(S, o) && Forgotten(S, o, w, t) && t <= ExpiryOf(S, o.intent)
    ensures var w1 := Next(S, w, Arrival(o, n, t));
            && Enabled(w1, Resolution(o, n, t))
            && Act(S, w1, Resolution(o, n, t)).call == Some(Call(true, o.env, o.intent, o.peer.publicKey, t))
  {
    Waits(S, o, w, n, t);
    assert IntentProblem(S, o.env, o.intent, t) == None;
    var w1, p := Next(S, w, Arrival(o, n, t)), Pending(o.env, o.intent, o.url, false);
    assert Act(S, w1, Resolution(o, n, t)) == OpenFinish(S, w1.core, p, o.peer, At(o.config, o.draws, t));
  }

  /** And it is answered without an error, which keeps the reply. */
  lemma ServedReply(S: Setup, o: Opening, w: World, n: nat, t: int)
    requires Opens(S, o) && Forgotten(S, o, w, t) && t <= ExpiryOf(S, o.intent)
    ensures var w1 := Next(S, w, Arrival(o, n, t));
            Enabled(w1, Resolution(o, n, t)) && !Refused(Act(S, w1, Resolution(o, n, t)))
  {
    Waits(S, o, w, n, t);
    assert IntentProblem(S, o.env, o.intent, t) == None;
    var w1, p := Next(S, w, Arrival(o, n, t)), Pending(o.env, o.intent, o.url, false);
    assert Act(S, w1, Resolution(o, n, t)) == OpenFinish(S, w1.core, p, o.peer, At(o.config, o.draws, t));
  }

  function Empty(): World {
    World(State(map[], map[], map[], map[]), map[])
  }

  lemma NobodyWaits(pending: map<Handler, Pending>, h: Handler, outcome: Outcome)
    requires pending.Keys <= {h} && !outcome.Awaiting?
    ensures Settle(pending, h, outcome) == map[]
  {
  }

  /** Served thirty minutes before its expiry in a new core, it leaves an open session. */
  lemma Opened(S: Setup, o: Opening, n: nat, t: int)
    requires Opens(S, o) && t == ExpiryOf(S, o.intent) - THIRTY_MINUTES
    ensures Open(S, o, Next(S, Next(S, Empty(), Arrival(o, n, t)), Resolution(o, n, t)))
  {
    Waits(S, o, Empty(), n, t);
    assert IntentProblem(S, o.env, o.intent, t) == None;
    var w1, p := Next(S, Empty(), Arrival(o, n, t)), Pending(o.env, o.intent, o.url, false);
    var out := Act(S, w1, Resolution(o, n, t));
    assert out == OpenFinish(S, w1.core, p, o.peer, At(o.config, o.draws, t));
    NobodyWaits(w1.pending, (o.Sid(), n), out.outcome);
  }

  /** A failing round closes it, and the opening fades. */
  lemma Closed(S: Setup, o: Opening, c: Closing, w: World, n: nat, t: int)
    requires Opens(S, o) && Open(S, o, w) && Closes(S, o, c, t)
    ensures Enabled(w, Last(o, c, n, t)) && Forgotten(S, o, Next(S, w, Last(o, c, n, t)), ExpiryOf(S, o.intent))
  {
    var input := At(o.config, c.draws, t);
    var st := w.core.(rounds := SweepRounds(w.core.rounds, t));
    assert RoundKey(S, c.env) !in st.rounds;
    assert Act(S, w, Last(o, c, n, t)) == Continue(S, st, c.env, input);
    ClosedState(S, o, c, st, input, t);
    NobodyWaits(w.pending, (o.Sid(), n), Act(S, w, Last(o, c, n, t)).outcome);
  }

  lemma ClosedState(S: Setup, o: Opening, c: Closing, st: State, input: Input, t: int)
    requires Opens(S, o) && Open(S, o, World(st, map[])) && Closes(S, o, c, t) && input == At(o.config, c.draws, t)
    ensures var out := Continue(S, st, c.env, input);
            out.outcome.Answered? && o.Sid() !in out.state.rx && Fading(S, o, out.state)
  {
    var st1 := CheckIntent(S, st, c.env, c.intent, o.peer.publicKey, input.clock).0;
    ClosingPasses(S, o, c, st, input.clock, t);
    FailedCall(S, o, c, st1, input);
    assert Continue(S, st, c.env, input).state == ContinueCall(S, st1, c.env, c.intent, input).state;
  }

  lemma ClosingPasses(S: Setup, o: Opening, c: Closing, st: State, clock: Clock, t: int)
    requires Belongs(S, o, c, t) && Fading(S, o, st) && clock.valid == t && forall k :: k in st.replay ==> k == o.Key()
    ensures var (st1, problem, _) := CheckIntent(S, st, c.env, c.intent, o.peer.publicKey, clock);
            problem == None && st1.rx == st.rx && st1.ops == st.ops && Fading(S, o, st1)
  {
  }

  lemma FailedCall(S: Setup, o: Opening, c: Closing, st: State, input: Input)
    requires Received(S, o).Ok? && c.env.session == o.Sid() && input.draws == c.draws
    requires o.Sid() in st.rx && st.rx[o.Sid()].internal == o.Sid()
    requires o.Sid() in st.ops && st.ops[o.Sid()] == Session("receiver", Received(S, o).value.next, o.config)
    requires S.behaviour.onProcess("receiver", Received(S, o).value.next, ToMessage(c.env), o.config, false, c.draws)
             .Err?
    ensures var out := ContinueCall(S, st, c.env, c.intent, input);
            && out.outcome.Answered? && o.Sid() !in out.state.rx
            && out.state.rounds == st.rounds && out.state.replay == st.replay
  {
  }

  /** Opened, closed, and opened again. */
  function Twice(S: Setup, o: Opening, c: Closing, t: int): seq<Step> {
    var e := ExpiryOf(S, o.intent);
    [ Arrival(o, 0, e - THIRTY_MINUTES), Resolution(o, 0, e - THIRTY_MINUTES), Last(o, c, 1, t),
      Arrival(o, 2, e), Resolution(o, 2, e) ]
  }

  /** In the run, the opening is called on at steps 1 and 4. */
  ghost predicate CalledAt(S: Setup, o: Opening, steps: seq<Step>, i: nat)
    requires i < |steps|
  {
    var c := CallAt(S, Empty(), steps, i);
    c.Some? && c.value.opening && CallKey(c.value) == o.Key()
  }

  lemma FirstServing(S: Setup, o: Opening, t: int)
    requires Opens(S, o) && t == ExpiryOf(S, o.intent) - THIRTY_MINUTES
    ensures var w1 := Next(S, Empty(), Arrival(o, 0, t));
            && See(S, w1, Resolution(o, 0, t)).Seen?
            && See(S, w1, Resolution(o, 0, t)).call == Some(Call(true, o.env, o.intent, o.peer.publicKey, t))
            && Open(S, o, Next(S, w1, Resolution(o, 0, t)))
  {
    Served(S, o, Empty(), 0, t);
    Opened(S, o, 0, t);
  }

  lemma FirstCall(S: Setup, o: Opening, steps: seq<Step>, t: int)
    requires Opens(S, o) && |steps| > 1 && t == ExpiryOf(S, o.intent) - THIRTY_MINUTES
    requires steps[0] == Arrival(o, 0, t) && steps[1] == Resolution(o, 0, t)
    ensures CalledAt(S, o, steps, 1) && Open(S, o, Before(S, Empty(), steps, 2))
  {
    TwoSteps(S, Empty(), steps);
    FirstServing(S, o, t);
    SeenCall(S, Empty(), steps, 1, o);
  }

  lemma TwoSteps(S: Setup, w: World, steps: seq<Step>)
    requires |steps| > 1
    ensures Before(S, w, steps, 1) == Next(S, w, steps[0])
    ensures Before(S, w, steps, 2) == Next(S, Next(S, w, steps[0]), steps[1])
  {
    assert steps[..0] == [];
    RunStep(S, w, steps, 0);
    RunStep(S, w, steps, 1);
  }

  lemma SeenCall(S: Setup, w: World, steps: seq<Step>, i: nat, o: Opening)
    requires i < |steps| && See(S, Before(S, w, steps, i), steps[i]).Seen?
    requires var c := See(S, Before(S, w, steps, i), steps[i]).call;
             c.Some? && c.value.opening && c.value.env == o.env && c.value.intent == o.intent &&
             c.value.signer == o.peer.publicKey
    ensures var c := CallAt(S, w, steps, i); c.Some? && c.value.opening && CallKey(c.value) == o.Key()
  {
  }

  lemma SecondCall(S: Setup, o: Opening, steps: seq<Step>)
    requires Opens(S, o) && |steps| > 4 && Forgotten(S, o, Before(S, Empty(), steps, 3), ExpiryOf(S, o.intent))
    requires var e := ExpiryOf(S, o.intent); steps[3] == Arrival(o, 2, e) && steps[4] == Resolution(o, 2, e)
    ensures CalledAt(S, o, steps, 4)
  {
    RunStep(S, Empty(), steps, 3);
    Served(S, o, Before(S, Empty(), steps, 3), 2, ExpiryOf(S, o.intent));
  }

  /**
   * An opening is served thirty minutes before its intent expires; a failing round ends the session;
   * and at the instant at which the intent expires the opening is served once more: by then both caches
   * have forgotten it, and it is still valid.
   */
  lemma CalledTwice(S: Setup, o: Opening, c: Closing, t: int)
    requires Opens(S, o) && Closes(S, o, c, t)
    requires ExpiryOf(S, o.intent) - THIRTY_MINUTES <= t <= ExpiryOf(S, o.intent)
    ensures var steps := Twice(S, o, c, t);
            && Monotone(steps, ExpiryOf(S, o.intent) - THIRTY_MINUTES)
            && CalledAt(S, o, steps, 1) && CalledAt(S, o, steps, 4)
  {
    TwiceInOrder(S, o, c, t);
    BothCalls(S, o, c, t, ExpiryOf(S, o.intent), Twice(S, o, c, t));
  }

  lemma BothCalls(S: Setup, o: Opening, c: Closing, t: int, e: int, steps: seq<Step>)
    requires Opens(S, o) && Closes(S, o, c, t) && e == ExpiryOf(S, o.intent) && |steps| == 5
    requires steps[0] == Arrival(o, 0, e - THIRTY_MINUTES) && steps[1] == Resolution(o, 0, e - THIRTY_MINUTES)
    requires steps[2] == Last(o, c, 1, t) && steps[3] == Arrival(o, 2, e) && steps[4] == Resolution(o, 2, e)
    ensures CalledAt(S, o, steps, 1) && CalledAt(S, o, steps, 4)
  {
    FirstCall(S, o, steps, e - THIRTY_MINUTES);
    ThenClosed(S, o, c, t, steps);
    SecondCall(S, o, steps);
  }

  lemma ThenClosed(S: Setup, o: Opening, c: Closing, t: int, steps: seq<Step>)
    requires Opens(S, o) && Closes(S, o, c, t) && |steps| > 2 && steps[2] == Last(o, c, 1, t)
    requires Open(S, o, Before(S, Empty(), steps, 2))
    ensures Forgotten(S, o, Before(S, Empty(), steps, 3), ExpiryOf(S, o.intent))
  {
    RunStep(S, Empty(), steps, 2);
    Closed(S, o, c, Before(S, Empty(), steps, 2), 1, t);
  }

  lemma TwiceInOrder(S: Setup, o: Opening, c: Closing, t: int)
    requires ExpiryOf(S, o.intent) - THIRTY_MINUTES <= t <= ExpiryOf(S, o.intent)
    ensures Monotone(Twice(S, o, c, t), ExpiryOf(S, o.intent) - THIRTY_MINUTES)
  {
    var s, first := Twice(S, o, c, t), ExpiryOf(S, o.intent) - THIRTY_MINUTES;
    assert s[..4][..3] == s[..3] && s[..3][..2] == s[..2] && s[..2][..1] == s[..1] && s[..1][..0] == [];
    assert Monotone([], first) && Monotone(s[..1], first);
    assert Monotone(s[..2], first);
    assert Monotone(s[..3], first);
    assert Monotone(s[..4], first);
  }

  // --- with the operation of the repository ----------------------------------------------------------

  /** An `init` that passes, and a `msg1` of the same signer that cannot be decoded. */
  ghost predicate PsiRun(S: Setup, C: Primitives, o: Opening, c: Closing, t: int) {
    && C.Ideal() && S.behaviour == Psi(C) && Admissible(S, o) && Belongs(S, o, c, t)
    && o.env.phase == "init" && Is32(B64d(C, o.env.payload)) && o.config.sanctionList != []
    && c.env.phase == "msg1" && B64d(C, c.env.payload).Err?
    && ExpiryOf(S, o.intent) - THIRTY_MINUTES <= t <= ExpiryOf(S, o.intent)
  }

  /** The same for a PSI receiver: one `init` opens two sessions. */
  lemma PsiCalledTwice(S: Setup, C: Primitives, o: Opening, c: Closing, t: int)
    requires PsiRun(S, C, o, c, t)
    ensures var steps := Twice(S, o, c, t);
            && Monotone(steps, ExpiryOf(S, o.intent) - THIRTY_MINUTES)
            && CalledAt(S, o, steps, 1) && CalledAt(S, o, steps, 4)
  {
    PsiOpens(S, C, o);
    PsiFails(C, Received(S, o).value.next, ToMessage(c.env), o.config, c.draws);
    CalledTwice(S, o, c, t);
  }

  lemma PsiFails(C: Primitives, state: Dict, m: Message, config: Config, draws: Draws)
    requires m.phase == "msg1" && B64d(C, m.payload).Err?
    ensures Psi(C).onProcess("receiver", state, m, config, false, draws).Err?
  {
  }

  lemma PsiOpens(S: Setup, C: Primitives, o: Opening)
    requires C.Ideal() && S.behaviour == Psi(C)
    requires o.env.phase == "init" && Is32(B64d(C, o.env.payload)) && o.config.sanctionList != []
    ensures Received(S, o).Ok? && !Received(S, o).value.done
  {
  }
}
