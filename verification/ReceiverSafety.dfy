/**
 * Safety of a receiver core over whole runs: at most one operation call per intent, agreement of
 * the two session tables, and authenticated progress.
 */
module ReceiverSafety {
  import opened Wrappers
  import opened Bytes
  import opened Directives
  import opened Operations
  import opened Receiver
  import opened ReceiverRuns

  // --- at most once ---------------------------------------------------------------------------

  ghost predicate Cached(st: State, key: string, expiry: int) {
    key in st.replay && st.replay[key] == expiry
  }

  /** What looking at the replay cache does to it. */
  lemma CheckedReplay(S: Setup, st: State, env: Envelope, intent: Intent, signer: bytes, id: string, input: Input,
        out: StepOut, key: string, expiry: int)
    requires Checked(S, st, env, intent, signer, id, input, out)
    ensures out.call.Some? ==> out.swept.Some? && Cached(out.state, CallKey(out.call.value), ExpiryOf(S, intent))
    ensures Cached(st, key, expiry) && (out.swept.None? || out.swept.value < expiry) ==>
              Cached(out.state, key, expiry) && (out.call.Some? ==> CallKey(out.call.value) != key)
  {
  }

  /**
   * The effect of a segment on the replay cache: a call was not remembered and is remembered now;
   * what was remembered stays unless a sweep read a clock at or after its expiry.
   */
  lemma ReplayEffect(S: Setup, w: World, step: Step, key: string, expiry: int)
    requires Enabled(w, step)
    ensures var out := Act(S, w, step);
            && (out.call.Some? ==>
                  && out.swept.Some?
                  && Cached(out.state, CallKey(out.call.value), ExpiryOf(S, out.call.value.intent)))
            && (Cached(w.core, key, expiry) && (out.swept.None? || out.swept.value < expiry) ==>
                  Cached(out.state, key, expiry) && (out.call.Some? ==> CallKey(out.call.value) != key))
  {
    var st, out := w.core, Act(S, w, step);
    match step
    case Arrive(_, env, input) =>
      DeliverShape(S, st, env, input);
      var st1 := Fresh(S, st, env, input);
      if !Idle(st1, out) {
        CheckedReplay(S, st1, env, env.intent.intent, st.rx[env.session].signer, st.rx[env.session].internal, input,
                      out, key, expiry);
      }
    case Resolved(_, _, peer, input) =>
      var p := w.pending[HandlerOf(step)];
      ResumeShape(S, st, p, peer, input);
      if !Idle(st, out) {
        CheckedReplay(S, st, p.env, p.intent, peer.value.publicKey, PickId(p.env.session, input.newId), input, out,
                      key, expiry);
      }
  }

  /** No sweep of steps `i .. j-1` read a clock at or after `expiry`. */
  ghost predicate SweptEarly(S: Setup, w: World, steps: seq<Step>, i: nat, j: nat, expiry: int)
    requires j <= |steps|
  {
    forall m :: i <= m < j && SweepAt(S, w, steps, m).Some? ==> SweepAt(S, w, steps, m).value < expiry
  }

  lemma {:induction false} StaysCached(S: Setup, w: World, steps: seq<Step>, i: nat, j: nat, key: string, expiry: int)
    requires i <= j <= |steps| && Cached(Before(S, w, steps, i).core, key, expiry)
    requires SweptEarly(S, w, steps, i, j, expiry)
    ensures Cached(Before(S, w, steps, j).core, key, expiry)
    decreases j
  {
    if i < j {
      StaysCached(S, w, steps, i, j - 1, key, expiry);
      RunStep(S, w, steps, j - 1);
      var v := Before(S, w, steps, j - 1);
      if Enabled(v, steps[j - 1]) {
        ReplayEffect(S, v, steps[j - 1], key, expiry);
        assert SweepAt(S, w, steps, j - 1) == Act(S, v, steps[j - 1]).swept;
      }
    }
  }

  /** Strictly before the expiry remembered the first time, an intent is not called on again. */
  lemma NotTwiceBeforeExpiry(S: Setup, w: World, steps: seq<Step>, i: nat, j: nat)
    requires i < j < |steps|
    requires CallAt(S, w, steps, i).Some? && CallAt(S, w, steps, j).Some?
    requires SweptEarly(S, w, steps, i + 1, j + 1, ExpiryOf(S, CallAt(S, w, steps, i).value.intent))
    ensures CallKey(CallAt(S, w, steps, i).value) != CallKey(CallAt(S, w, steps, j).value)
  {
    var c := CallAt(S, w, steps, i).value;
    var key, expiry := CallKey(c), ExpiryOf(S, c.intent);
    ReplayEffect(S, Before(S, w, steps, i), steps[i], key, expiry);
    RunStep(S, w, steps, i);
    StaysCached(S, w, steps, i + 1, j, key, expiry);
    ReplayEffect(S, Before(S, w, steps, j), steps[j], key, expiry);
    assert SweepAt(S, w, steps, j) == Act(S, Before(S, w, steps, j), steps[j]).swept;
  }

  /**
   * At most once, under any interleaving: the same signer, session, intent id, nonce and payload
   * hash reach the operation a second time only after a replay sweep that read the clock at or after
   * the expiry remembered the first time.
   */
  lemma AtMostOnce(S: Setup, w: World, steps: seq<Step>, i: nat, j: nat)
    requires i < j < |steps|
    requires CallAt(S, w, steps, i).Some? && CallAt(S, w, steps, j).Some?
    requires CallKey(CallAt(S, w, steps, i).value) == CallKey(CallAt(S, w, steps, j).value)
    ensures exists m :: i < m <= j && SweepAt(S, w, steps, m).Some? &&
              SweepAt(S, w, steps, m).value >= ExpiryOf(S, CallAt(S, w, steps, i).value.intent)
  {
    if SweptEarly(S, w, steps, i + 1, j + 1, ExpiryOf(S, CallAt(S, w, steps, i).value.intent)) {
      NotTwiceBeforeExpiry(S, w, steps, i, j);
    }
  }

  /** Two calls of one signer and session, for intents with one id, nonce and payload hash. */
  predicate SameIntent(c: Call, d: Call) {
    && c.signer == d.signer && c.env.session == d.env.session
    && c.intent.id == d.intent.id && c.intent.nonce == d.intent.nonce && c.intent.payloadHash == d.intent.payloadHash
  }

  /** So an intent is called on again only once a sweep has read a clock at or after its expiry. */
  lemma OncePerIntent(S: Setup, w: World, steps: seq<Step>, i: nat, j: nat)
    requires i < j < |steps|
    requires CallAt(S, w, steps, i).Some? && CallAt(S, w, steps, j).Some?
    requires SameIntent(CallAt(S, w, steps, i).value, CallAt(S, w, steps, j).value)
    ensures var t := S.services.parseTime(CallAt(S, w, steps, i).value.intent.expiry);
            && t.Some?
            && exists m :: i < m <= j && SweepAt(S, w, steps, m).Some? && SweepAt(S, w, steps, m).value >= t.value
  {
    CallMeaning(S, Before(S, w, steps, i), steps[i]);
    AtMostOnce(S, w, steps, i, j);
    var c := CallAt(S, w, steps, i).value;
    assert S.services.parseTime(c.intent.expiry) == Some(ExpiryOf(S, c.intent));
  }

  /**
   * The bound is strict because the expiry instant belongs to both sides: an intent that is
   * remembered passes again exactly when validity is read no later, and the sweep no earlier, than it.
   */
  lemma PassesAgainAtExpiry(S: Setup, st: State, env: Envelope, intent: Intent, signer: bytes, clock: Clock)
    requires Cached(st, IntentKey(signer, env, intent), ExpiryOf(S, intent))
    requires exists now :: IntentProblem(S, env, intent, now) == None
    ensures var passes := CheckIntent(S, st, env, intent, signer, clock).1 == None;
            passes <==> clock.valid <= ExpiryOf(S, intent) <= clock.replay
  {
    var now :| IntentProblem(S, env, intent, now) == None;
    assert IntentProblem(S, env, intent, clock.valid) == None <==> clock.valid <= ExpiryOf(S, intent);
  }

  // --- agreement of the two tables ------------------------------------------------------------

  /** The receiver's table and the operation's table hold the same sessions under the same ids. */
  ghost predicate Agree(st: State) {
    && (forall s :: s in st.rx <==> s in st.ops)
    && (forall s :: s in st.rx ==> st.rx[s].internal == s)
  }

  /** No envelope carries the empty session id. */
  ghost predicate Named(w: World) {
    forall h :: h in w.pending ==> w.pending[h].env.session == h.0 && h.0 != ""
  }

  predicate NamedStep(step: Step) {
    HandlerOf(step).0 != ""
  }

  ghost predicate AllNamed(steps: seq<Step>) {
    forall i :: 0 <= i < |steps| ==> NamedStep(steps[i])
  }

  lemma ContinueCallAgrees(S: Setup, st: State, env: Envelope, intent: Intent, input: Input)
    requires Agree(st) && env.session in st.rx
    ensures Agree(ContinueCall(S, st, env, intent, input).state)
  {
  }

  lemma ContinueVerifiedAgrees(S: Setup, st: State, env: Envelope, intent: Intent, input: Input)
    requires Agree(st) && env.session in st.rx
    ensures Agree(ContinueVerified(S, st, env, intent, input).state)
  {
    var st1 := CheckIntent(S, st, env, intent, st.rx[env.session].signer, input.clock).0;
    ContinueCallAgrees(S, st1, env, intent, input);
  }

  lemma ContinueAgrees(S: Setup, st: State, env: Envelope, input: Input)
    requires Agree(st) && env.session in st.rx
    ensures Agree(Continue(S, st, env, input).state)
  {
    if env.intent.Parsed? {
      ContinueVerifiedAgrees(S, st, env, env.intent.intent, input);
    }
  }

  lemma OpenCallAgrees(S: Setup, st: State, p: Pending, peer: Peer, input: Input)
    requires Agree(st) && p.env.session != "" && input.config.Some?
    ensures Agree(OpenCall(S, st, p, peer, input).state)
  {
  }

  lemma OpenFinishAgrees(S: Setup, st: State, p: Pending, peer: Peer, input: Input)
    requires Agree(st) && p.env.session != ""
    ensures Agree(OpenFinish(S, st, p, peer, input).state)
  {
    var st1 := CheckIntent(S, st, p.env, p.intent, peer.publicKey, input.clock).0;
    if input.config.Some? {
      OpenCallAgrees(S, st1, p, peer, input);
    }
  }

  lemma DeliverAgrees(S: Setup, st: State, env: Envelope, input: Input)
    requires Agree(st)
    ensures Agree(Deliver(S, st, env, input).state)
  {
    var st1 := Fresh(S, st, env, input);
    if env.session in st1.rx {
      ContinueAgrees(S, st1, env, input);
    }
  }

  lemma ResumeAgrees(S: Setup, st: State, p: Pending, peer: Option<Peer>, input: Input)
    requires Agree(st) && p.env.session != ""
    ensures Agree(Resume(S, st, p, peer, input).state)
  {
    if peer.Some? {
      OpenFinishAgrees(S, st, p, peer.value, input);
    }
  }

  /** One segment of any handler keeps both. */
  lemma AgreeKept(S: Setup, w: World, step: Step)
    requires Agree(w.core) && Named(w) && NamedStep(step)
    ensures Agree(Next(S, w, step).core) && Named(Next(S, w, step))
  {
    if Enabled(w, step) {
      match step {
        case Arrive(_, env, input) =>
          DeliverAgrees(S, w.core, env, input);
          DeliverShape(S, w.core, env, input);
        case Resolved(_, _, peer, input) =>
          ResumeAgrees(S, w.core, w.pending[HandlerOf(step)], peer, input);
          ResumeShape(S, w.core, w.pending[HandlerOf(step)], peer, input);
      }
    }
  }

  /**
   * In every run the two tables agree, through opened, finished, unfinished and failing rounds.
   */
  lemma {:induction false} TablesAgree(S: Setup, w: World, steps: seq<Step>)
    requires Agree(w.core) && Named(w) && AllNamed(steps)
    ensures Agree(Run(S, w, steps).core) && Named(Run(S, w, steps))
    decreases |steps|
  {
    if steps != [] {
      var n := |steps| - 1;
      TablesAgree(S, w, steps[..n]);
      AgreeKept(S, Run(S, w, steps[..n]), steps[n]);
    }
  }

  /** The empty id has to be shut out: `receive` replaces it, so the tables part when it opens a session. */
  lemma EmptyIdParts(S: Setup, st: State, p: Pending, peer: Peer, input: Input)
    requires p.env.session == "" && input.config.Some? && input.newId != ""
    requires var r := S.behaviour.onProcess("receiver", map[], ToMessage(p.env), input.config.value, true, input.draws);
             r.Ok? && !r.value.done
    ensures !Agree(OpenCall(S, st, p, peer, input).state)
  {
    var out := OpenCall(S, st, p, peer, input);
    assert "" in out.state.rx && out.state.rx[""].internal == input.newId;
  }

  /** So a `process` call always finds its session, and is never refused as expired. */
  lemma ProcessFindsSession(S: Setup, w: World, steps: seq<Step>, i: nat)
    requires Agree(w.core) && Named(w) && AllNamed(steps) && i < |steps|
    requires CallAt(S, w, steps, i).Some? && !CallAt(S, w, steps, i).value.opening
    ensures steps[i].Arrive?
    ensures var st, s := Before(S, w, steps, i).core, steps[i].env.session;
            s in st.rx && s in st.ops && st.rx[s].internal == s
  {
    TablesAgree(S, w, steps[..i]);
    CallMeaning(S, Before(S, w, steps, i), steps[i]);
  }

  // --- authenticated progress -------------------------------------------------------------------

  /** What stands behind every operation call. */
  ghost predicate Authorised(S: Setup, c: Call) {
    && Verified(S.services, c.intent, c.signer)
    && c.intent.session == c.env.session
    && c.intent.opType == S.opType == "PSI"
    && c.intent.payloadHash == Hex(S.sha256(PayloadBytes(c.env.payload)))
    && Current(S, c.intent, c.now)
  }

  /** Two participants, a readable expiry that has not passed, and a nonce that is not blank. */
  ghost predicate Current(S: Setup, d: Intent, now: int) {
    && |d.participants| == 2
    && (exists t :: S.services.parseTime(d.expiry) == Some(t) && now <= t)
    && (exists i :: 0 <= i < |d.nonce| && !IsSpace(d.nonce[i]))
  }

  /**
   * An operation call comes from an unexpired intent, signed by the resolved peer (opening) or by
   * the key pinned when the session was opened, bound to this envelope's session and payload; and the
   * opening phase is never processed.
   */
  lemma CallMeaning(S: Setup, w: World, step: Step)
    requires Enabled(w, step) && Act(S, w, step).call.Some?
    ensures var c := Act(S, w, step).call.value;
            && Authorised(S, c)
            && (c.opening <==> step.Resolved?)
            && c.env == (if step.Arrive? then step.env else w.pending[HandlerOf(step)].env)
            && (c.opening ==> step.peer.Some? && c.signer == step.peer.value.publicKey)
            && (!c.opening ==> c.env.session in w.core.rx && c.signer == w.core.rx[c.env.session].signer
                               && c.env.phase != w.core.rx[c.env.session].openingPhase)
  {
    var c := Act(S, w, step).call.value;
    match step {
      case Arrive(_, env, input) => DeliverShape(S, w.core, env, input);
      case Resolved(_, _, peer, input) => ResumeShape(S, w.core, w.pending[HandlerOf(step)], peer, input);
    }
    PassedMeans(S, c);
  }

  /** What the signature and the checks of an intent come to. */
  lemma PassedMeans(S: Setup, c: Call)
    requires Verified(S.services, c.intent, c.signer) && IntentProblem(S, c.env, c.intent, c.now) == None
    ensures Authorised(S, c)
  {
  }

  /** What looking at the replay cache, and a call that may follow, do to the session tables. */
  lemma CheckedTables(S: Setup, st: State, env: Envelope, intent: Intent, signer: bytes, id: string, input: Input,
        out: StepOut)
    requires Checked(S, st, env, intent, signer, id, input, out)
    ensures out.call.None? ==> out.state.rx == st.rx && out.state.ops == st.ops
    ensures out.call.Some? ==> out.call.value.env == env
    ensures out.call.Some? && Refused(out) ==> AfterCall(out.outcome.reply.value.error.value)
    ensures OnlyAt(st.rx, out.state.rx, env.session) && OnlyAt(st.ops, out.state.ops, id)
  {
  }

  /** Without a call no table changes; with one, only the entries of its session. */
  lemma StepTables(S: Setup, w: World, step: Step)
    requires Enabled(w, step)
    ensures var out := Act(S, w, step);
            && (out.call.None? ==> out.state.rx == w.core.rx && out.state.ops == w.core.ops)
            && (out.call.Some? && Refused(out) ==> AfterCall(out.outcome.reply.value.error.value))
            && (Agree(w.core) && Named(w) && out.call.Some? ==>
                  var s := out.call.value.env.session;
                  OnlyAt(w.core.rx, out.state.rx, s) && OnlyAt(w.core.ops, out.state.ops, s))
  {
    var st, out := w.core, Act(S, w, step);
    match step
    case Arrive(_, env, input) =>
      DeliverShape(S, st, env, input);
      var st1 := Fresh(S, st, env, input);
      if !Idle(st1, out) {
        CheckedTables(S, st1, env, env.intent.intent, st.rx[env.session].signer, st.rx[env.session].internal, input,
                      out);
      }
    case Resolved(_, _, peer, input) =>
      var p := w.pending[HandlerOf(step)];
      ResumeShape(S, st, p, peer, input);
      if !Idle(st, out) {
        CheckedTables(S, st, p.env, p.intent, peer.value.publicKey, PickId(p.env.session, input.newId), input, out);
      }
  }

  /** A segment changes nothing of a session unless it makes a call for that session. */
  lemma TablesChangeByCalls(S: Setup, w: World, step: Step, s: string)
    requires Enabled(w, step) && Agree(w.core) && Named(w)
    requires Act(S, w, step).call.Some? ==> Act(S, w, step).call.value.env.session != s
    ensures var out := Act(S, w, step);
            && (s in out.state.rx <==> s in w.core.rx) && (s in w.core.rx ==> out.state.rx[s] == w.core.rx[s])
            && (s in out.state.ops <==> s in w.core.ops) && (s in w.core.ops ==> out.state.ops[s] == w.core.ops[s])
  {
    StepTables(S, w, step);
  }

  /** Every refusal but the two that follow a call leaves both session tables alone. */
  lemma RefusalKeepsTables(S: Setup, w: World, step: Step)
    requires Enabled(w, step) && Refused(Act(S, w, step))
    requires !AfterCall(Act(S, w, step).outcome.reply.value.error.value)
    ensures var out := Act(S, w, step); out.state.rx == w.core.rx && out.state.ops == w.core.ops && out.call == None
  {
    StepTables(S, w, step);
  }

  // --- under the session lock ---------------------------------------------------------------------

  ghost predicate Free(w: World, s: string) {
    forall h :: h in w.pending ==> h.0 != s
  }

  /**
   * A new handler has a number of its own, and takes up its envelope only when no other one of the session
   * waits; an envelope of another operation or wire version is answered before the lock is taken.
   */
  ghost predicate Admits(S: Setup, w: World, step: Step) {
    step.Arrive? ==> HandlerOf(step) !in w.pending && (Understood(S, step.env) ==> Free(w, step.env.session))
  }

  /** The session lock: no two handlers of one session at once. */
  ghost predicate Exclusive(S: Setup, w: World, steps: seq<Step>) {
    forall i {:trigger Admits(S, Before(S, w, steps, i), steps[i])} ::
      0 <= i < |steps| ==> Admits(S, Before(S, w, steps, i), steps[i])
  }

  /** Waiting handlers belong to distinct sessions that are not open. */
  ghost predicate Quiet(w: World) {
    && Named(w) && Agree(w.core)
    && (forall h :: h in w.pending ==> h.0 !in w.core.rx)
    && (forall g, h :: g in w.pending && h in w.pending && g.0 == h.0 ==> g == h)
  }

  /** A call is for no session of which another handler waits. */
  lemma CalledApart(S: Setup, w: World, step: Step, h: Handler)
    requires Quiet(w) && Admits(S, w, step) && Enabled(w, step) && h in w.pending && h != HandlerOf(step)
    ensures var out := Act(S, w, step); out.call.Some? ==> out.call.value.env.session != h.0
  {
    CallSession(S, w, step);
    if step.Arrive? {
      DeliverShape(S, w.core, step.env, step.input);
    }
  }

  lemma QuietKept(S: Setup, w: World, step: Step)
    requires Quiet(w) && NamedStep(step) && Admits(S, w, step)
    ensures Quiet(Next(S, w, step))
  {
    AgreeKept(S, w, step);
    if Enabled(w, step) {
      var next, me := Next(S, w, step), HandlerOf(step);
      forall h | h in next.pending
        ensures h.0 !in next.core.rx
      {
        if h == me {
          AwaitingIsClosed(S, w, step);
        } else {
          CalledApart(S, w, step, h);
          TablesChangeByCalls(S, w, step, h.0);
        }
      }
    }
  }

  lemma AwaitingIsClosed(S: Setup, w: World, step: Step)
    requires Quiet(w) && Enabled(w, step) && Act(S, w, step).outcome.Awaiting?
    ensures HandlerOf(step).0 !in Act(S, w, step).state.rx
  {
    match step
    case Arrive(_, env, input) => DeliverShape(S, w.core, env, input);
    case Resolved(_, _, peer, input) => ResumeShape(S, w.core, w.pending[HandlerOf(step)], peer, input);
  }

  /** A call is about the session of its handler. */
  lemma CallSession(S: Setup, w: World, step: Step)
    requires Enabled(w, step) && Named(w)
    ensures var out := Act(S, w, step); out.call.Some? ==> out.call.value.env.session == HandlerOf(step).0
  {
    if Act(S, w, step).call.Some? {
      CallMeaning(S, w, step);
    }
  }

  lemma PinKeptByStep(S: Setup, w: World, step: Step, s: string)
    requires Quiet(w) && NamedStep(step)
    ensures var v := Next(S, w, step).core; s in w.core.rx && s in v.rx ==> v.rx[s] == w.core.rx[s]
  {
    if Enabled(w, step) && s in w.core.rx {
      CallSession(S, w, step);
      if HandlerOf(step).0 != s {
        TablesChangeByCalls(S, w, step, s);
      } else if step.Arrive? {
        DeliverShape(S, w.core, step.env, step.input);
      }
    }
  }

  lemma {:induction false} QuietRun(S: Setup, w: World, steps: seq<Step>, i: nat)
    requires Quiet(w) && Exclusive(S, w, steps) && AllNamed(steps) && i <= |steps|
    ensures Quiet(Before(S, w, steps, i))
    decreases i
  {
    if i > 0 {
      QuietRun(S, w, steps, i - 1);
      RunStep(S, w, steps, i - 1);
      QuietKept(S, Before(S, w, steps, i - 1), steps[i - 1]);
    }
  }

  ghost predicate StaysOpen(S: Setup, w: World, steps: seq<Step>, s: string, i: nat, j: nat)
    requires j <= |steps|
  {
    forall m :: i <= m <= j ==> s in Before(S, w, steps, m).core.rx
  }

  /**
   * Under the lock, the signer, the opening phase and the internal id pinned for a session do not
   * change while it stays open.
   */
  lemma {:induction false} PinnedWhileOpen(S: Setup, w: World, steps: seq<Step>, s: string, i: nat, j: nat)
    requires Quiet(w) && Exclusive(S, w, steps) && AllNamed(steps) && i <= j <= |steps|
    requires StaysOpen(S, w, steps, s, i, j)
    ensures s in Before(S, w, steps, i).core.rx && s in Before(S, w, steps, j).core.rx
    ensures Before(S, w, steps, j).core.rx[s] == Before(S, w, steps, i).core.rx[s]
    decreases j
  {
    OpenAt(S, w, steps, s, i, j, j);
    if i < j {
      OpenAt(S, w, steps, s, i, j, j - 1);
      PinnedWhileOpen(S, w, steps, s, i, j - 1);
      PinKeptAt(S, w, steps, s, j - 1);
    }
  }

  lemma OpenAt(S: Setup, w: World, steps: seq<Step>, s: string, i: nat, j: nat, m: nat)
    requires i <= m <= j <= |steps| && StaysOpen(S, w, steps, s, i, j)
    ensures s in Before(S, w, steps, m).core.rx && StaysOpen(S, w, steps, s, i, m)
  {
  }

  lemma PinKeptAt(S: Setup, w: World, steps: seq<Step>, s: string, i: nat)
    requires Quiet(w) && Exclusive(S, w, steps) && AllNamed(steps) && i < |steps|
    requires s in Before(S, w, steps, i).core.rx && s in Before(S, w, steps, i + 1).core.rx
    ensures Before(S, w, steps, i + 1).core.rx[s] == Before(S, w, steps, i).core.rx[s]
  {
    QuietRun(S, w, steps, i);
    RunStep(S, w, steps, i);
    PinKeptByStep(S, Before(S, w, steps, i), steps[i], s);
  }

  // --- who may drive a session ------------------------------------------------------------------

  /** Opening a session pins the signer and the phase of the envelope that opened it. */
  lemma OpeningPins(S: Setup, w: World, step: Step, s: string)
    requires Enabled(w, step) && Agree(w.core) && Named(w) && s !in w.core.rx && s in Act(S, w, step).state.rx
    ensures var out := Act(S, w, step);
            && out.call.Some? && out.call.value.opening && out.call.value.env.session == s
            && out.state.rx[s].signer == out.call.value.signer
            && out.state.rx[s].openingPhase == out.call.value.env.phase
  {
    StepTables(S, w, step);
    CallMeaning(S, w, step);
    var p := w.pending[HandlerOf(step)];
    OpenFinishPins(S, w.core, p, step.peer.value, step.input);
  }

  lemma OpenFinishPins(S: Setup, st: State, p: Pending, peer: Peer, input: Input)
    requires p.env.session !in st.rx
    ensures var out := OpenFinish(S, st, p, peer, input);
            p.env.session in out.state.rx ==>
              && out.state.rx[p.env.session].signer == peer.publicKey
              && out.state.rx[p.env.session].openingPhase == p.env.phase
  {
  }

  /** The step that opened a session that is open. */
  lemma {:induction false} LastOpened(S: Setup, w: World, steps: seq<Step>, s: string, j: nat) returns (i: nat)
    requires j <= |steps| && s !in w.core.rx && s in Before(S, w, steps, j).core.rx
    ensures i < j && s !in Before(S, w, steps, i).core.rx && StaysOpen(S, w, steps, s, i + 1, j)
    decreases j
  {
    assert j > 0 by {
      assert steps[..0] == [];
    }
    if s in Before(S, w, steps, j - 1).core.rx {
      i := LastOpened(S, w, steps, s, j - 1);
    } else {
      i := j - 1;
    }
  }

  /**
   * Authenticated progress: every `process` call carries an intent signed by the key whose intent
   * opened the session, in another phase, and the session has stayed open since.
   */
  lemma DrivenByOpener(S: Setup, w: World, steps: seq<Step>, j: nat)
    requires Quiet(w) && w.core.rx == map[] && Exclusive(S, w, steps) && AllNamed(steps)
    requires j < |steps| && CallAt(S, w, steps, j).Some? && !CallAt(S, w, steps, j).value.opening
    ensures Authorised(S, CallAt(S, w, steps, j).value)
    ensures exists i :: 0 <= i < j && OpensFor(S, w, steps, i, CallAt(S, w, steps, j).value)
                        && StaysOpen(S, w, steps, CallAt(S, w, steps, j).value.env.session, i + 1, j)
  {
    var c := CallAt(S, w, steps, j).value;
    CallMeaning(S, Before(S, w, steps, j), steps[j]);
    var i := LastOpened(S, w, steps, c.env.session, j);
    PinnedWhileOpen(S, w, steps, c.env.session, i + 1, j);
    OpeningStep(S, w, steps, i, c);
  }

  /** The step that opens the session of `c` pins what `c` is checked against. */
  lemma OpeningStep(S: Setup, w: World, steps: seq<Step>, i: nat, c: Call)
    requires Quiet(w) && Exclusive(S, w, steps) && AllNamed(steps) && i < |steps|
    requires var s, rx := c.env.session, Before(S, w, steps, i + 1).core.rx;
             && s !in Before(S, w, steps, i).core.rx && s in rx
             && rx[s].signer == c.signer && rx[s].openingPhase != c.env.phase
    ensures OpensFor(S, w, steps, i, c)
  {
    QuietRun(S, w, steps, i);
    RunStep(S, w, steps, i);
    OpeningPins(S, Before(S, w, steps, i), steps[i], c.env.session);
    CallMeaning(S, Before(S, w, steps, i), steps[i]);
  }

  /** Step `i` opens the session of call `c` with an intent signed by the same key. */
  ghost predicate OpensFor(S: Setup, w: World, steps: seq<Step>, i: nat, c: Call)
    requires i < |steps|
  {
    var o := CallAt(S, w, steps, i);
    && o.Some? && o.value.opening && Authorised(S, o.value)
    && o.value.env.session == c.env.session && o.value.signer == c.signer && o.value.env.phase != c.env.phase
  }

  // --- who may open a session -------------------------------------------------------------------

  /** An envelope whose intent is addressed to this receiver, by an initiator whose URL may be fetched. */
  predicate Addressed(S: Setup, env: Envelope, intent: Intent, url: string) {
    && Understood(S, env) && env.intent == Parsed(intent)
    && |intent.participants| == 2 && intent.participants[0] == url && url != "" && S.safeUrl(url)
    && intent.participants[1] != "" && S.normalize(intent.participants[1]) == S.selfUrl
  }

  /** Only such envelopes make a handler wait for a peer, so no other URL is ever fetched. */
  ghost predicate Screened(S: Setup, w: World) {
    forall h :: h in w.pending ==> Addressed(S, w.pending[h].env, w.pending[h].intent, w.pending[h].url)
  }

  lemma ScreenedKept(S: Setup, w: World, step: Step)
    requires Screened(S, w)
    ensures Screened(S, Next(S, w, step))
  {
    if Enabled(w, step) {
      match step {
        case Arrive(_, env, input) => DeliverScreens(S, w.core, env, input);
        case Resolved(_, _, peer, input) => ResumeShape(S, w.core, w.pending[HandlerOf(step)], peer, input);
      }
    }
  }

  lemma DeliverScreens(S: Setup, st: State, env: Envelope, input: Input)
    ensures var out := Deliver(S, st, env, input);
            out.outcome.Awaiting? ==>
              var p := out.outcome.pending; Addressed(S, p.env, p.intent, p.url) && !p.forced
  {
    var st1 := Fresh(S, st, env, input);
    if env.session in st1.rx {
      ContinueShape(S, st1, env, input);
    }
  }

  lemma {:induction false} ScreenedRun(S: Setup, w: World, steps: seq<Step>)
    requires Screened(S, w)
    ensures Screened(S, Run(S, w, steps))
    decreases |steps|
  {
    if steps != [] {
      var n := |steps| - 1;
      ScreenedRun(S, w, steps[..n]);
      ScreenedKept(S, Run(S, w, steps[..n]), steps[n]);
    }
  }

  /**
   * In every run, a `receive` call is for an envelope addressed to this receiver, from the peer whose
   * URL the intent names and whose key verifies it, and that peer is compatible.
   */
  lemma OpenedByAddressee(S: Setup, w: World, steps: seq<Step>, i: nat)
    requires Screened(S, w) && i < |steps|
    requires CallAt(S, w, steps, i).Some? && CallAt(S, w, steps, i).value.opening
    ensures steps[i].Resolved? && steps[i].peer.Some? && S.compatible(steps[i].peer.value)
    ensures var c, p := CallAt(S, w, steps, i).value, Before(S, w, steps, i).pending[HandlerOf(steps[i])];
            Addressed(S, c.env, c.intent, p.url) && c.signer == steps[i].peer.value.publicKey && Authorised(S, c)
  {
    var v := Before(S, w, steps, i);
    ScreenedRun(S, w, steps[..i]);
    CallMeaning(S, v, steps[i]);
    ResumeShape(S, v.core, v.pending[HandlerOf(steps[i])], steps[i].peer, steps[i].input);
    CompatibleWhenCalled(S, v.core, v.pending[HandlerOf(steps[i])], steps[i].peer.value, steps[i].input);
  }

  lemma CompatibleWhenCalled(S: Setup, st: State, p: Pending, peer: Peer, input: Input)
    ensures OpenFinish(S, st, p, peer, input).call.Some? ==> S.compatible(peer)
  {
  }
}
