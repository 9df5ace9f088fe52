/**
 * A peer may have changed its key since the receiver cached its card: an opening whose signature does not
 * verify is looked at once more after a forced resolution, and only then refused.
 */
module KeyRefresh {
  import opened Wrappers
  import opened Directives
  import opened Operations
  import opened Receiver
  import opened ReceiverRuns
  import opened ReceiverSafety
  import opened Refusals

  /** The three segments of one handler: its arrival, a resolution, and the forced one after it. */
  function ThreeSteps(env: Envelope, n: nat, stale: Peer, current: Peer, first: Input, second: Input, third: Input)
    : seq<Step>
  {
    [ Arrive(n, env, first), Resolved(env.session, n, Some(stale), second),
      Resolved(env.session, n, Some(current), third) ]
  }

  /** An opening for this receiver that nothing has been stored for, in a handler of its own. */
  ghost predicate NewOpening(S: Setup, w: World, env: Envelope, n: nat, first: Input) {
    && (env.session, n) !in w.pending && env.session !in w.core.rx && !Stored(S, w.core, env, first.clock.dedupe)
    && env.intent.Parsed? && |env.intent.intent.participants| > 0
    && Addressed(S, env, env.intent.intent, env.intent.intent.participants[0])
  }

  /** The key that was cached does not verify its intent, and the one fetched anew does. */
  predicate Rotated(S: Setup, d: Intent, stale: Peer, current: Peer) {
    !SignedBy(S.services, d, stale.publicKey) && SignedBy(S.services, d, current.publicKey)
  }

  lemma FirstWaits(S: Setup, w: World, env: Envelope, n: nat, first: Input)
    requires NewOpening(S, w, env, n, first)
    ensures var p := Pending(env, env.intent.intent, env.intent.intent.participants[0], false);
            && Enabled(w, Arrive(n, env, first))
            && Next(S, w, Arrive(n, env, first)) ==
               World(w.core.(rounds := SweepRounds(w.core.rounds, first.clock.dedupe)),
                     w.pending[(env.session, n) := p])
  {
    WaitsExactly(S, w.core, env, first);
    DeliverShape(S, w.core, env, first);
  }

  lemma StaleWaits(S: Setup, w: World, h: Handler, p: Pending, stale: Peer, input: Input)
    requires h in w.pending && w.pending[h] == p && !p.forced && !SignedBy(S.services, p.intent, stale.publicKey)
    ensures var step := Resolved(h.0, h.1, Some(stale), input);
            Enabled(w, step) && Next(S, w, step) == World(w.core, w.pending[h := Pending(p.env, p.intent, p.url, true)])
  {
    ResumeCodes(S, w.core, p, stale, input);
  }

  /** What the third segment finds: the state after the first sweep, and the handler waiting for a forced resolution. */
  function Third(w: World, env: Envelope, intent: Intent, url: string, n: nat, first: Input): World {
    World(w.core.(rounds := SweepRounds(w.core.rounds, first.clock.dedupe)),
          w.pending[(env.session, n) := Pending(env, intent, url, true)])
  }

  lemma TwoSegments(S: Setup, w: World, env: Envelope, n: nat, stale: Peer, current: Peer, first: Input,
        second: Input, third: Input)
    requires NewOpening(S, w, env, n, first) && !SignedBy(S.services, env.intent.intent, stale.publicKey)
    ensures var steps, d := ThreeSteps(env, n, stale, current, first, second, third), env.intent.intent;
            Before(S, w, steps, 2) == Third(w, env, d, d.participants[0], n, first)
  {
    var steps := ThreeSteps(env, n, stale, current, first, second, third);
    var d, h := env.intent.intent, (env.session, n);
    var p := Pending(env, d, d.participants[0], false);
    FirstWaits(S, w, env, n, first);
    assert steps[..0] == [];
    RunStep(S, w, steps, 0);
    StaleWaits(S, Before(S, w, steps, 1), h, p, stale, second);
    RunStep(S, w, steps, 1);
    assert w.pending[h := p][h := p.(forced := true)] == w.pending[h := p.(forced := true)];
  }

  /**
   * An opening that is otherwise fit reaches `receive` after a stale key, with the key fetched anew, and is
   * answered with what the operation replies or, if it fails, with that refusal.
   */
  lemma RotationIsServed(S: Setup, w: World, env: Envelope, n: nat, stale: Peer, current: Peer, first: Input,
        second: Input, third: Input)
    requires NewOpening(S, w, env, n, first) && Rotated(S, env.intent.intent, stale, current)
    requires Fits(S, env, env.intent.intent, third.clock.valid) && S.compatible(current) && third.config.Some?
    requires !Remembered(w.core, current.publicKey, env, env.intent.intent, third.clock.replay)
    ensures var steps := ThreeSteps(env, n, stale, current, first, second, third);
            && CallAt(S, w, steps, 2)
               == Some(Call(true, env, env.intent.intent, current.publicKey, third.clock.valid))
            && var r := Receive(S.behaviour, w.core.ops, "receiver", Message(env.phase, env.payload),
                                third.config.value, env.session, third.newId, third.draws).0;
               var o := OutAt(S, w, steps, 2).value.outcome;
               match r
               case Err(_) => RefusedWith(o, env, OperationError)
               case Ok(reply) => o == Answered(Carrying(S, env, reply))
  {
    var steps, d := ThreeSteps(env, n, stale, current, first, second, third), env.intent.intent;
    TwoSegments(S, w, env, n, stale, current, first, second, third);
    var p := Pending(env, d, d.participants[0], true);
    ThirdServes(S, Before(S, w, steps, 2), (env.session, n), p, current, third);
  }

  lemma ThirdServes(S: Setup, w: World, h: Handler, p: Pending, current: Peer, input: Input)
    requires h in w.pending && w.pending[h] == p && SignedBy(S.services, p.intent, current.publicKey)
    requires Fits(S, p.env, p.intent, input.clock.valid) && S.compatible(current) && input.config.Some?
    requires !Remembered(w.core, current.publicKey, p.env, p.intent, input.clock.replay)
    ensures var step := Resolved(h.0, h.1, Some(current), input);
            && Enabled(w, step)
            && Act(S, w, step).call == Some(Call(true, p.env, p.intent, current.publicKey, input.clock.valid))
            && var r := Receive(S.behaviour, w.core.ops, "receiver", Message(p.env.phase, p.env.payload),
                                input.config.value, p.env.session, input.newId, input.draws).0;
               var o := Act(S, w, step).outcome;
               match r
               case Err(_) => RefusedWith(o, p.env, OperationError)
               case Ok(reply) => o == Answered(Carrying(S, p.env, reply))
  {
    var st1 := CheckIntent(S, w.core, p.env, p.intent, current.publicKey, input.clock).0;
    FitsExactly(S, w.core, p.env, p.intent, current.publicKey, input.clock);
    ReceivedExactly(S, w.core, p, Some(current), input);
    ResumeCodes(S, w.core, p, current, input);
    ReceiveCodes(S, st1, p, current, input);
    ResumeShape(S, w.core, p, Some(current), input);
  }

  // --- no refusal before that ---------------------------------------------------------------------------

  /** Step `j` resolved this handler's peer with a key that did not verify its intent. */
  ghost predicate StaleAt(S: Setup, w: World, steps: seq<Step>, j: nat, h: Handler)
    requires j < |steps|
  {
    && steps[j].Resolved? && HandlerOf(steps[j]) == h && h in Before(S, w, steps, j).pending
    && steps[j].peer.Some? && !Before(S, w, steps, j).pending[h].forced
    && !SignedBy(S.services, Before(S, w, steps, j).pending[h].intent, steps[j].peer.value.publicKey)
  }

  /** Nobody waits for a forced resolution yet. */
  ghost predicate NoneForced(w: World) {
    forall h :: h in w.pending ==> !w.pending[h].forced
  }

  lemma ForcedByStep(S: Setup, w: World, step: Step, h: Handler)
    requires h in Next(S, w, step).pending && Next(S, w, step).pending[h].forced
    requires !(h in w.pending && w.pending[h].forced)
    ensures && step.Resolved? && HandlerOf(step) == h && h in w.pending && step.peer.Some? && !w.pending[h].forced
            && !SignedBy(S.services, w.pending[h].intent, step.peer.value.publicKey)
  {
    if Enabled(w, step) {
      match step {
        case Arrive(_, env, input) => WaitsExactly(S, w.core, env, input);
        case Resolved(_, _, peer, input) =>
          if peer.Some? {
            ResumeCodes(S, w.core, w.pending[HandlerOf(step)], peer.value, input);
            ResumeShape(S, w.core, w.pending[HandlerOf(step)], peer, input);
          }
      }
    }
  }

  /** A handler that waits for a forced resolution had a stale one before. */
  lemma {:induction false} ForcedAfterStale(S: Setup, w: World, steps: seq<Step>, i: nat, h: Handler)
    requires NoneForced(w) && i <= |steps| && h in Before(S, w, steps, i).pending
    requires Before(S, w, steps, i).pending[h].forced
    ensures exists j :: 0 <= j < i && StaleAt(S, w, steps, j, h)
    decreases i
  {
    assert steps[..0] == [];
    var v := Before(S, w, steps, i - 1);
    RunStep(S, w, steps, i - 1);
    if h in v.pending && v.pending[h].forced {
      ForcedAfterStale(S, w, steps, i - 1, h);
    } else {
      ForcedByStep(S, v, steps[i - 1], h);
      assert StaleAt(S, w, steps, i - 1, h);
    }
  }

  /**
   * An opening is refused for its signature only after two resolutions, the second one forced, and neither
   * key verified its intent.
   */
  lemma BadSignatureIsFinal(S: Setup, w: World, steps: seq<Step>, i: nat)
    requires NoneForced(w) && i < |steps| && steps[i].Resolved? && OutAt(S, w, steps, i).Some?
    requires CodeOf(OutAt(S, w, steps, i).value.outcome) == Some(BadSignature)
    ensures var h := HandlerOf(steps[i]);
            && h in Before(S, w, steps, i).pending && Before(S, w, steps, i).pending[h].forced && steps[i].peer.Some?
            && !SignedBy(S.services, Before(S, w, steps, i).pending[h].intent, steps[i].peer.value.publicKey)
            && exists j :: 0 <= j < i && StaleAt(S, w, steps, j, h)
  {
    var v, h := Before(S, w, steps, i), HandlerOf(steps[i]);
    if steps[i].peer.Some? {
      BadSignatureWhen(S, v.core, v.pending[h], steps[i].peer.value, steps[i].input);
    }
    ForcedAfterStale(S, w, steps, i, h);
  }

  lemma BadSignatureWhen(S: Setup, st: State, p: Pending, peer: Peer, input: Input)
    requires CodeOf(Resume(S, st, p, Some(peer), input).outcome) == Some(BadSignature)
    ensures p.forced && !SignedBy(S.services, p.intent, peer.publicKey)
  {
    ResumeCodes(S, st, p, peer, input);
    CheckCodes(S, st, p.env, p.intent, peer.publicKey, input.clock);
    if SignedBy(S.services, p.intent, peer.publicKey) && input.config.Some? {
      ReceiveCodes(S, CheckIntent(S, st, p.env, p.intent, peer.publicKey, input.clock).0, p, peer, input);
    }
  }
}
