/** Duplicate delivery is a stutter: a copy of an answered envelope gets the same reply and changes nothing. */
module Duplicates {
  import opened Wrappers
  import opened Bytes
  import opened Directives
  import opened Operations
  import opened Receiver
  import opened ReceiverRuns
  import opened ReceiverSafety
  import opened Keys
  import opened Isolation
  import opened Projection

  /** A stored reply that no waiting handler is about to replace. */
  ghost predicate Held(S: Setup, w: World, key: string, c: CachedRound) {
    && key in w.core.rounds && w.core.rounds[key] == c
    && forall h :: h in w.pending ==> RoundKey(S, w.pending[h].env) != key
  }

  lemma SegmentKeepsRound(S: Setup, st: State, env: Envelope, intent: Intent, signer: bytes, id: string, input: Input,
        out: StepOut, key: string)
    requires Checked(S, st, env, intent, signer, id, input, out) || Idle(st, out)
    requires RoundKey(S, env) != key && key in st.rounds
    ensures key in out.state.rounds && out.state.rounds[key] == st.rounds[key]
  {
  }

  lemma HeldKept(S: Setup, w: World, step: Step, key: string, c: CachedRound)
    requires Held(S, w, key, c) && (step.Arrive? ==> step.input.clock.dedupe < c.expires)
    ensures Held(S, Next(S, w, step), key, c)
  {
    if Enabled(w, step) {
      var out := Act(S, w, step);
      match step {
        case Arrive(_, env, input) =>
          DeliverKeepsRound(S, w.core, env, input, key, c);
        case Resolved(_, _, peer, input) =>
          var p := w.pending[HandlerOf(step)];
          ResumeShape(S, w.core, p, peer, input);
          if !Idle(w.core, out) {
            SegmentKeepsRound(S, w.core, p.env, p.intent, peer.value.publicKey, PickId(p.env.session, input.newId),
                              input, out, key);
          }
      }
    }
  }

  lemma DeliverKeepsRound(S: Setup, st: State, env: Envelope, input: Input, key: string, c: CachedRound)
    requires key in st.rounds && st.rounds[key] == c && input.clock.dedupe < c.expires
    ensures var out := Deliver(S, st, env, input);
            && key in out.state.rounds && out.state.rounds[key] == c
            && (out.outcome.Awaiting? ==> RoundKey(S, out.outcome.pending.env) != key)
  {
    var st1, out := Fresh(S, st, env, input), Deliver(S, st, env, input);
    DeliverShape(S, st, env, input);
    assert key in st1.rounds && st1.rounds[key] == c;
    if RoundKey(S, env) != key && !Idle(st1, out) {
      SegmentKeepsRound(S, st1, env, env.intent.intent, st.rx[env.session].signer, st.rx[env.session].internal, input,
                        out, key);
    }
  }

  // --- whole runs ---------------------------------------------------------------------------------

  /** Step `i` called the operation and was answered by it. */
  predicate AnsweredAt(S: Setup, w: World, steps: seq<Step>, i: nat)
    requires i < |steps|
  {
    CallAt(S, w, steps, i).Some? && !Refused(OutAt(S, w, steps, i).value)
  }

  /** What the round cache then holds for the envelope answered. */
  function Stored(S: Setup, w: World, steps: seq<Step>, i: nat): CachedRound
    requires i < |steps| && AnsweredAt(S, w, steps, i)
  {
    var out := OutAt(S, w, steps, i).value.outcome;
    CachedRound(steps[i].input.clock.store + 1_800_000_000, if out.Answered? then out.reply else None)
  }

  /**
   * Step `j` delivers again what was answered at step `i`, before the stored reply expires: the same
   * envelope, or another of its session, phase and payload, with whatever intent or none.
   */
  ghost predicate Copy(S: Setup, w: World, steps: seq<Step>, i: nat, j: nat)
    requires i < |steps| && j < |steps|
  {
    && i < j && AnsweredAt(S, w, steps, i)
    && steps[j].Arrive? && Understood(S, steps[j].env)
    && RoundKey(S, steps[j].env) == RoundKey(S, CallAt(S, w, steps, i).value.env)
    && steps[j].input.clock.dedupe < Stored(S, w, steps, i).expires
  }

  ghost predicate CleanPending(w: World) {
    forall h :: h in w.pending ==> BarFree(h.0)
  }

  lemma {:induction false} CleanPendingRun(S: Setup, w: World, steps: seq<Step>, i: nat)
    requires CleanPending(w) && AllClean(S, steps) && i <= |steps|
    ensures CleanPending(Before(S, w, steps, i))
    decreases i
  {
    if i > 0 {
      CleanPendingRun(S, w, steps, i - 1);
      RunStep(S, w, steps, i - 1);
    }
  }

  lemma SegmentStores(S: Setup, st: State, env: Envelope, intent: Intent, signer: bytes, id: string, input: Input,
        out: StepOut)
    requires Checked(S, st, env, intent, signer, id, input, out) && out.call.Some? && !Refused(out)
    ensures out.outcome.Answered? && out.call.value.env == env
    ensures RoundKey(S, env) in out.state.rounds
    ensures out.state.rounds[RoundKey(S, env)] == CachedRound(input.clock.store + 1_800_000_000, out.outcome.reply)
  {
  }

  lemma AnswerIsStored(S: Setup, w: World, step: Step)
    requires Sound(S, w) && Enabled(w, step) && Act(S, w, step).call.Some? && !Refused(Act(S, w, step))
    ensures var out, env := Act(S, w, step), Act(S, w, step).call.value.env;
            && Understood(S, env) && out.outcome.Answered? && env.session == HandlerOf(step).0
            && RoundKey(S, env) in out.state.rounds
            && out.state.rounds[RoundKey(S, env)]
               == CachedRound(step.input.clock.store + 1_800_000_000, out.outcome.reply)
  {
    var st, out := w.core, Act(S, w, step);
    match step
    case Arrive(_, env, input) =>
      DeliverShape(S, st, env, input);
      var rx := st.rx[env.session];
      SegmentStores(S, Fresh(S, st, env, input), env, env.intent.intent, rx.signer, rx.internal, input, out);
    case Resolved(_, _, peer, input) =>
      var p := w.pending[HandlerOf(step)];
      ResumeShape(S, st, p, peer, input);
      SegmentStores(S, st, p.env, p.intent, peer.value.publicKey, PickId(p.env.session, input.newId), input, out);
  }

  /** The answer to an envelope is held once the step is done: no other handler of its session waits. */
  lemma AnswerIsHeld(S: Setup, w: World, step: Step)
    requires Quiet(w) && Sound(S, w) && CleanPending(w) && CleanStep(step) && BarFree(S.behaviour.id)
    requires Enabled(w, step) && Act(S, w, step).call.Some? && !Refused(Act(S, w, step))
    ensures var out, env := Act(S, w, step), Act(S, w, step).call.value.env;
            && Understood(S, env) && out.outcome.Answered?
            && Held(S, Next(S, w, step), RoundKey(S, env),
                    CachedRound(step.input.clock.store + 1_800_000_000, out.outcome.reply))
  {
    var env := Act(S, w, step).call.value.env;
    AnswerIsStored(S, w, step);
    CallMeaning(S, w, step);
    RoundKeyNamesSession(S, env);
    forall h | h in Next(S, w, step).pending
      ensures RoundKey(S, w.pending[h].env) != RoundKey(S, env)
    {
      assert h.0 != env.session;
      RoundKeyNamesSession(S, w.pending[h].env);
    }
  }

  lemma {:induction false} ClockBetween(steps: seq<Step>, t: int, m: nat, j: nat)
    requires Monotone(steps, t) && m <= j < |steps|
    ensures steps[m].input.clock.dedupe <= steps[j].input.clock.dedupe
    decreases |steps|
  {
    var n := |steps| - 1;
    if j < n {
      ClockBetween(steps[..n], t, m, j);
    } else if m < j {
      ClockBetween(steps[..n], t, m, n - 1);
      LastReading(steps[..n], t);
    }
  }

  lemma LastReading(steps: seq<Step>, t: int)
    requires Monotone(steps, t) && steps != []
    ensures steps[|steps| - 1].input.clock.dedupe <= End(steps, t)
  {
  }

  lemma {:induction false} HeldRun(S: Setup, w: World, steps: seq<Step>, t: int, key: string, c: CachedRound, i: nat,
        j: nat)
    requires i <= j < |steps| && Monotone(steps, t) && steps[j].input.clock.dedupe < c.expires
    requires Held(S, Before(S, w, steps, i), key, c)
    ensures Held(S, Before(S, w, steps, j), key, c)
    decreases j
  {
    if i < j {
      ClockBetween(steps, t, j - 1, j);
      HeldRun(S, w, steps, t, key, c, i, j - 1);
      RunStep(S, w, steps, j - 1);
      HeldKept(S, Before(S, w, steps, j - 1), steps[j - 1], key, c);
    }
  }

  /** A copy is answered from the cache, with the same reply, whatever came in between. */
  lemma CopyIsHit(S: Setup, w: World, steps: seq<Step>, t: int, i: nat, j: nat)
    requires Guarded(S, w, steps, t) && CleanPending(w)
    requires i < |steps| && j < |steps| && Copy(S, w, steps, i, j)
    ensures Hit(S, Before(S, w, steps, j), steps[j])
    ensures See(S, Before(S, w, steps, j), steps[j]) == Seen(See(S, Before(S, w, steps, i), steps[i]).outcome, None)
  {
    var v, step := Before(S, w, steps, i), steps[i];
    var env, c := CallAt(S, w, steps, i).value.env, Stored(S, w, steps, i);
    CleanIsNamed(S, steps);
    QuietRun(S, w, steps, i);
    SoundBefore(S, w, steps, i);
    CleanPendingRun(S, w, steps, i);
    AnswerIsHeld(S, v, step);
    RunStep(S, w, steps, i);
    HeldRun(S, w, steps, t, RoundKey(S, env), c, i + 1, j);
    assert Admits(S, Before(S, w, steps, j), steps[j]);
    HitChangesNothing(S, Before(S, w, steps, j), steps[j]);
  }

  ghost predicate Copies(S: Setup, w: World, steps: seq<Step>, drop: set<nat>) {
    forall j :: j in drop ==> j < |steps| && exists i :: 0 <= i < |steps| && Copy(S, w, steps, i, j)
  }

  /**
   * Duplicate delivery is a stutter: take any number of copies out of a run, and every other reply
   * and call stays the same; so do, in the end, both session tables, the waiting handlers, the replay
   * cache and the unexpired replies.
   */
  lemma DuplicatesStutter(S: Setup, w: World, steps: seq<Step>, t: int, drop: set<nat>)
    requires Guarded(S, w, steps, t) && CleanPending(w) && Copies(S, w, steps, drop)
    ensures Kept(Trace(S, w, steps), drop) == Trace(S, w, Kept(steps, drop))
    ensures var a, b := Run(S, w, steps), Run(S, w, Kept(steps, drop));
            && a.core.rx == b.core.rx && a.core.ops == b.core.ops && a.pending == b.pending
            && a.core.replay == b.core.replay
            && SweepRounds(a.core.rounds, End(steps, t)) == SweepRounds(b.core.rounds, End(steps, t))
  {
    var all: Part := x => true;
    forall j | 0 <= j < |steps| && j in drop
      ensures Hit(S, Before(S, w, steps, j), steps[j])
    {
      var i :| 0 <= i < |steps| && Copy(S, w, steps, i, j);
      CopyIsHit(S, w, steps, t, i, j);
    }
    SeenAlone(S, all, w, steps, drop, t);
    SameToAll(all, Run(S, w, steps), Run(S, w, Kept(steps, drop)), End(steps, t));
  }

  lemma SameToAll(all: Part, a: World, b: World, t: int)
    requires Same(all, a, b, t) && Total(all)
    ensures a.core.rx == b.core.rx && a.core.ops == b.core.ops && a.pending == b.pending
    ensures a.core.replay == b.core.replay
    ensures SweepRounds(a.core.rounds, t) == SweepRounds(b.core.rounds, t)
  {
    forall k ensures k in SweepRounds(a.core.rounds, t) <==> k in SweepRounds(b.core.rounds, t)
    {
      assert all(KeySession(k));
    }
    forall h: Handler ensures h in a.pending <==> h in b.pending {
      assert all(h.0);
    }
  }

  // --- why the ids have to be clean -----------------------------------------------------------------

  /** Another session's envelope that shares the cache key of `a`. */
  predicate Sharing(S: Setup, a: Envelope, b: Envelope) {
    Understood(S, b) && b.session != a.session && RoundKey(S, b) == RoundKey(S, a)
  }

  /**
   * A reply stored for one session answers another one's envelope: there is such an envelope exactly
   * when the session or the phase answered holds a bar, and delivered next it gets that reply.
   */
  lemma StoredReplyCrosses(S: Setup, w: World, step: Step)
    requires Sound(S, w) && Enabled(w, step) && Act(S, w, step).call.Some? && !Refused(Act(S, w, step))
    ensures var a := Act(S, w, step).call.value.env;
            (exists b :: Sharing(S, a, b)) <==> !(BarFree(a.session) && BarFree(a.phase))
    ensures var out, v := Act(S, w, step), Next(S, w, step);
            forall b, n, input :: Sharing(S, out.call.value.env, b) && Enabled(v, Arrive(n, b, input))
                                  && input.clock.dedupe < step.input.clock.store + 1_800_000_000 ==>
              See(S, v, Arrive(n, b, input)) == Seen(out.outcome, None)
  {
    var out, v := Act(S, w, step), Next(S, w, step);
    var a := out.call.value.env;
    AnswerIsStored(S, w, step);
    SharedAcrossSessions(S, a);
    if b: Envelope :| b.operation == a.operation && b.session != a.session && RoundKey(S, b) == RoundKey(S, a) {
      assert RoundKey(S, b.(version := WIRE_VERSION)) == RoundKey(S, b);
      assert Sharing(S, a, b.(version := WIRE_VERSION));
    }
    if b :| Sharing(S, a, b) {
      assert b.operation == a.operation;
    }
    forall b, n, input | Sharing(S, a, b) && Enabled(v, Arrive(n, b, input))
                         && input.clock.dedupe < step.input.clock.store + 1_800_000_000
      ensures See(S, v, Arrive(n, b, input)) == Seen(out.outcome, None)
    {
      HitChangesNothing(S, v, Arrive(n, b, input));
    }
  }
}
