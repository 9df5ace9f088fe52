/**
 * The consequences of isolation for whole runs: a session's replies and final state depend only on
 * its own segments, and deliveries answered from the round cache can be left out of a run.
 */
module Projection {
  import opened Wrappers
  import opened Receiver
  import opened ReceiverRuns
  import opened ReceiverSafety
  import opened Keys
  import opened Isolation

  /** The items whose positions are not dropped, in order. */
  function Kept<T>(xs: seq<T>, drop: set<nat>): seq<T> {
    if xs == [] then []
    else
      var n := |xs| - 1;
      Kept(xs[..n], drop) + (if n in drop then [] else [xs[n]])
  }

  /** What is seen of each step. */
  function Trace(S: Setup, w: World, steps: seq<Step>): seq<Seen> {
    if steps == [] then []
    else
      var n := |steps| - 1;
      Trace(S, w, steps[..n]) + [See(S, Run(S, w, steps[..n]), steps[n])]
  }

  /** The last clock reading. */
  function End(steps: seq<Step>, t: int): int {
    if steps == [] then t else steps[|steps| - 1].input.clock.store
  }

  /** The clock never goes back, from `t` on. */
  predicate Monotone(steps: seq<Step>, t: int) {
    steps != [] ==>
      var n := |steps| - 1;
      Monotone(steps[..n], t) && Ordered(steps[n].input.clock, End(steps[..n], t))
  }

  ghost predicate AllClean(S: Setup, steps: seq<Step>) {
    BarFree(S.behaviour.id) && forall i :: 0 <= i < |steps| ==> CleanStep(steps[i])
  }

  /** A world that runs under the session lock, with clean ids and a clock that does not go back. */
  ghost predicate Guarded(S: Setup, w: World, steps: seq<Step>, t: int) {
    Quiet(w) && Sound(S, w) && Exclusive(S, w, steps) && AllClean(S, steps) && Monotone(steps, t)
  }

  lemma CleanIsNamed(S: Setup, steps: seq<Step>)
    requires AllClean(S, steps)
    ensures AllNamed(steps)
  {
  }

  /** An arrival that is answered from the round cache. */
  predicate Hit(S: Setup, w: World, step: Step) {
    && step.Arrive? && Enabled(w, step)
    && Understood(S, step.env)
    && RoundKey(S, step.env) in SweepRounds(w.core.rounds, step.input.clock.dedupe)
  }

  /** It returns the stored reply and does nothing but sweep the round cache. */
  lemma HitChangesNothing(S: Setup, w: World, step: Step)
    requires Hit(S, w, step)
    ensures See(S, w, step) == Seen(Answered(w.core.rounds[RoundKey(S, step.env)].reply), None)
    ensures Next(S, w, step) == World(w.core.(rounds := SweepRounds(w.core.rounds, step.input.clock.dedupe)), w.pending)
  {
    var h := HandlerOf(step);
    assert (map k | k in w.pending && k != h :: w.pending[k]) == w.pending;
  }

  lemma HitStep(S: Setup, P: Part, w: World, step: Step, t: int)
    requires Hit(S, w, step) && Ordered(step.input.clock, t)
    ensures Same(P, Next(S, w, step), w, step.input.clock.store)
  {
    HitChangesNothing(S, w, step);
    var m, now := w.core.rounds, step.input.clock.dedupe;
    assert SweepRounds(SweepRounds(m, now), step.input.clock.store) == SweepRounds(m, step.input.clock.store);
  }

  /** The steps dropped are other sessions' or cache hits, and every other step is kept. */
  ghost predicate Droppable(S: Setup, P: Part, w: World, steps: seq<Step>, drop: set<nat>) {
    forall i :: 0 <= i < |steps| ==>
      var own := P(HandlerOf(steps[i]).0);
      if i in drop then !own || Hit(S, Before(S, w, steps, i), steps[i]) else own
  }

  lemma DroppableFront(S: Setup, P: Part, w: World, steps: seq<Step>, drop: set<nat>)
    requires Droppable(S, P, w, steps, drop) && steps != []
    ensures Droppable(S, P, w, steps[..|steps| - 1], drop)
  {
    var front := steps[..|steps| - 1];
    forall i | 0 <= i < |front|
      ensures Before(S, w, front, i) == Before(S, w, steps, i)
    {
      assert front[..i] == steps[..i];
    }
  }

  lemma {:induction false} SoundRun(S: Setup, w: World, steps: seq<Step>)
    requires Sound(S, w) && AllClean(S, steps)
    ensures Sound(S, Run(S, w, steps))
    decreases |steps|
  {
    if steps != [] {
      var n := |steps| - 1;
      SoundRun(S, w, steps[..n]);
      SoundKept(S, Run(S, w, steps[..n]), steps[n]);
    }
  }

  lemma SoundBefore(S: Setup, w: World, steps: seq<Step>, i: nat)
    requires Sound(S, w) && AllClean(S, steps) && i <= |steps|
    ensures Sound(S, Before(S, w, steps, i))
  {
    assert AllClean(S, steps[..i]);
    SoundRun(S, w, steps[..i]);
  }

  lemma {:induction false} KeptClean(S: Setup, steps: seq<Step>, drop: set<nat>)
    requires AllClean(S, steps)
    ensures AllClean(S, Kept(steps, drop))
    decreases |steps|
  {
    if steps != [] {
      KeptClean(S, steps[..|steps| - 1], drop);
    }
  }

  lemma RunSnoc(S: Setup, w: World, steps: seq<Step>, step: Step)
    ensures Run(S, w, steps + [step]) == Next(S, Run(S, w, steps), step)
    ensures Trace(S, w, steps + [step]) == Trace(S, w, steps) + [See(S, Run(S, w, steps), step)]
  {
    assert (steps + [step])[..|steps|] == steps;
  }

  lemma SameTransitive(P: Part, u: World, v: World, w: World, t: int)
    requires Same(P, u, v, t) && Same(P, v, w, t)
    ensures Same(P, u, w, t)
  {
    AlikeTransitive(P, u.core, v.core, w.core, t);
  }

  lemma SameLater(P: Part, v: World, w: World, t: int, u: int)
    requires Same(P, v, w, t) && t <= u
    ensures Same(P, v, w, u)
  {
    Later(P, v.core, w.core, t, u);
  }

  lemma {:induction false} TraceLength(S: Setup, w: World, steps: seq<Step>)
    ensures |Trace(S, w, steps)| == |steps|
    decreases |steps|
  {
    if steps != [] {
      TraceLength(S, w, steps[..|steps| - 1]);
    }
  }

  lemma KeptSnoc<T>(xs: seq<T>, x: T, drop: set<nat>)
    ensures Kept(xs + [x], drop) == Kept(xs, drop) + (if |xs| in drop then [] else [x])
  {
    assert (xs + [x])[..|xs|] == xs;
  }

  /** Running what is kept, one step at a time. */
  lemma KeptRun(S: Setup, w: World, steps: seq<Step>, drop: set<nat>)
    requires steps != []
    ensures var n := |steps| - 1;
            var kept := Kept(steps[..n], drop);
            && Run(S, w, Kept(steps, drop)) ==
               (if n in drop then Run(S, w, kept) else Next(S, Run(S, w, kept), steps[n]))
            && Trace(S, w, Kept(steps, drop)) ==
               Trace(S, w, kept) + (if n in drop then [] else [See(S, Run(S, w, kept), steps[n])])
  {
    var n := |steps| - 1;
    var kept := Kept(steps[..n], drop);
    if n in drop {
      assert kept + [] == kept && Trace(S, w, kept) + [] == Trace(S, w, kept);
    } else {
      RunSnoc(S, w, kept, steps[n]);
    }
  }

  lemma KeptTrace(S: Setup, w: World, steps: seq<Step>, drop: set<nat>)
    requires steps != []
    ensures var n := |steps| - 1;
            Kept(Trace(S, w, steps), drop) ==
            Kept(Trace(S, w, steps[..n]), drop) + (if n in drop then [] else [See(S, Run(S, w, steps[..n]), steps[n])])
  {
    var n := |steps| - 1;
    TraceLength(S, w, steps[..n]);
    KeptSnoc(Trace(S, w, steps[..n]), See(S, Run(S, w, steps[..n]), steps[n]), drop);
  }

  /** One step keeps the whole run `v` and the thinned run `u` the same to the set. */
  lemma SameStep(S: Setup, P: Part, w: World, steps: seq<Step>, drop: set<nat>, u: World, t: int)
    requires steps != [] && Droppable(S, P, w, steps, drop) && AllClean(S, steps)
    requires Sound(S, Run(S, w, steps[..|steps| - 1])) && Sound(S, u)
    requires Ordered(steps[|steps| - 1].input.clock, t) && Same(P, Run(S, w, steps[..|steps| - 1]), u, t)
    ensures var n := |steps| - 1;
            && Same(P, Run(S, w, steps), if n in drop then u else Next(S, u, steps[n]), End(steps, t))
            && (n !in drop ==> See(S, Run(S, w, steps[..n]), steps[n]) == See(S, u, steps[n]))
  {
    var n := |steps| - 1;
    var v := Run(S, w, steps[..n]);
    if n in drop {
      DroppedStep(S, P, w, steps, drop, t);
      SameLater(P, v, u, t, End(steps, t));
      SameTransitive(P, Run(S, w, steps), v, u, End(steps, t));
    } else {
      OwnStep(S, P, v, u, t, steps[n]);
    }
  }

  /**
   * A run seen by a set of sessions is the run of its own steps: same replies and calls, and in the
   * end the same sessions, waiting handlers and unexpired cache entries.
   */
  lemma {:induction false} SeenAlone(S: Setup, P: Part, w: World, steps: seq<Step>, drop: set<nat>, t: int)
    requires Sound(S, w) && AllClean(S, steps) && Monotone(steps, t) && Droppable(S, P, w, steps, drop)
    ensures Same(P, Run(S, w, steps), Run(S, w, Kept(steps, drop)), End(steps, t))
    ensures Kept(Trace(S, w, steps), drop) == Trace(S, w, Kept(steps, drop))
    decreases |steps|
  {
    if steps != [] {
      var front := steps[..|steps| - 1];
      DroppableFront(S, P, w, steps, drop);
      SeenAlone(S, P, w, front, drop, t);
      SoundRun(S, w, front);
      KeptClean(S, front, drop);
      SoundRun(S, w, Kept(front, drop));
      SameStep(S, P, w, steps, drop, Run(S, w, Kept(front, drop)), End(front, t));
      KeptRun(S, w, steps, drop);
      KeptTrace(S, w, steps, drop);
    }
  }

  lemma DroppedStep(S: Setup, P: Part, w: World, steps: seq<Step>, drop: set<nat>, t: int)
    requires steps != [] && Droppable(S, P, w, steps, drop) && |steps| - 1 in drop && AllClean(S, steps)
    requires Sound(S, Run(S, w, steps[..|steps| - 1])) && Ordered(steps[|steps| - 1].input.clock, t)
    ensures Same(P, Run(S, w, steps), Run(S, w, steps[..|steps| - 1]), End(steps, t))
  {
    var n := |steps| - 1;
    var v := Run(S, w, steps[..n]);
    if P(HandlerOf(steps[n]).0) {
      assert Before(S, w, steps, n) == v;
      HitStep(S, P, v, steps[n], t);
    } else {
      OtherStep(S, P, v, steps[n], t);
    }
  }

  // --- one session -------------------------------------------------------------------------------

  /** The positions of the steps of other sessions. */
  function Others(steps: seq<Step>, s: string): set<nat> {
    set i: nat | i < |steps| && HandlerOf(steps[i]).0 != s
  }

  function OwnSteps(steps: seq<Step>, s: string): seq<Step> {
    Kept(steps, Others(steps, s))
  }

  function Only(s: string): Part {
    x => x == s
  }

  /**
   * Whatever other sessions do in between, a session's replies, calls and final state are those of
   * its own segments alone.
   */
  lemma SessionsAreIsolated(S: Setup, w: World, steps: seq<Step>, s: string, t: int)
    requires Sound(S, w) && AllClean(S, steps) && Monotone(steps, t)
    ensures Kept(Trace(S, w, steps), Others(steps, s)) == Trace(S, w, OwnSteps(steps, s))
    ensures Same(Only(s), Run(S, w, steps), Run(S, w, OwnSteps(steps, s)), End(steps, t))
  {
    SeenAlone(S, Only(s), w, steps, Others(steps, s), t);
  }

  /** So two interleavings of the same segments of a session show it the same. */
  lemma InterleavingsAgree(S: Setup, w: World, xs: seq<Step>, ys: seq<Step>, s: string, t: int)
    requires Sound(S, w) && AllClean(S, xs) && AllClean(S, ys) && Monotone(xs, t) && Monotone(ys, t)
    requires OwnSteps(xs, s) == OwnSteps(ys, s)
    ensures Kept(Trace(S, w, xs), Others(xs, s)) == Kept(Trace(S, w, ys), Others(ys, s))
    ensures Same(Only(s), Run(S, w, xs), Run(S, w, ys), Latest(End(xs, t), End(ys, t)))
  {
    SessionsAreIsolated(S, w, xs, s, t);
    SessionsAreIsolated(S, w, ys, s, t);
    SameMiddle(Only(s), Run(S, w, xs), Run(S, w, ys), Run(S, w, OwnSteps(xs, s)), End(xs, t), End(ys, t));
  }

  function Latest(t: int, u: int): int {
    if t <= u then u else t
  }

  lemma SameMiddle(P: Part, v: World, u: World, middle: World, t: int, r: int)
    requires Same(P, v, middle, t) && Same(P, u, middle, r)
    ensures Same(P, v, u, Latest(t, r))
  {
    SameLater(P, v, middle, t, Latest(t, r));
    SameLater(P, u, middle, r, Latest(t, r));
  }
}
