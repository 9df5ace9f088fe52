/** The run of two cores again, while the receiver serves any number of other sessions in between. */
module UnderLoad {
  import opened Wrappers
  import opened Json
  import opened Operations
  import opened Receiver
  import opened ReceiverRuns
  import opened ReceiverSafety
  import opened Initiator
  import opened Isolation
  import opened Projection
  import opened Duplicates
  import opened HonestCore
  import opened EndToEnd

  /** The three segments in which the receiver handles two envelopes of a session. */
  function Segments(e0: Envelope, e1: Envelope, b: Side, n: nat, m: nat): seq<Step> {
    [Arrive(n, e0, b.first), Resolved(e0.session, n, Some(b.peer), b.second), Arrive(m, e1, b.third)]
  }

  function OwnSegments(g: Deal, n: nat, m: nat): seq<Step> {
    Segments(InitEnvelope(g), Msg1Envelope(g), g.b, n, m)
  }

  /** What is seen of them where nothing else happens. */
  lemma SeenOfTwo(B: Setup, w: World, e0: Envelope, e1: Envelope, b: Side, n: nat, m: nat)
    requires Free(w, e0.session) && e1.session == e0.session
    requires Deliver(B, w.core, e0, b.first).outcome.Awaiting?
    requires Serve(B, w.core, e0, b.peer, b.first, b.second).1.Answered?
    requires Deliver(B, Serve(B, w.core, e0, b.peer, b.first, b.second).0, e1, b.third).outcome.Answered?
    ensures var (st1, answer) := Serve(B, w.core, e0, b.peer, b.first, b.second);
            var own, last := Segments(e0, e1, b, n, m), Deliver(B, st1, e1, b.third);
            && |Trace(B, w, own)| == 3 && Trace(B, w, own)[1].Seen? && Trace(B, w, own)[2].Seen?
            && Trace(B, w, own)[1].outcome == answer && Trace(B, w, own)[2].outcome == last.outcome
            && Run(B, w, own).core == last.state
  {
    var own := Segments(e0, e1, b, n, m);
    var w1 := Next(B, w, own[0]);
    var w2 := Next(B, w1, own[1]);
    assert (e0.session, n) !in w.pending;
    RunSnoc(B, w, [], own[0]);
    RunSnoc(B, w, [own[0]], own[1]);
    RunSnoc(B, w, [own[0], own[1]], own[2]);
    assert [] + [own[0]] == [own[0]] && [own[0]] + [own[1]] == [own[0], own[1]] && [own[0], own[1]] + [own[2]] == own;
    assert Enabled(w1, own[1]);
    assert (e0.session, m) !in w2.pending;
    assert Enabled(w2, own[2]);
  }

  /** The network answers with what is seen of the two envelopes' last segments. */
  ghost predicate Relayed(seen: seq<Seen>, job: Job) {
    && (|seen| > 1 && seen[1].Seen? ==> job.network(0) == Carried(seen[1].outcome))
    && (|seen| > 2 && seen[2].Seen? ==> job.network(1) == Carried(seen[2].outcome))
  }

  lemma ServedAlone(g: Deal, w: World, n: nat, m: nat)
    requires Ready(g) && NewTo(w.core, g.Sid()) && Free(w, g.Sid())
    ensures Relayed(Trace(g.B, w, OwnSegments(g, n, m)), g.job) ==> Answering(g, w.core)
    ensures var after := Run(g.B, w, OwnSegments(g, n, m)).core; after.rx == w.core.rx && after.ops == w.core.ops
  {
    var st1 := ServeInit(g, w.core).0;
    InitServed(g, w.core);
    Msg1IsNew(g, w.core, st1);
    Msg1Served(g, st1, w.core);
    SeenOfTwo(g.B, w, InitEnvelope(g), Msg1Envelope(g), g.b, n, m);
  }

  /**
   * In a run of the receiver in which, once the segments of other sessions and the deliveries answered
   * from the cache are left out, the run's two envelopes are handled, `run_intent` fed with the replies
   * seen there ends with the verdict, and in the end neither side holds anything of the session.
   */
  lemma RunsAmong(g: Deal, ops: Table, w: World, peer: Peer, xs: seq<Step>, drop: set<nat>, n: nat, m: nat, t: int,
                  crowd: Crowd)
    requires Ready(g) && g.A.compatible(peer) && g.Sid() !in ops && NewTo(w.core, g.Sid()) && Free(w, g.Sid())
    requires Sound(g.B, w) && AllClean(g.B, xs) && Monotone(xs, t) && Droppable(g.B, Only(g.Sid()), w, xs, drop)
    requires Kept(xs, drop) == OwnSegments(g, n, m) && Relayed(Kept(Trace(g.B, w, xs), drop), g.job)
    requires Polite(crowd, g.Sid())
    ensures Decided(g, RunIntent(g.A, ops, Some(peer), g.job.(crowd := crowd)))
    ensures g.Sid() !in Run(g.B, w, xs).core.rx && g.Sid() !in Run(g.B, w, xs).core.ops
  {
    Projection.SeenAlone(g.B, Only(g.Sid()), w, xs, drop, t);
    ServedAlone(g, w, n, m);
    RunsThrough(g, ops, w.core, peer);
    RunIsLocal(g.A, ops, Some(peer), g.job, crowd);
    GoneFrom(g.Sid(), Run(g.B, w, xs), Run(g.B, w, Kept(xs, drop)), End(xs, t));
  }

  /** The run has ended with the verdict after its two envelopes, and left no session behind. */
  ghost predicate Decided(g: Deal, out: RunOut) {
    && out.end == Finished(g.Sid(), Obj([Field("is_match", Bool(g.Verdict()))]))
    && out.sent == [InitEnvelope(g), Msg1Envelope(g)] && g.Sid() !in out.ops
  }

  /** All steps of other sessions, and of this one nothing but copies of what was answered before. */
  ghost predicate Extra(B: Setup, w: World, xs: seq<Step>, s: string, drop: set<nat>) {
    forall i :: 0 <= i < |xs| ==>
      if HandlerOf(xs[i]).0 == s then i in drop ==> exists j :: 0 <= j < |xs| && Copy(B, w, xs, j, i) else i in drop
  }

  /**
   * End to end under load: the receiver handles any number of other sessions, and any number of copies
   * of the run's own envelopes, before, between and after; other handlers run in the initiator's core.
   */
  lemma RunsUnderLoad(g: Deal, ops: Table, w: World, peer: Peer, xs: seq<Step>, drop: set<nat>, n: nat, m: nat, t: int,
                      crowd: Crowd)
    requires Ready(g) && g.A.compatible(peer) && g.Sid() !in ops && NewTo(w.core, g.Sid()) && Free(w, g.Sid())
    requires Guarded(g.B, w, xs, t) && CleanPending(w) && Extra(g.B, w, xs, g.Sid(), drop)
    requires Kept(xs, drop) == OwnSegments(g, n, m) && Relayed(Kept(Trace(g.B, w, xs), drop), g.job)
    requires Polite(crowd, g.Sid())
    ensures Decided(g, RunIntent(g.A, ops, Some(peer), g.job.(crowd := crowd)))
    ensures g.Sid() !in Run(g.B, w, xs).core.rx && g.Sid() !in Run(g.B, w, xs).core.ops
  {
    ExtraIsDroppable(g.B, w, xs, g.Sid(), drop, t);
    RunsAmong(g, ops, w, peer, xs, drop, n, m, t, crowd);
  }

  lemma ExtraIsDroppable(B: Setup, w: World, xs: seq<Step>, s: string, drop: set<nat>, t: int)
    requires Guarded(B, w, xs, t) && CleanPending(w) && Extra(B, w, xs, s, drop)
    ensures Droppable(B, Only(s), w, xs, drop)
  {
    forall i | 0 <= i < |xs| && i in drop && HandlerOf(xs[i]).0 == s
      ensures Hit(B, Before(B, w, xs, i), xs[i])
    {
      var j :| 0 <= j < |xs| && Copy(B, w, xs, j, i);
      CopyIsHit(B, w, xs, t, j, i);
    }
  }

  lemma GoneFrom(s: string, a: World, b: World, t: int)
    requires Same(Only(s), a, b, t) && s !in b.core.rx && s !in b.core.ops
    ensures s !in a.core.rx && s !in a.core.ops
  {
    assert Only(s)(s);
  }
}
