/** The assumptions of the end-to-end theorems can be met: primitives, services and two cores that do. */
module Witness {
  import opened Wrappers
  import opened Bytes
  import opened Json
  import Modular
  import opened Ristretto
  import opened Crypto
  import opened Directives
  import opened Operations
  import opened Receiver
  import opened ReceiverRuns
  import opened Isolation
  import opened Duplicates
  import opened Initiator
  import opened PsiOperation
  import opened HonestCore
  import opened EndToEnd
  import opened Keys
  import X = ExpiryInstant
  import H = HonestPsi

  // --- primitives -------------------------------------------------------------------------

  function Chars(b: bytes): string {
    seq(|b|, i requires 0 <= i < |b| => b[i] as char)
  }

  function Unchars(s: string): Option<bytes> {
    if forall i :: 0 <= i < |s| ==> s[i] as int < 256 then
      Some(seq(|s|, i requires 0 <= i < |s| && s[i] as int < 256 => s[i] as int))
    else None
  }

  lemma CharsRoundTrip(b: bytes)
    ensures Unchars(Chars(b)) == Some(b) && |Chars(b)| == |b|
  {
    var s := Chars(b);
    assert forall i :: 0 <= i < |s| ==> s[i] as int < 256;
    assert Unchars(s).value == b;
  }

  /** A toy instance over a group of order three: hashes are constant, so everything collides. */
  function Toy(G: Group): Primitives {
    Primitives(G, b => Zeros(32), (sid, x) => G.gen, (sid, p, q) => Zeros(32), (y, t, base, sid) => 1, Chars, Unchars,
               v => "")
  }

  lemma ToyIsIdeal(group: Group)
    requires Laws(group) && group.order == 3
    ensures Toy(group).Ideal()
  {
    var toy := Toy(group);
    forall b: bytes ensures toy.b64d(toy.b64e(b)) == Some(b) && |toy.b64e(b)| == |b| {
      CharsRoundTrip(b);
    }
  }

  function ToyDraws(): Draws {
    Draws(Zeros(32), Zeros(32), 1, 1, [])
  }

  lemma ToyIsRegular(G: Group)
    requires Laws(G) && G.order == 3
    ensures H.Regular(Toy(G), H.Dice(ToyDraws(), ToyDraws(), ToyDraws(), ToyDraws()), "x", ["x"])
  {
    ToyIsIdeal(G);
    assert (1 + 1 * 1) % 3 != 0;
  }

  // --- services -----------------------------------------------------------------------------

  ghost function ReadTime(s: string): Option<int> {
    if exists t: int :: Number(t) == s then
      var t: int :| Number(t) == s;
      Some(t)
    else None
  }

  ghost function ToyServices(): Services {
    Services((k, m, s) => true, (k, m) => "s", k => k, ReadTime, Number)
  }

  lemma ToyServicesIdeal()
    ensures ToyServices().Ideal()
  {
    forall t: int ensures ReadTime(Number(t)) == Some(t) {
      var u: int := ReadTime(Number(t)).value;
      assert Number(u) + "" == Number(t) + "";
      NumberDecode(u, t, "", "");
    }
  }

  // --- two cores --------------------------------------------------------------------------------

  ghost function ToySetup(C: Primitives, url: string): Setup {
    Setup(Psi(C), "PSI", url, [], ToyServices(), C.sha256, C.b64e, u => u, u => true, p => true)
  }

  ghost function ToyDeal(C: Primitives): Deal {
    var d := ToyDraws();
    var input := Input(Clock(0, 0, 0, 0), Some(Config(["x"])), d, "");
    var job := Job("v", Str("x"), 0, "s", d, Stamp("r", "now"), n => Draft(if n == 0 then "a" else "b", "n", 0),
                   n => Lost, n => d, (n, t) => t);
    Deal(C, ToySetup(C, "u"), ToySetup(C, "v"), job, Side(Peer([], ""), input, input, input), "x", ["x"])
  }

  lemma ToyPartners(C: Primitives)
    ensures var g := ToyDeal(C); Partners(g.A, g.B, g.job, g.b.peer) && FreshIds(g.job)
  {
    ToyServicesIdeal();
  }

  lemma ToyInTime(C: Primitives)
    ensures var g := ToyDeal(C); InTime(g.job, 0, 0) && InTime(g.job, 1, 0)
  {
    var nonce := "n";
    assert !IsSpace(nonce[0]);
  }

  /** There are two cores ready to run. */
  lemma ReadyIsPossible()
    ensures exists g :: Ready(g)
  {
    ToyGroup();
    var group: Group :| Laws(group) && group.order == 3;
    var toy := Toy(group);
    ToyIsRegular(group);
    ToyPartners(toy);
    ToyInTime(toy);
    ToyIsReady(toy);
  }

  lemma ToyIsReady(C: Primitives)
    requires var g := ToyDeal(C);
             && Partners(g.A, g.B, g.job, g.b.peer) && FreshIds(g.job) && InTime(g.job, 0, 0) && InTime(g.job, 1, 0)
             && H.Regular(C, g.Dice(), "x", ["x"])
    ensures Ready(ToyDeal(C))
  {
  }

  // --- a run in which an intent is called on twice -------------------------------------------------

  ghost function ToyIntent(setup: Setup, sid: string, id: string, payload: Value): Intent {
    Intent(sid, id, "PSI", ["u", "v"], "n", HashPayload(setup, payload), Number(0), Some("x"))
  }

  ghost function ToyEnvelope(setup: Setup, sid: string, id: string, phase: string, payload: Value): Envelope {
    Envelope(WIRE_VERSION, PSI_ID, phase, sid, payload, None, Parsed(ToyIntent(setup, sid, id, payload)))
  }

  ghost function ToyOpening(C: Primitives, sid: string): X.Opening {
    var setup, payload := ToySetup(C, "v"), Str(C.b64e(Zeros(32)));
    X.Opening(ToyEnvelope(setup, sid, "a", "init", payload), ToyIntent(setup, sid, "a", payload), "u", Peer([], ""),
              Config(["x"]), ToyDraws())
  }

  ghost function ToyClosing(C: Primitives): X.Closing {
    var setup := ToySetup(C, "v");
    X.Closing(ToyEnvelope(setup, "s", "b", "msg1", Null), ToyIntent(setup, "s", "b", Null), ToyDraws())
  }

  lemma ToyIntentHolds(C: Primitives, sid: string, id: string, phase: string, payload: Value)
    ensures var setup, env := ToySetup(C, "v"), ToyEnvelope(ToySetup(C, "v"), sid, id, phase, payload);
            && IntentProblem(setup, env, ToyIntent(setup, sid, id, payload), 0) == None
            && ExpiryOf(setup, ToyIntent(setup, sid, id, payload)) == 0
  {
    ToyServicesIdeal();
    var nonce := "n";
    assert !IsSpace(nonce[0]);
  }

  lemma ToyKeysDiffer(C: Primitives)
    ensures var setup, o, c := ToySetup(C, "v"), ToyOpening(C, "s"), ToyClosing(C);
            RoundKey(setup, c.env) != RoundKey(setup, o.env) && IntentKey(o.peer.publicKey, c.env, c.intent) != o.Key()
  {
    ToyIntentKeysDiffer(C);
    ToyNames();
    PhasesDiffer(ToySetup(C, "v"), ToyOpening(C, "s").env, ToyClosing(C).env);
  }

  lemma ToyNames()
    ensures BarFree(PSI_ID) && BarFree("s") && BarFree("init") && "msg1" != "init"
  {
    assert "msg1"[0] != "init"[0];
  }

  lemma PhasesDiffer(setup: Setup, a: Envelope, b: Envelope)
    requires BarFree(a.operation) && BarFree(a.session) && BarFree(a.phase) && b.phase != a.phase
    ensures RoundKey(setup, b) != RoundKey(setup, a)
  {
    if RoundKey(setup, b) == RoundKey(setup, a) {
      RoundKeyInjective(setup, a, b);
    }
  }

  lemma ToyIntentKeysDiffer(C: Primitives)
    ensures var o, c := ToyOpening(C, "s"), ToyClosing(C); IntentKey(o.peer.publicKey, c.env, c.intent) != o.Key()
  {
    var o, c := ToyOpening(C, "s"), ToyClosing(C);
    HashBarFree(ToySetup(C, "v"), o.env.payload);
    if IntentKey(o.peer.publicKey, c.env, c.intent) == o.Key() {
      ReplayKeyInjective([], "s", "a", "n", o.intent.payloadHash, [], "s", "b", "n", c.intent.payloadHash);
    }
  }

  /** There is a PSI receiver, an `init` and a failing `msg1` with which an intent is called on twice. */
  lemma PsiRunIsPossible()
    ensures exists setup, C, o, c, t :: X.PsiRun(setup, C, o, c, t)
  {
    ToyGroup();
    var group: Group :| Laws(group) && group.order == 3;
    ToyIsIdeal(group);
    ToyPsiRun(Toy(group));
  }

  lemma ToyGroup()
    ensures exists G: Group :: Laws(G) && G.order == 3
  {
    assert !Modular.Divides(2, 3);
    ZqLaws(3);
  }

  lemma ToyPsiRun(C: Primitives)
    requires C.Ideal()
    ensures X.PsiRun(ToySetup(C, "v"), C, ToyOpening(C, "s"), ToyClosing(C), 0)
  {
    ToyAdmissible(C, "s");
    ToyBelongs(C);
  }

  lemma ToyAdmissible(C: Primitives, sid: string)
    requires sid != ""
    ensures X.Admissible(ToySetup(C, "v"), ToyOpening(C, sid))
    ensures ExpiryOf(ToySetup(C, "v"), ToyOpening(C, sid).intent) == 0
  {
    ToyIntentHolds(C, sid, "a", "init", Str(C.b64e(Zeros(32))));
  }

  lemma ToyBelongs(C: Primitives)
    ensures X.Belongs(ToySetup(C, "v"), ToyOpening(C, "s"), ToyClosing(C), 0)
  {
    ToyIntentHolds(C, "s", "b", "msg1", Null);
    ToyKeysDiffer(C);
  }

  // --- a reply that crosses ------------------------------------------------------------------------

  /** In world `w` the step is answered, and then the envelope of another session gets the same reply. */
  ghost predicate Crossed(S: Setup, w: World, step: Step, b: Envelope, n: nat, input: Input) {
    && Sound(S, w) && Enabled(w, step) && Act(S, w, step).call.Some? && !Refused(Act(S, w, step))
    && b.session != HandlerOf(step).0
    && See(S, Next(S, w, step), Arrive(n, b, input)) == Seen(Act(S, w, step).outcome, None)
  }

  /** An opening whose session holds a bar is answered like any other, and its reply crosses over. */
  lemma BarredCrosses(S: Setup, o: X.Opening, t: int)
    requires X.Opens(S, o) && !BarFree(o.Sid()) && t == ExpiryOf(S, o.intent) - THIRTY_MINUTES
    ensures exists w, b, n, input :: Crossed(S, w, X.Resolution(o, 0, t), b, n, input)
  {
    var w, step, input := Next(S, X.Empty(), X.Arrival(o, 0, t)), X.Resolution(o, 0, t), X.At(o.config, o.draws, t);
    X.FirstServing(S, o, t);
    X.ServedReply(S, o, X.Empty(), 0, t);
    SoundKept(S, X.Empty(), X.Arrival(o, 0, t));
    StoredReplyCrosses(S, w, step);
    var b :| Sharing(S, o.env, b);
    assert Crossed(S, w, step, b, 0, input);
  }

  /** There is a PSI receiver and an `init` whose reply another session gets. */
  lemma CrossingIsPossible()
    ensures exists S: Setup, w, step, b, n, input :: Crossed(S, w, step, b, n, input)
  {
    ToyGroup();
    var group: Group :| Laws(group) && group.order == 3;
    ToyIsIdeal(group);
    ToyCrosses(Toy(group), "s|t");
  }

  lemma ToyCrosses(C: Primitives, sid: string)
    requires C.Ideal() && sid != "" && !BarFree(sid)
    ensures exists S: Setup, w, step, b, n, input :: Crossed(S, w, step, b, n, input)
  {
    ToyOpens(C, sid);
    CrossesAnywhere(ToySetup(C, "v"), ToyOpening(C, sid));
  }

  lemma CrossesAnywhere(setup: Setup, o: X.Opening)
    requires X.Opens(setup, o) && !BarFree(o.Sid())
    ensures exists S: Setup, w, step, b, n, input :: Crossed(S, w, step, b, n, input)
  {
    var t := ExpiryOf(setup, o.intent) - THIRTY_MINUTES;
    BarredCrosses(setup, o, t);
    var w, b, n, input :| Crossed(setup, w, X.Resolution(o, 0, t), b, n, input);
  }

  lemma ToyOpens(C: Primitives, sid: string)
    requires C.Ideal() && sid != ""
    ensures X.Opens(ToySetup(C, "v"), ToyOpening(C, sid))
  {
    ToyAdmissible(C, sid);
    X.PsiOpens(ToySetup(C, "v"), C, ToyOpening(C, sid));
  }

  // --- a network ------------------------------------------------------------------------------------

  /** The same deal over a network that carries everything to the receiver in state `st` and back. */
  function Faithful(g: Deal, st: State): Deal {
    var first := Carried(ServeInit(g, st).1);
    var second := Carried(ServeMsg1(g, ServeInit(g, st).0).outcome);
    g.(job := g.job.(network := n => if n == 0 then first else second))
  }

  /** Every pair of cores that is ready has a network over which the run ends with the verdict. */
  lemma FaithfulRuns(g: Deal, ops: Table, st: State, peer: Peer)
    requires Ready(g) && g.A.compatible(peer) && g.Sid() !in ops && NewTo(st, g.Sid())
    ensures RunIntent(g.A, ops, Some(peer), Faithful(g, st).job) ==
            RunOut(Finished(g.Sid(), Obj([Field("is_match", Bool(g.Verdict()))])), ops,
                   [InitEnvelope(g), Msg1Envelope(g)])
  {
    var f := Faithful(g, st);
    assert InitEnvelope(f) == InitEnvelope(g) && Msg1Envelope(f) == Msg1Envelope(g);
    RunsThrough(f, ops, st, peer);
  }

  /** The same deal over a network that returns no reply. */
  function Unanswered(g: Deal): Deal {
    g.(job := g.job.(network := n => Returned(None)))
  }

  /** Such a run leaves its session behind, whatever cores are ready. */
  lemma SilenceLeavesSession(g: Deal, ops: Table, peer: Peer)
    requires Ready(g) && g.A.compatible(peer) && g.Sid() !in ops
    ensures var out := RunIntent(g.A, ops, Some(peer), Unanswered(g).job);
            g.Sid() in out.ops && out.end == Failed(NoReply) && out.sent == [InitEnvelope(g)]
  {
    Begins(Unanswered(g), ops, peer);
  }
}
