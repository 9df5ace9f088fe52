/**
 * A whole PSI run between two cores: `run_intent` on one side, an honest receiver on the other, and
 * a network that carries envelopes unchanged.
 */
module EndToEnd {
  import opened Wrappers
  import opened Bytes
  import opened Json
  import opened Canonical
  import opened CanonicalText
  import opened Crypto
  import opened Directives
  import opened Operations
  import opened Receiver
  import opened Initiator
  import opened Keys
  import opened PsiOperation
  import opened HonestCore
  import H = HonestPsi

  /** The receiver's side: the peer it resolves and the inputs of its three segments. */
  datatype Side = Side(peer: Peer, first: Input, second: Input, third: Input)

  /** A run to be: initiator `A` with its job, receiver `B`, who is asked about and in which list. */
  datatype Deal = Deal(C: Primitives, A: Setup, B: Setup, job: Job, b: Side, customer: string, list: seq<string>) {
    function Sid(): string {
      job.newId
    }

    /** What both sides draw. */
    function Dice(): H.Dice {
      H.Dice(job.startDraws, b.second.draws, job.draws(0), b.third.draws)
    }

    predicate Verdict() {
      H.Verdict(C, Dice(), customer, list)
    }
  }

  /** Ids as `uuid4` makes them: without bars, and different each time. */
  predicate FreshIds(job: Job) {
    && job.newId != "" && BarFree(job.newId)
    && BarFree(job.drafts(0).id) && BarFree(job.drafts(0).nonce)
    && BarFree(job.drafts(1).id) && BarFree(job.drafts(1).nonce)
    && job.drafts(0).id != job.drafts(1).id
  }

  /** Two cores that run PSI with each other, on a list and draws that nothing degenerates on. */
  ghost predicate Ready(g: Deal) {
    && Partners(g.A, g.B, g.job, g.b.peer) && g.A.behaviour == Psi(g.C) && g.B.behaviour == Psi(g.C)
    && FreshIds(g.job) && H.Names(g.job.inputs, g.customer) && Alone(g.job.crowd)
    && g.b.second.config == Some(Config(g.list)) && H.Regular(g.C, g.Dice(), g.customer, g.list)
    && InTime(g.job, 0, g.b.second.clock.valid) && InTime(g.job, 1, g.b.third.clock.valid)
  }

  // --- the four messages ---------------------------------------------------------------------

  function Init(g: Deal): Outgoing {
    Outgoing(Some("init"), None, B64e(g.C, H.CommitOf(g.C, g.Dice())))
  }

  function Msg1(g: Deal): Outgoing {
    Outgoing(Some("msg1"), None, B64e(g.C, H.Msg1Data(g.C, g.Dice(), g.customer)))
  }

  function InitEnvelope(g: Deal): Envelope {
    BuildEnvelope(g.A, g.Sid(), g.job, Init(g), 0)
  }

  function Msg1Envelope(g: Deal): Envelope {
    BuildEnvelope(g.A, g.Sid(), g.job, Msg1(g), 1)
  }

  /** The receiver's answers. */
  function ReplyIn(g: Deal, phase: string, message: Value): Envelope {
    Envelope(WIRE_VERSION, PSI_ID, phase, g.Sid(), message, None, NoIntent)
  }

  function Msg0Reply(g: Deal): Envelope {
    ReplyIn(g, "msg0", B64e(g.C, g.b.second.draws.token0))
  }

  function Msg2Reply(g: Deal): Envelope {
    ReplyIn(g, "msg2", B64e(g.C, H.Msg2Data(g.C, g.Dice(), g.customer, g.list)))
  }

  // --- the receiver's half --------------------------------------------------------------------

  /** What the receiver does with the first envelope, and then with the second. */
  function ServeInit(g: Deal, st: State): (State, Outcome) {
    Serve(g.B, st, InitEnvelope(g), g.b.peer, g.b.first, g.b.second)
  }

  function ServeMsg1(g: Deal, st: State): StepOut {
    Deliver(g.B, st, Msg1Envelope(g), g.b.third)
  }

  /** The receiver's sessions while the run is under way. */
  ghost predicate HalfWay(g: Deal, st: State, before: State) {
    Between(st, before, g.Sid(), RxSession(g.Sid(), g.b.peer.publicKey, g.A.selfUrl, "init"),
            H.AtInit(g.C, g.Dice(), g.list))
  }

  lemma InitServed(g: Deal, st: State)
    requires Ready(g) && NewTo(st, g.Sid())
    ensures var (st1, outcome) := ServeInit(g, st);
            && outcome == Answered(Some(Msg0Reply(g)))
            && Deliver(g.B, st, InitEnvelope(g), g.b.first).outcome.Awaiting?
            && HalfWay(g, st1, st) && Adds(g.B, st, st1, g.b.peer.publicKey, InitEnvelope(g))
  {
    var crypto, d, sid := g.C, g.Dice(), g.Sid();
    H.Init(crypto, d, g.list, st.ops, sid, g.b.second.newId);
    OpeningServed(g.A, g.B, st, sid, g.job, Init(g), 0, g.b.peer, g.b.first, g.b.second, H.AtInit(crypto, d, g.list),
                  Reply(sid, false, Send("msg0", B64e(crypto, d.open.token0)), None));
  }

  /** The keys of the second envelope are new, for all that the first one left in the caches. */
  lemma Msg1IsNew(g: Deal, st: State, st1: State)
    requires FreshIds(g.job) && NewTo(st, g.Sid()) && BarFree(g.A.behaviour.id)
    requires Adds(g.B, st, st1, g.b.peer.publicKey, InitEnvelope(g))
    ensures Unseen(g.B, st1, g.b.peer.publicKey, Msg1Envelope(g))
  {
    IntentsDiffer(g, g.b.peer.publicKey);
    StillUnseen(g.B, st, st1, g.b.peer.publicKey, InitEnvelope(g), Msg1Envelope(g));
  }

  /** What one envelope leaves in the caches does not hide a later phase with another intent. */
  lemma StillUnseen(B: Setup, st: State, st1: State, key: bytes, e0: Envelope, e1: Envelope)
    requires e0.intent.Parsed? && e1.intent.Parsed? && Adds(B, st, st1, key, e0) && NewTo(st, e1.session)
    requires BarFree(e0.operation) && BarFree(e0.session) && BarFree(e0.phase) && e1.phase != e0.phase
    requires BarFree(e1.operation) && BarFree(e1.session)
    requires IntentKey(key, e0, e0.intent.intent) != IntentKey(key, e1, e1.intent.intent)
    ensures Unseen(B, st1, key, e1)
  {
    RoundKeyNamesSession(B, e1);
    IntentKeyNamesSession(e1, e1.intent.intent, key);
    if RoundKey(B, e0) == RoundKey(B, e1) {
      RoundKeyInjective(B, e0, e1);
    }
  }

  lemma IntentsDiffer(g: Deal, key: bytes)
    requires FreshIds(g.job)
    ensures var e0, e1 := InitEnvelope(g), Msg1Envelope(g);
            IntentKey(key, e0, e0.intent.intent) != IntentKey(key, e1, e1.intent.intent)
  {
    var e0, e1 := InitEnvelope(g), Msg1Envelope(g);
    var i0, i1 := e0.intent.intent, e1.intent.intent;
    HashBarFree(g.A, e0.payload);
    if IntentKey(key, e0, i0) == IntentKey(key, e1, i1) {
      ReplayKeyInjective(key, g.Sid(), i0.id, i0.nonce, i0.payloadHash, key, g.Sid(), i1.id, i1.nonce, i1.payloadHash);
    }
  }

  lemma Msg1Served(g: Deal, st: State, before: State)
    requires Ready(g) && NewTo(before, g.Sid()) && HalfWay(g, st, before)
    requires Unseen(g.B, st, g.b.peer.publicKey, Msg1Envelope(g))
    ensures var out := ServeMsg1(g, st);
            out.outcome == Answered(Some(Msg2Reply(g))) && out.state.rx == before.rx && out.state.ops == before.ops
  {
    var crypto, d, sid := g.C, g.Dice(), g.Sid();
    H.Msg1(crypto, d, g.customer, g.list, st.ops, sid);
    LastRoundServed(g.A, g.B, st, before, sid, g.job, Msg1(g), 1, g.b.peer, g.b.third,
                    RxSession(sid, g.b.peer.publicKey, g.A.selfUrl, "init"), H.AtInit(crypto, d, g.list),
                    Reply(sid, true, Send("msg2", B64e(crypto, H.Msg2Data(crypto, d, g.customer, g.list))), None));
  }

  // --- the initiator's half -----------------------------------------------------------------------

  /** The operation's table while the initiator waits for `msg0`, and for `msg2`. */
  function AwaitingMsg0(g: Deal, ops: Table): Table {
    ops[g.Sid() := H.AtStart(g.C, g.Dice(), g.customer)]
  }

  function AwaitingMsg2(g: Deal, ops: Table): Table {
    ops[g.Sid() := H.AtMsg0(g.C, g.Dice(), g.customer)]
  }

  /** The run from its first round on, and from its second. */
  function FromFirst(g: Deal, ops: Table): RunOut {
    Rounds(g.A, AwaitingMsg0(g, ops), g.job, g.Sid(), Init(g), 0)
  }

  function FromSecond(g: Deal, ops: Table): RunOut {
    Rounds(g.A, AwaitingMsg2(g, ops), g.job, g.Sid(), Msg1(g), 1)
  }

  lemma Begins(g: Deal, ops: Table, peer: Peer)
    requires Ready(g) && g.A.compatible(peer)
    ensures RunIntent(g.A, ops, Some(peer), g.job) == FromFirst(g, ops)
    ensures var sent := FromFirst(g, ops).sent; |sent| > 0 && sent[0] == InitEnvelope(g)
  {
    H.Start(g.C, g.Dice(), g.customer, g.job.inputs, ops, g.Sid());
  }

  lemma ProcessesMsg0(g: Deal, ops: Table)
    requires H.Regular(g.C, g.Dice(), g.customer, g.list) && g.A.behaviour == Psi(g.C)
    ensures Process(g.A.behaviour, AwaitingMsg0(g, ops), g.Sid(), ToMessage(Msg0Reply(g)), g.job.draws(0))
            == (Ok(Reply(g.Sid(), false, Some(Msg1(g)), None)), AwaitingMsg2(g, ops))
  {
    H.Msg0(g.C, g.Dice(), g.customer, g.list, AwaitingMsg0(g, ops), g.Sid());
    Overwritten(ops, g.Sid(), H.AtStart(g.C, g.Dice(), g.customer), H.AtMsg0(g.C, g.Dice(), g.customer));
  }

  lemma Overwritten(ops: Table, sid: string, first: Session, second: Session)
    ensures ops[sid := first][sid := second] == ops[sid := second]
  {
  }

  lemma TakesMsg0(g: Deal, ops: Table)
    requires Ready(g) && g.job.network(0) == Returned(Some(Msg0Reply(g)))
    ensures FromFirst(g, ops) == After([InitEnvelope(g)], FromSecond(g, ops))
  {
    ProcessesMsg0(g, ops);
    RoundGoesOn(g.A, AwaitingMsg0(g, ops), g.job, g.Sid(), Init(g), 0, Msg0Reply(g), Msg1(g), AwaitingMsg2(g, ops));
  }

  lemma SendsMsg1(g: Deal, ops: Table)
    requires Ready(g)
    ensures |FromSecond(g, ops).sent| > 0 && FromSecond(g, ops).sent[0] == Msg1Envelope(g)
  {
  }

  lemma ProcessesMsg2(g: Deal, ops: Table)
    requires H.Regular(g.C, g.Dice(), g.customer, g.list) && g.A.behaviour == Psi(g.C) && g.Sid() !in ops
    ensures Process(g.A.behaviour, AwaitingMsg2(g, ops), g.Sid(), ToMessage(Msg2Reply(g)), g.job.draws(1))
            == (Ok(Reply(g.Sid(), true, None, Some(IsMatch(g.Verdict())))), ops)
  {
    H.Msg2(g.C, g.Dice(), g.customer, g.list, AwaitingMsg2(g, ops), g.Sid(), g.job.draws(1));
    assert Without(AwaitingMsg2(g, ops), g.Sid()) == ops;
  }

  lemma TakesMsg2(g: Deal, ops: Table)
    requires Ready(g) && g.Sid() !in ops && g.job.network(1) == Returned(Some(Msg2Reply(g)))
    ensures FromSecond(g, ops) == RunOut(Finished(g.Sid(), IsMatch(g.Verdict())), ops, [Msg1Envelope(g)])
  {
    ProcessesMsg2(g, ops);
    RoundFinishes(g.A, AwaitingMsg2(g, ops), g.job, g.Sid(), Msg1(g), 1, Msg2Reply(g), IsMatch(g.Verdict()), ops);
  }

  // --- both halves ------------------------------------------------------------------------------------

  function Carried(o: Outcome): Delivery {
    if o.Answered? then Returned(o.reply) else Lost
  }

  /** The network answers the two envelopes as the receiver does. */
  ghost predicate Answering(g: Deal, st: State) {
    && g.job.network(0) == Carried(ServeInit(g, st).1)
    && g.job.network(1) == Carried(ServeMsg1(g, ServeInit(g, st).0).outcome)
  }

  lemma ServedThrough(g: Deal, st: State)
    requires Ready(g) && NewTo(st, g.Sid()) && Answering(g, st)
    ensures g.job.network(0) == Returned(Some(Msg0Reply(g))) && g.job.network(1) == Returned(Some(Msg2Reply(g)))
    ensures var out := ServeMsg1(g, ServeInit(g, st).0); out.state.rx == st.rx && out.state.ops == st.ops
  {
    var st1 := ServeInit(g, st).0;
    InitServed(g, st);
    Msg1IsNew(g, st, st1);
    Msg1Served(g, st1, st);
  }

  lemma AsksThrough(g: Deal, ops: Table, peer: Peer)
    requires Ready(g) && g.A.compatible(peer) && g.Sid() !in ops
    requires g.job.network(0) == Returned(Some(Msg0Reply(g))) && g.job.network(1) == Returned(Some(Msg2Reply(g)))
    ensures RunIntent(g.A, ops, Some(peer), g.job) ==
            RunOut(Finished(g.Sid(), IsMatch(g.Verdict())), ops, [InitEnvelope(g), Msg1Envelope(g)])
  {
    Begins(g, ops, peer);
    TakesMsg0(g, ops);
    TakesMsg2(g, ops);
  }

  /** The run, when it does. */
  lemma RunsThrough(g: Deal, ops: Table, st: State, peer: Peer)
    requires Ready(g) && g.A.compatible(peer) && g.Sid() !in ops && NewTo(st, g.Sid()) && Answering(g, st)
    ensures RunIntent(g.A, ops, Some(peer), g.job) ==
            RunOut(Finished(g.Sid(), IsMatch(g.Verdict())), ops, [InitEnvelope(g), Msg1Envelope(g)])
    ensures var out := ServeMsg1(g, ServeInit(g, st).0); out.state.rx == st.rx && out.state.ops == st.ops
  {
    ServedThrough(g, st);
    AsksThrough(g, ops, peer);
  }

  /** The network carries what is sent to the receiver, and its answers back. */
  ghost predicate Connected(g: Deal, st: State, sent: seq<Envelope>) {
    && (|sent| > 0 ==> g.job.network(0) == Carried(Serve(g.B, st, sent[0], g.b.peer, g.b.first, g.b.second).1))
    && (|sent| > 1 ==> g.job.network(1) == Carried(Last(g, st, sent).outcome))
  }

  /** What the receiver does in the end. */
  function Last(g: Deal, st: State, sent: seq<Envelope>): StepOut
    requires |sent| > 1
  {
    Deliver(g.B, Serve(g.B, st, sent[0], g.b.peer, g.b.first, g.b.second).0, sent[1], g.b.third)
  }

  /**
   * End to end: `run_intent` against an honest receiver sends exactly two envelopes and ends with a
   * result that says whether the hashes fail to tell the customer apart from some list item;
   * afterwards both operations' tables and the receiver's session table are as they were.
   */
  lemma RunsToTheEnd(g: Deal, ops: Table, st: State, peer: Peer)
    requires Ready(g) && g.A.compatible(peer) && g.Sid() !in ops && NewTo(st, g.Sid())
    requires Connected(g, st, RunIntent(g.A, ops, Some(peer), g.job).sent)
    ensures var out := RunIntent(g.A, ops, Some(peer), g.job);
            && |out.sent| == 2 && out.ops == ops
            && out.end == Finished(g.Sid(), Obj([Field("is_match", Bool(g.Verdict()))]))
            && Last(g, st, out.sent).state.rx == st.rx && Last(g, st, out.sent).state.ops == st.ops
  {
    ConnectedAnswers(g, ops, st, peer);
    RunsThrough(g, ops, st, peer);
  }

  /** What is sent is sent before the answers are known, so the network answers as the receiver does. */
  lemma ConnectedAnswers(g: Deal, ops: Table, st: State, peer: Peer)
    requires Ready(g) && g.A.compatible(peer) && NewTo(st, g.Sid())
    requires Connected(g, st, RunIntent(g.A, ops, Some(peer), g.job).sent)
    ensures Answering(g, st)
  {
    Begins(g, ops, peer);
    InitServed(g, st);
    TakesMsg0(g, ops);
    SendsMsg1(g, ops);
  }

  /** The signed result. */
  function ResultOf(g: Deal, b: bool): ResultDirective {
    BuildResult(g.A, g.Sid(), IsMatch(b), g.job.stamp)
  }

  /** A result that says, in so many words, whether there is a match. */
  predicate Answers(S: Setup, job: Job, r: ResultDirective, found: bool) {
    var text := if found then "{\"is_match\":true}" else "{\"is_match\":false}";
    && r.encoded == S.b64e(Utf8(text)) && r.hash == Hex(S.sha256(Utf8(text)))
    && r.session == job.newId && r.id == job.stamp.resultId && SignedResult(S, r)
    && ("operation", "protocol.psi.sanction.v1") in r.metadata
  }

  predicate SignedResult(S: Setup, r: ResultDirective) {
    && r.signature.Some?
    && S.services.verify(S.services.publicKey(S.privateKey), ResultBytes(r), r.signature.value)
  }

  /** The two results answer the two ways. */
  lemma ResultAnswers(g: Deal, b: bool)
    requires g.A.services.Ideal() && g.A.behaviour == Psi(g.C)
    ensures Answers(g.A, g.job, ResultOf(g, b), b)
  {
    ResultHolds(g.A, g.Sid(), IsMatch(b), g.job.stamp);
    AnswerText(b);
  }

  /** The customer is listed, or a hash maps what is hashed of it and of a list item to one value. */
  ghost predicate Found(g: Deal) {
    g.customer in g.list || exists row :: row in g.list && H.Collides(g.C, g.Dice(), g.customer, row)
  }

  /**
   * So a listed customer is always reported as a match, and another one is reported as one exactly
   * when a hash collides.
   */
  lemma DecidesMembership(g: Deal, ops: Table, st: State, peer: Peer)
    requires Ready(g) && g.A.compatible(peer) && g.Sid() !in ops && NewTo(st, g.Sid())
    requires Connected(g, st, RunIntent(g.A, ops, Some(peer), g.job).sent)
    ensures var published := Publish(g.A, g.job.stamp, RunIntent(g.A, ops, Some(peer), g.job).end);
            published == Ok(ResultOf(g, Found(g))) && Answers(g.A, g.job, published.value, Found(g))
  {
    RunsToTheEnd(g, ops, st, peer);
    VerdictIsFound(g);
    ResultAnswers(g, g.Verdict());
  }

  lemma VerdictIsFound(g: Deal)
    requires H.Regular(g.C, g.Dice(), g.customer, g.list)
    ensures g.Verdict() <==> Found(g)
  {
    H.VerdictIsMembership(g.C, g.Dice(), g.customer, g.list);
  }

  /** The two possible results are signed by the initiator and can be told apart. */
  lemma ResultTells(g: Deal, b: bool)
    requires g.C.Ideal() && g.A.b64e == g.C.b64e && g.A.services.Ideal()
    ensures var r, services := ResultOf(g, b), g.A.services;
            && r.signature.Some?
            && services.verify(services.publicKey(g.A.privateKey), ResultBytes(r), r.signature.value)
            && r.encoded != ResultOf(g, !b).encoded
  {
    var crypto, yes, no := g.C, CanonicalBytes(IsMatch(b)), CanonicalBytes(IsMatch(!b));
    ResultHolds(g.A, g.Sid(), IsMatch(b), g.job.stamp);
    ResultHolds(g.A, g.Sid(), IsMatch(!b), g.job.stamp);
    AnswersDiffer(b);
    assert crypto.b64d(crypto.b64e(yes)) == Some(yes) && crypto.b64d(crypto.b64e(no)) == Some(no);
  }

  lemma AnswersDiffer(b: bool)
    ensures CanonicalBytes(IsMatch(b)) != CanonicalBytes(IsMatch(!b))
  {
    assert IsDict(Bool(b)) && IsDict(Bool(!b));
    assert IsDict(IsMatch(b)) && IsDict(IsMatch(!b));
    CanonicalExact(IsMatch(b), IsMatch(!b));
    if SameValue(IsMatch(b), IsMatch(!b)) {
      SameAnswer(b, !b);
    }
  }

  lemma SameAnswer(a: bool, b: bool)
    requires SameValue(IsMatch(a), IsMatch(b))
    ensures a == b
  {
    var fs, gs := IsMatch(a).fields, IsMatch(b).fields;
    assert InFields(fs[0], gs);
    var j :| 0 <= j < |gs| && SameField(fs[0], gs[j]);
    assert SameValue(Bool(a), Bool(b));
  }
}
