/** The four-envelope PSI operation of operations.py. */
module PsiOperation {
  import opened Wrappers
  import opened Bytes
  import opened Json
  import opened Crypto
  import opened Operations
  import F = PsiFfi

  const PSI_ID := "protocol.psi.sanction.v1"

  function Lookup(fs: seq<Field>, k: string): Value {
    if fs == [] then Null else if fs[0].key == k then fs[0].value else Lookup(fs[1..], k)
  }

  /** `state.get(key)`. */
  function Get(d: Dict, key: string): Value {
    if key in d then d[key] else Null
  }

  function B64e(C: Primitives, b: bytes): Value {
    Str(C.b64e(b))
  }

  /** `_b64d`, which raises on anything that is not a decodable string. */
  function B64d(C: Primitives, v: Value): Result<bytes, Failure> {
    if v.Str? then OrElse(C.b64d(v.s), OtherError) else Err(OtherError)
  }

  function B64All(C: Primitives, vs: seq<Value>): Result<seq<bytes>, Failure> {
    if vs == [] then Ok([])
    else
      var head :- B64d(C, vs[0]);
      var rest :- B64All(C, vs[1..]);
      Ok([head] + rest)
  }

  /** A lower-level exception, as the operation's callers see it. */
  function Raise<T>(r: Result<T, F.Failure>): Result<T, Failure> {
    match r
    case Ok(v) => Ok(v)
    case Err(_) => Err(OtherError)
  }

  function Send(phase: string, message: Value): Option<Outgoing> {
    Some(Outgoing(Some(phase), None, message))
  }

  function RowHashes(C: Primitives, list: seq<string>): (hs: seq<bytes>)
    ensures |hs| == |list| && forall i :: 0 <= i < |list| ==> hs[i] == F.GenerateHash(C, list[i])
  {
    seq(|list|, i requires 0 <= i < |list| => F.GenerateHash(C, list[i]))
  }

  function Encoded(C: Primitives, bs: seq<bytes>): (vs: seq<Value>)
    ensures |vs| == |bs| && forall i :: 0 <= i < |bs| ==> vs[i] == B64e(C, bs[i])
  {
    seq(|bs|, i requires 0 <= i < |bs| => B64e(C, bs[i]))
  }

  function InitiatorState(C: Primitives, customer: string, sid0: bytes, blind: bytes): Dict {
    map["customer_data" := Str(customer), "sid_0" := B64e(C, sid0), "blind_value" := B64e(C, blind)]
  }

  function ReceiverState(C: Primitives, commit: bytes, sid1: bytes, hashes: seq<bytes>): Dict {
    map["commit" := B64e(C, commit), "sid_1" := B64e(C, sid1), "sanction_hashes" := Arr(Encoded(C, hashes))]
  }

  /** Who `start` is asked about, if anyone. */
  function CustomerOf(C: Primitives, inputs: Value): Option<string> {
    var data := if inputs.Obj? then Lookup(inputs.fields, "customer_data") else inputs;
    if !Truthy(data) then None else Some(if data.Str? then data.s else C.str(data))
  }

  /** `on_start`. */
  function OnStart(C: Primitives, role: string, inputs: Value, draws: Draws): Result<StepResult, Failure> {
    if role != "initiator" then Err(OtherError)
    else
      var customer :- OrElse(CustomerOf(C, inputs), OtherError);
      var commit :- Raise(F.CreateCommitment(C, draws.token0, draws.token1));
      Ok(StepResult(InitiatorState(C, customer, draws.token0, draws.token1), false,
                    Send("init", B64e(C, commit)), None))
  }

  /** `_receiver_step`. */
  function ReceiverStep(C: Primitives, state: Dict, m: Message, config: Config,
        draws: Draws): Result<StepResult, Failure> {
    if m.phase == "init" then ReceiverInit(C, state, m.payload, config, draws)
    else if m.phase == "msg1" then ReceiverMsg1(C, state, m.payload, draws)
    else Err(OtherError)
  }

  function ReceiverInit(C: Primitives, state: Dict, payload: Value, config: Config,
        draws: Draws): Result<StepResult, Failure> {
    var _ :- Check(state == map[], OtherError);
    var commit :- B64d(C, payload);
    var _ :- Check(|commit| == 32, OtherError);
    var _ :- Check(config.sanctionList != [], OtherError);
    Ok(StepResult(ReceiverState(C, commit, draws.token0, RowHashes(C, config.sanctionList)), false,
                  Send("msg0", B64e(C, draws.token0)), None))
  }

  function ReceiverMsg1(C: Primitives, state: Dict, payload: Value, draws: Draws): Result<StepResult, Failure> {
    var commit64, sid164, hashes64 := Get(state, "commit"), Get(state, "sid_1"), Get(state, "sanction_hashes");
    var _ :- Check(Truthy(commit64) && Truthy(sid164) && hashes64.Arr?, OtherError);
    var data :- B64d(C, payload);
    var _ :- Check(|data| >= 64, OtherError);
    var commit :- B64d(C, commit64);
    var matching :- Raise(F.VerifyCommitment(C, commit, data[..32], data[32..64]));
    var _ :- Check(matching, OtherError);
    var sid1 :- B64d(C, sid164);
    var sid :- Raise(F.ComputeSessionId(C, data[..32], sid1));
    var hashes :- B64All(C, hashes64.items);
    var msg2 :- Raise(F.ProcessPscMsg1(C, sid, data[64..], hashes, draws.scalar0, draws.scalar1, draws.picks));
    Ok(StepResult(map[], true, Send("msg2", B64e(C, msg2)), None))
  }

  /** `_initiator_step`. */
  function InitiatorStep(C: Primitives, state: Dict, m: Message, draws: Draws): Result<StepResult, Failure> {
    if m.phase == "msg0" then InitiatorMsg0(C, state, m.payload, draws)
    else if m.phase == "msg2" then InitiatorMsg2(C, state, m.payload)
    else Err(OtherError)
  }

  function InitiatorMsg0(C: Primitives, state: Dict, payload: Value, draws: Draws): Result<StepResult, Failure> {
    var customer := Get(state, "customer_data");
    var _ :- Check(Truthy(customer) && customer.Str?, OtherError);
    var sid1 :- B64d(C, payload);
    var _ :- Check(|sid1| == 32, OtherError);
    var sid064, blind64 := Get(state, "sid_0"), Get(state, "blind_value");
    var _ :- Check(Truthy(sid064) && blind64 != Null, OtherError);
    var sid0 :- B64d(C, sid064);
    var blind :- B64d(C, blind64);
    var sid :- Raise(F.ComputeSessionId(C, sid0, sid1));
    var (st, msg1) :- Raise(F.CreatePscMsg1(C, sid, F.GenerateHash(C, customer.s), draws.scalar0));
    Ok(StepResult(map["initiator_state" := B64e(C, st)], false, Send("msg1", B64e(C, sid0 + blind + msg1)), None))
  }

  function IsMatch(b: bool): Value {
    Obj([Field("is_match", Bool(b))])
  }

  function InitiatorMsg2(C: Primitives, state: Dict, payload: Value): Result<StepResult, Failure> {
    var st64 := Get(state, "initiator_state");
    var _ :- Check(Truthy(st64), OtherError);
    var st :- B64d(C, st64);
    var msg2 :- B64d(C, payload);
    var isMatch :- Raise(F.ProcessPscMsg2(C, st, msg2));
    Ok(StepResult(map[], true, None, Some(IsMatch(isMatch))))
  }

  /** `on_process`. */
  function OnProcess(C: Primitives, role: string, state: Dict, m: Message, config: Config, draws: Draws)
    : Result<StepResult, Failure>
  {
    if role == "receiver" then ReceiverStep(C, state, m, config, draws)
    else if role == "initiator" then InitiatorStep(C, state, m, draws)
    else Err(OtherError)
  }

  function Psi(C: Primitives): Behaviour {
    Behaviour(PSI_ID,
              (role, inputs, config, draws) => OnStart(C, role, inputs, draws),
              (role, state, m, config, first, draws) => OnProcess(C, role, state, m, config, draws))
  }

  // --- who is asked about ---------------------------------------------------------------

  /** Looking up a key finds its field, or nothing when there is none. */
  lemma {:induction false} LookupFinds(fs: seq<Field>, k: string)
    ensures (forall i :: 0 <= i < |fs| ==> fs[i].key != k) ==> Lookup(fs, k) == Null
    ensures forall i :: 0 <= i < |fs| && fs[i].key == k && (forall j :: 0 <= j < i ==> fs[j].key != k) ==>
              Lookup(fs, k) == fs[i].value
    decreases |fs|
  {
    if fs != [] {
      LookupFinds(fs[1..], k);
      forall i | 0 <= i < |fs| && fs[i].key == k && (forall j :: 0 <= j < i ==> fs[j].key != k)
        ensures Lookup(fs, k) == fs[i].value
      {
        if i > 0 {
          assert fs[1..][i - 1] == fs[i] && forall j :: 0 <= j < i - 1 ==> fs[1..][j] == fs[j + 1];
        }
      }
      if forall i :: 0 <= i < |fs| ==> fs[i].key != k {
        assert fs[0].key != k && forall i :: 0 <= i < |fs| - 1 ==> fs[1..][i] == fs[i + 1];
      }
    }
  }

  /**
   * A customer is given as a string that is not empty, alone or as the field of a dictionary; a dictionary
   * without that field names none.
   */
  lemma CustomerIs(C: Primitives, inputs: Value)
    ensures inputs.Str? ==> CustomerOf(C, inputs) == if inputs.s != "" then Some(inputs.s) else None
    ensures inputs.Obj? && (forall i :: 0 <= i < |inputs.fields| ==> inputs.fields[i].key != "customer_data") ==>
              CustomerOf(C, inputs) == None
    ensures inputs.Obj? ==> forall i :: 0 <= i < |inputs.fields| && inputs.fields[i].key == "customer_data"
                                        && (forall j :: 0 <= j < i ==> inputs.fields[j].key != "customer_data") ==>
              CustomerOf(C, inputs) == match inputs.fields[i].value
                                       case Str(s) => if s != "" then Some(s) else None
                                       case v => if Truthy(v) then Some(C.str(v)) else None
  {
    if inputs.Obj? {
      LookupFinds(inputs.fields, "customer_data");
    }
  }

  // --- transcripts ----------------------------------------------------------------------

  lemma {:induction false} B64AllEncoded(C: Primitives, bs: seq<bytes>)
    requires C.Ideal()
    ensures B64All(C, Encoded(C, bs)) == Ok(bs)
  {
    if bs != [] {
      B64AllEncoded(C, bs[1..]);
      assert Encoded(C, bs)[1..] == Encoded(C, bs[1..]);
      assert bs == [bs[0]] + bs[1..];
    }
  }

  /**
   * What a second message answers: `data` opens the stored commitment, and the message is computed
   * in the session both contributions name, over the stored list.
   */
  ghost predicate Answers(C: Primitives, commit: bytes, sid1: bytes, hashes: seq<bytes>, data: bytes, draws: Draws,
        msg2: bytes) {
    && |data| >= 64
    && F.CreateCommitment(C, data[..32], data[32..64]) == Ok(commit)
    && var sid := F.ComputeSessionId(C, data[..32], sid1);
       sid.Ok? && F.ProcessPscMsg1(C, sid.value, data[64..], hashes, draws.scalar0, draws.scalar1,
                                   draws.picks) == Ok(msg2)
  }

  /** A receiver session as `init` leaves it, with the list as it was then. */
  ghost predicate Opened(C: Primitives, t: Table, sid: string, commit: bytes, sid1: bytes, list: seq<string>) {
    && sid in t && t[sid].role == "receiver" && |commit| == 32 && |sid1| == 32
    && t[sid].state == ReceiverState(C, commit, sid1, RowHashes(C, list))
  }

  predicate Is32(r: Result<bytes, Failure>) {
    r.Ok? && |r.value| == 32
  }

  /** Opening a session stores the commitment received, the contribution sent and the list given. */
  lemma ReceiveOpens(C: Primitives, t: Table, m: Message, config: Config, sid: string, draws: Draws)
    requires C.Ideal() && sid != ""
    ensures var (r, t') := Receive(Psi(C), t, "receiver", m, config, sid, "", draws);
            && (r.Ok? <==> m.phase == "init" && config.sanctionList != [] && Is32(B64d(C, m.payload)))
            && (r.Ok? ==> !r.value.done && r.value.outgoing == Send("msg0", B64e(C, draws.token0)) &&
                          Opened(C, t', sid, B64d(C, m.payload).value, draws.token0, config.sanctionList))
            && (r.Err? ==> t' == t)
  {
    if m.phase == "msg1" {
      assert Get(map[], "commit") == Null;
    }
  }

  /** A `msg1` is answered exactly when there is something that answers it, and with that. */
  lemma AnswerStep(C: Primitives, commit: bytes, sid1: bytes, hashes: seq<bytes>, payload: Value, draws: Draws)
    requires C.Ideal() && |commit| == 32 && |sid1| == 32
    ensures var r, d := ReceiverMsg1(C, ReceiverState(C, commit, sid1, hashes), payload, draws), B64d(C, payload);
            && (r.Ok? <==> d.Ok? && exists msg2 :: Answers(C, commit, sid1, hashes, d.value, draws, msg2))
            && (d.Ok? ==> forall msg2 :: Answers(C, commit, sid1, hashes, d.value, draws, msg2) ==>
                                           r == Ok(StepResult(map[], true, Send("msg2", B64e(C, msg2)), None)))
  {
    B64AllEncoded(C, hashes);
    var state := ReceiverState(C, commit, sid1, hashes);
    assert Truthy(Get(state, "commit")) && Truthy(Get(state, "sid_1"));
    var d := B64d(C, payload);
    if d.Ok? && |d.value| >= 64 {
      var s := F.ComputeSessionId(C, d.value[..32], sid1);
      assert s.Ok?;
      var a := F.ProcessPscMsg1(C, s.value, d.value[64..], hashes, draws.scalar0, draws.scalar1, draws.picks);
      if a.Ok? && F.CreateCommitment(C, d.value[..32], d.value[32..64]) == Ok(commit) {
        assert Answers(C, commit, sid1, hashes, d.value, draws, a.value);
      }
    }
  }

  /** One round on an opened receiver session: it ends the session, and can only answer an opening. */
  lemma ReceiverRound(C: Primitives, t: Table, sid: string, commit: bytes, sid1: bytes, list: seq<string>, m: Message,
        draws: Draws)
    requires C.Ideal() && Opened(C, t, sid, commit, sid1, list)
    ensures var (r, t') := Process(Psi(C), t, sid, m, draws);
            && sid !in t'
            && (r.Ok? <==> m.phase == "msg1" && B64d(C, m.payload).Ok? &&
                           exists msg2 :: Answers(C, commit, sid1, RowHashes(C, list), B64d(C, m.payload).value, draws,
                                                  msg2))
            && (m.phase == "msg1" && B64d(C, m.payload).Ok? ==>
                  forall msg2 :: Answers(C, commit, sid1, RowHashes(C, list), B64d(C, m.payload).value, draws, msg2) ==>
                                   r == Ok(Reply(sid, true, Send("msg2", B64e(C, msg2)), None)))
  {
    AnswerStep(C, commit, sid1, RowHashes(C, list), m.payload, draws);
  }

  /**
   * Whatever messages follow `init`, the receiver answers at most one of them, the first, and only
   * with the second message that the stored commitment, contribution and list determine.
   */
  ghost predicate ReceiverReplies(C: Primitives, sid: string, commit: bytes, sid1: bytes, list: seq<string>,
        rounds: seq<Round>, rs: seq<Result<Reply, Failure>>) {
    && |rs| == |rounds| && (forall i :: 0 < i < |rs| ==> rs[i] == Err(KeyError))
    && (|rs| > 0 && rs[0].Ok? ==>
          && B64d(C, rounds[0].message.payload).Ok?
          && exists msg2 :: && Answers(C, commit, sid1, RowHashes(C, list), B64d(C, rounds[0].message.payload).value,
                                       rounds[0].draws, msg2)
                            && rs[0] == Ok(Reply(sid, true, Send("msg2", B64e(C, msg2)), None)))
  }

  lemma ReceiverRounds(C: Primitives, t: Table, sid: string, commit: bytes, sid1: bytes, list: seq<string>,
        rounds: seq<Round>)
    requires C.Ideal() && Opened(C, t, sid, commit, sid1, list)
    ensures ReceiverReplies(C, sid, commit, sid1, list, rounds, Replies(Psi(C), t, sid, rounds))
  {
    if rounds != [] {
      var m, draws := rounds[0].message, rounds[0].draws;
      ReceiverRound(C, t, sid, commit, sid1, list, m, draws);
      GoneStaysGone(Psi(C), Process(Psi(C), t, sid, m, draws).1, sid, rounds[1..]);
    }
  }

  /** The same whatever calls for other sessions come in between, until the session is opened anew or aborted. */
  lemma ReceiverTranscript(C: Primitives, t: Table, sid: string, commit: bytes, sid1: bytes, list: seq<string>,
        calls: seq<TableCall>)
    requires C.Ideal() && Opened(C, t, sid, commit, sid1, list) && forall c :: c in calls ==> !Resets(c, sid)
    ensures ReceiverReplies(C, sid, commit, sid1, list, RoundsOf(calls, sid), RepliesAmid(Psi(C), t, calls, sid))
  {
    OtherCallsDoNotMatter(Psi(C), t, t, calls, sid);
    ReceiverRounds(C, t, sid, commit, sid1, list, RoundsOf(calls, sid));
  }

  ghost predicate Started(C: Primitives, t: Table, sid: string, customer: string, sid0: bytes, blind: bytes) {
    sid in t && t[sid].role == "initiator" && t[sid].state == InitiatorState(C, customer, sid0, blind)
  }

  ghost predicate Waiting(C: Primitives, t: Table, sid: string, st: bytes) {
    sid in t && t[sid].role == "initiator" && t[sid].state == map["initiator_state" := B64e(C, st)]
  }

  /** What a first message asks: the customer's hash, in the session both contributions name. */
  ghost predicate Asks(C: Primitives, customer: string, sid0: bytes, sid1: Result<bytes, Failure>, draws: Draws,
        st: bytes, msg1: bytes) {
    && sid1.Ok?
    && var s := F.ComputeSessionId(C, sid0, sid1.value);
       s.Ok? && F.CreatePscMsg1(C, s.value, F.GenerateHash(C, customer), draws.scalar0) == Ok((st, msg1))
  }

  /**
   * The first round on a started session: exactly a `msg0` that lets the customer be asked about moves
   * on to waiting, and anything else ends the session.
   */
  lemma FirstInitiatorRound(C: Primitives, t: Table, sid: string, customer: string, sid0: bytes, blind: bytes,
        m: Message, draws: Draws)
    requires C.Ideal() && Started(C, t, sid, customer, sid0, blind)
    ensures var (r, t') := Process(Psi(C), t, sid, m, draws);
            && (r.Err? ==> sid !in t')
            && (r.Ok? <==> && customer != "" && m.phase == "msg0"
                           && exists st: bytes, msg1: bytes ::
                                Asks(C, customer, sid0, B64d(C, m.payload), draws, st, msg1))
            && (r.Ok? ==> exists st: bytes, msg1: bytes ::
                            && Asks(C, customer, sid0, B64d(C, m.payload), draws, st, msg1)
                            && r.value == Reply(sid, false, Send("msg1", B64e(C, sid0 + blind + msg1)), None)
                            && Waiting(C, t', sid, st))
  {
    var (r, t') := Process(Psi(C), t, sid, m, draws);
    assert Get(t[sid].state, "initiator_state") == Null;
    if r.Ok? {
      var sid1 := B64d(C, m.payload).value;
      var s := F.ComputeSessionId(C, sid0, sid1).value;
      var (st, msg1) := F.CreatePscMsg1(C, s, F.GenerateHash(C, customer), draws.scalar0).value;
      assert Asks(C, customer, sid0, B64d(C, m.payload), draws, st, msg1);
      assert Waiting(C, t', sid, st);
    } else if customer != "" && m.phase == "msg0" {
      forall st: bytes, msg1: bytes ensures !Asks(C, customer, sid0, B64d(C, m.payload), draws, st, msg1) {
        if Asks(C, customer, sid0, B64d(C, m.payload), draws, st, msg1) {
          Msg0Accepted(C, t[sid].state, customer, sid0, blind, m.payload, draws, st, msg1);
        }
      }
    }
  }

  lemma Msg0Accepted(C: Primitives, state: Dict, customer: string, sid0: bytes, blind: bytes, payload: Value,
        draws: Draws, st: bytes, msg1: bytes)
    requires C.Ideal() && customer != "" && state == InitiatorState(C, customer, sid0, blind)
    requires Asks(C, customer, sid0, B64d(C, payload), draws, st, msg1)
    ensures InitiatorMsg0(C, state, payload, draws).Ok?
  {
    assert Get(state, "customer_data") == Str(customer) && Get(state, "blind_value") == B64e(C, blind);
    assert Get(state, "sid_0") == B64e(C, sid0) && Truthy(B64e(C, sid0));
  }

  /** The round after `msg1` was sent: exactly a `msg2` that can be processed yields the result; the session ends. */
  lemma SecondInitiatorRound(C: Primitives, t: Table, sid: string, st: bytes, m: Message, draws: Draws)
    requires C.Ideal() && Waiting(C, t, sid, st) && st != []
    ensures var (r, t') := Process(Psi(C), t, sid, m, draws);
            var msg2 := B64d(C, m.payload);
            && sid !in t'
            && (r.Ok? <==> m.phase == "msg2" && msg2.Ok? && F.ProcessPscMsg2(C, st, msg2.value).Ok?)
            && (r.Ok? ==> var found := F.ProcessPscMsg2(C, st, msg2.value).value;
                          r.value == Reply(sid, true, None, Some(Obj([Field("is_match", Bool(found))]))))
  {
    assert Get(t[sid].state, "customer_data") == Null && Get(t[sid].state, "initiator_state") == B64e(C, st);
  }

  /**
   * Whatever messages follow `start`, the initiator sends at most one `msg1`, in answer to the first
   * of them and only if that is `msg0`; a result comes only from the second, and only if it is `msg2`.
   */
  ghost predicate InitiatorReplies(rounds: seq<Round>, rs: seq<Result<Reply, Failure>>) {
    && |rs| == |rounds|
    && (forall i :: 0 <= i < |rs| && rs[i].Ok? && rs[i].value.outgoing.Some? ==>
          i == 0 && rounds[0].message.phase == "msg0")
    && (forall i :: 0 <= i < |rs| && rs[i].Ok? && rs[i].value.result.Some? ==>
          i == 1 && rounds[1].message.phase == "msg2" && rs[0].Ok? && rounds[0].message.phase == "msg0")
    && (forall i :: 2 <= i < |rs| ==> rs[i] == Err(KeyError))
  }

  /** The same whatever calls for other sessions come in between, until the session is opened anew or aborted. */
  lemma InitiatorTranscript(C: Primitives, t: Table, sid: string, customer: string, sid0: bytes, blind: bytes,
        calls: seq<TableCall>)
    requires C.Ideal() && Started(C, t, sid, customer, sid0, blind) && forall c :: c in calls ==> !Resets(c, sid)
    ensures InitiatorReplies(RoundsOf(calls, sid), RepliesAmid(Psi(C), t, calls, sid))
  {
    OtherCallsDoNotMatter(Psi(C), t, t, calls, sid);
    InitiatorRounds(C, t, sid, customer, sid0, blind, RoundsOf(calls, sid));
  }

  lemma InitiatorRounds(C: Primitives, t: Table, sid: string, customer: string, sid0: bytes, blind: bytes,
        rounds: seq<Round>)
    requires C.Ideal() && Started(C, t, sid, customer, sid0, blind)
    ensures InitiatorReplies(rounds, Replies(Psi(C), t, sid, rounds))
  {
    if rounds != [] {
      var b, m0, d0 := Psi(C), rounds[0].message, rounds[0].draws;
      var (r0, t0) := Process(b, t, sid, m0, d0);
      FirstInitiatorRound(C, t, sid, customer, sid0, blind, m0, d0);
      if r0.Err? {
        GoneStaysGone(b, t0, sid, rounds[1..]);
      } else {
        var st: bytes, msg1: bytes :| && Asks(C, customer, sid0, B64d(C, m0.payload), d0, st, msg1)
                                      && Waiting(C, t0, sid, st);
        LastInitiatorRounds(C, t0, sid, st, rounds[1..]);
      }
      RepliesJoin(rounds, r0, Replies(b, t0, sid, rounds[1..]));
    }
  }

  lemma RepliesJoin(rounds: seq<Round>, first: Result<Reply, Failure>, rest: seq<Result<Reply, Failure>>)
    requires |rounds| == 1 + |rest| && forall i :: 0 < i < |rest| ==> rest[i] == Err(KeyError)
    requires first.Ok? ==> rounds[0].message.phase == "msg0" && first.value.result == None
    requires |rest| > 0 && rest[0].Ok? ==>
               first.Ok? && rounds[1].message.phase == "msg2" && rest[0].value.outgoing == None
    ensures InitiatorReplies(rounds, [first] + rest)
  {
  }

  lemma LastInitiatorRounds(C: Primitives, t: Table, sid: string, st: bytes, rounds: seq<Round>)
    requires C.Ideal() && Waiting(C, t, sid, st) && st != []
    ensures var rs := Replies(Psi(C), t, sid, rounds);
            && (forall i :: 0 < i < |rs| ==> rs[i] == Err(KeyError))
            && (|rs| > 0 && rs[0].Ok? ==> rounds[0].message.phase == "msg2" && rs[0].value.outgoing == None)
  {
    if rounds != [] {
      var m, draws := rounds[0].message, rounds[0].draws;
      SecondInitiatorRound(C, t, sid, st, m, draws);
      GoneStaysGone(Psi(C), Process(Psi(C), t, sid, m, draws).1, sid, rounds[1..]);
    }
  }
}
