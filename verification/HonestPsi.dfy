/** The four messages of an honest run of the PSI operation, step by step. */
module HonestPsi {
  import opened Wrappers
  import opened Bytes
  import opened Json
  import opened Ristretto
  import opened Crypto
  import opened Operations
  import opened PsiOperation
  import F = PsiFfi
  import P = PscProtocol

  /** What the four steps draw: the initiator's start and `msg0`, the receiver's `init` and `msg1`. */
  datatype Dice = Dice(start: Draws, open: Draws, ask: Draws, answer: Draws)

  /** Both contributions hashed. */
  function SessionOf(C: Primitives, d: Dice): Bytes32 {
    C.sha256(Ascii("AP3-PSC-session-id") + d.start.token0 + d.open.token0)
  }

  function CommitOf(C: Primitives, d: Dice): Bytes32 {
    C.sha256(Ascii("AP3-PSC-commit") + d.start.token0 + d.start.token1)
  }

  /** The list item and the customer are not told apart by the hashes of this session. */
  predicate Alias(C: Primitives, d: Dice, customer: string, row: string) {
    P.Indistinct(C, SessionOf(C, d), d.answer.scalar0, F.GenerateHash(C, customer), F.GenerateHash(C, row))
  }

  /** What the operation decides. */
  predicate Verdict(C: Primitives, d: Dice, customer: string, list: seq<string>) {
    exists row :: row in list && Alias(C, d, customer, row)
  }

  /** A run on which nothing degenerates: a list within the cap and draws the library accepts. */
  ghost predicate Regular(C: Primitives, d: Dice, customer: string, list: seq<string>) {
    && C.Ideal() && customer != "" && 0 < |list| <= F.MAX_SANCTION_ENTRIES
    && P.Generic(C, SessionOf(C, d), F.GenerateHash(C, customer), RowHashes(C, list),
                 d.ask.scalar0, d.answer.scalar0, d.answer.scalar1)
  }

  /** The two byte strings the initiator makes of `msg0`: its state and the first message. */
  function Asked(C: Primitives, d: Dice, customer: string): (bytes, bytes) {
    var r := F.CreatePscMsg1(C, SessionOf(C, d), F.GenerateHash(C, customer), d.ask.scalar0);
    if r.Ok? then r.value else ([], [])
  }

  /** The payload of `msg1`. */
  function Msg1Data(C: Primitives, d: Dice, customer: string): bytes {
    d.start.token0 + d.start.token1 + Asked(C, d, customer).1
  }

  /** The payload of `msg2`. */
  function Msg2Data(C: Primitives, d: Dice, customer: string, list: seq<string>): bytes {
    var r := F.ProcessPscMsg1(C, SessionOf(C, d), Asked(C, d, customer).1, RowHashes(C, list),
                              d.answer.scalar0, d.answer.scalar1, d.answer.picks);
    if r.Ok? then r.value else []
  }

  /** On a regular run both succeed, and the initiator decides the verdict. */
  lemma Exchanged(C: Primitives, d: Dice, customer: string, list: seq<string>)
    requires Regular(C, d, customer, list)
    ensures var (st, m1) := Asked(C, d, customer);
            && |st| == 128 && |m1| == 64
            && F.CreatePscMsg1(C, SessionOf(C, d), F.GenerateHash(C, customer), d.ask.scalar0) == Ok((st, m1))
            && F.ProcessPscMsg1(C, SessionOf(C, d), m1, RowHashes(C, list),
                                d.answer.scalar0, d.answer.scalar1, d.answer.picks)
               == Ok(Msg2Data(C, d, customer, list))
            && F.ProcessPscMsg2(C, st, Msg2Data(C, d, customer, list)) == Ok(Verdict(C, d, customer, list))
  {
    var x, vs, sid, k := F.GenerateHash(C, customer), RowHashes(C, list), SessionOf(C, d), d.answer.scalar0;
    F.HonestBytes(C, sid, x, vs, d.ask.scalar0, k, d.answer.scalar1, d.answer.picks);
    if v :| v in vs && P.Indistinct(C, sid, k, x, v) {
      var i :| 0 <= i < |vs| && vs[i] == v;
      assert list[i] in list && Alias(C, d, customer, list[i]);
    }
    if row :| row in list && Alias(C, d, customer, row) {
      var i :| 0 <= i < |list| && list[i] == row;
      assert vs[i] in vs && P.Indistinct(C, sid, k, x, vs[i]);
    }
  }

  /** A customer is given as a string or as the field of a dictionary. */
  predicate Names(inputs: Value, customer: string) {
    inputs == Str(customer) || (inputs.Obj? && Lookup(inputs.fields, "customer_data") == Str(customer))
  }

  lemma StartStep(C: Primitives, d: Dice, customer: string, inputs: Value)
    requires customer != "" && Names(inputs, customer)
    ensures OnStart(C, "initiator", inputs, d.start) ==
            Ok(StepResult(InitiatorState(C, customer, d.start.token0, d.start.token1), false,
                          Send("init", B64e(C, CommitOf(C, d))), None))
  {
  }

  lemma InitStep(C: Primitives, d: Dice, list: seq<string>)
    requires C.Ideal() && list != []
    ensures ReceiverStep(C, map[], Message("init", B64e(C, CommitOf(C, d))), Config(list), d.open) ==
            Ok(StepResult(ReceiverState(C, CommitOf(C, d), d.open.token0, RowHashes(C, list)), false,
                          Send("msg0", B64e(C, d.open.token0)), None))
  {
  }

  lemma Msg0Step(C: Primitives, d: Dice, customer: string)
    requires C.Ideal() && customer != ""
    requires F.CreatePscMsg1(C, SessionOf(C, d), F.GenerateHash(C, customer), d.ask.scalar0)
             == Ok(Asked(C, d, customer))
    ensures InitiatorStep(C, InitiatorState(C, customer, d.start.token0, d.start.token1),
                          Message("msg0", B64e(C, d.open.token0)), d.ask) ==
            Ok(StepResult(map["initiator_state" := B64e(C, Asked(C, d, customer).0)], false,
                          Send("msg1", B64e(C, Msg1Data(C, d, customer))), None))
  {
    var state := InitiatorState(C, customer, d.start.token0, d.start.token1);
    assert Get(state, "customer_data") == Str(customer);
    assert Get(state, "sid_0") == B64e(C, d.start.token0) && Truthy(Get(state, "sid_0"));
    assert Get(state, "blind_value") == B64e(C, d.start.token1);
  }

  lemma Msg1Step(C: Primitives, d: Dice, customer: string, list: seq<string>, config: Config)
    requires Regular(C, d, customer, list)
    ensures ReceiverStep(C, ReceiverState(C, CommitOf(C, d), d.open.token0, RowHashes(C, list)),
                         Message("msg1", B64e(C, Msg1Data(C, d, customer))), config, d.answer) ==
            Ok(StepResult(map[], true, Send("msg2", B64e(C, Msg2Data(C, d, customer, list))), None))
  {
    Answered(C, d, customer, list);
    AnswerStep(C, CommitOf(C, d), d.open.token0, RowHashes(C, list), B64e(C, Msg1Data(C, d, customer)), d.answer);
  }

  lemma Answered(C: Primitives, d: Dice, customer: string, list: seq<string>)
    requires Regular(C, d, customer, list)
    ensures Answers(C, CommitOf(C, d), d.open.token0, RowHashes(C, list), Msg1Data(C, d, customer), d.answer,
                    Msg2Data(C, d, customer, list))
  {
    Exchanged(C, d, customer, list);
    var data := Msg1Data(C, d, customer);
    assert data[..32] == d.start.token0 && data[32..64] == d.start.token1;
    assert data[64..] == Asked(C, d, customer).1;
  }

  lemma Msg2Step(C: Primitives, st: bytes, msg2: bytes, b: bool, draws: Draws)
    requires C.Ideal() && st != [] && F.ProcessPscMsg2(C, st, msg2) == Ok(b)
    ensures InitiatorStep(C, map["initiator_state" := B64e(C, st)], Message("msg2", B64e(C, msg2)), draws) ==
            Ok(StepResult(map[], true, None, Some(IsMatch(b))))
  {
    assert Get(map["initiator_state" := B64e(C, st)], "initiator_state") == B64e(C, st);
  }

  // --- the same as calls on session tables -----------------------------------------------------------

  function AtStart(C: Primitives, d: Dice, customer: string): Session {
    Session("initiator", InitiatorState(C, customer, d.start.token0, d.start.token1), Config([]))
  }

  function AtInit(C: Primitives, d: Dice, list: seq<string>): Session {
    Session("receiver", ReceiverState(C, CommitOf(C, d), d.open.token0, RowHashes(C, list)), Config(list))
  }

  function AtMsg0(C: Primitives, d: Dice, customer: string): Session {
    Session("initiator", map["initiator_state" := B64e(C, Asked(C, d, customer).0)], Config([]))
  }

  lemma Start(C: Primitives, d: Dice, customer: string, inputs: Value, t: Table, sid: string)
    requires customer != "" && Names(inputs, customer)
    ensures Operations.Start(Psi(C), t, "initiator", inputs, Config([]), "", sid, d.start) ==
            (Ok(Reply(sid, false, Send("init", B64e(C, CommitOf(C, d))), None)), t[sid := AtStart(C, d, customer)])
  {
    StartStep(C, d, customer, inputs);
  }

  lemma Init(C: Primitives, d: Dice, list: seq<string>, t: Table, sid: string, newId: string)
    requires C.Ideal() && list != [] && sid != ""
    ensures Receive(Psi(C), t, "receiver", Message("init", B64e(C, CommitOf(C, d))), Config(list), sid, newId, d.open)
            ==
            (Ok(Reply(sid, false, Send("msg0", B64e(C, d.open.token0)), None)), t[sid := AtInit(C, d, list)])
  {
    InitStep(C, d, list);
  }

  /** A round that goes on, and one that ends the session, as calls on the table. */
  lemma NextRound(C: Primitives, t: Table, sid: string, m: Message, draws: Draws, next: Dict, out: Option<Outgoing>)
    requires sid in t
    requires OnProcess(C, t[sid].role, t[sid].state, m, t[sid].config, draws) == Ok(StepResult(next, false, out, None))
    ensures Process(Psi(C), t, sid, m, draws) == (Ok(Reply(sid, false, out, None)), t[sid := t[sid].(state := next)])
  {
  }

  lemma LastRound(C: Primitives, t: Table, sid: string, m: Message, draws: Draws,
                  out: Option<Outgoing>, result: Option<Value>)
    requires sid in t
    requires OnProcess(C, t[sid].role, t[sid].state, m, t[sid].config, draws)
             == Ok(StepResult(map[], true, out, result))
    ensures Process(Psi(C), t, sid, m, draws) == (Ok(Reply(sid, true, out, result)), Without(t, sid))
  {
  }

  lemma Msg0(C: Primitives, d: Dice, customer: string, list: seq<string>, t: Table, sid: string)
    requires Regular(C, d, customer, list) && sid in t && t[sid] == AtStart(C, d, customer)
    ensures Process(Psi(C), t, sid, Message("msg0", B64e(C, d.open.token0)), d.ask) ==
            (Ok(Reply(sid, false, Send("msg1", B64e(C, Msg1Data(C, d, customer))), None)),
             t[sid := AtMsg0(C, d, customer)])
  {
    Exchanged(C, d, customer, list);
    Msg0Step(C, d, customer);
    NextRound(C, t, sid, Message("msg0", B64e(C, d.open.token0)), d.ask, AtMsg0(C, d, customer).state,
              Send("msg1", B64e(C, Msg1Data(C, d, customer))));
  }

  lemma Msg1(C: Primitives, d: Dice, customer: string, list: seq<string>, t: Table, sid: string)
    requires Regular(C, d, customer, list) && sid in t && t[sid] == AtInit(C, d, list)
    ensures Process(Psi(C), t, sid, Message("msg1", B64e(C, Msg1Data(C, d, customer))), d.answer) ==
            (Ok(Reply(sid, true, Send("msg2", B64e(C, Msg2Data(C, d, customer, list))), None)), Without(t, sid))
  {
    Msg1Step(C, d, customer, list, Config(list));
    LastRound(C, t, sid, Message("msg1", B64e(C, Msg1Data(C, d, customer))), d.answer,
              Send("msg2", B64e(C, Msg2Data(C, d, customer, list))), None);
  }

  lemma Msg2(C: Primitives, d: Dice, customer: string, list: seq<string>, t: Table, sid: string, draws: Draws)
    requires Regular(C, d, customer, list) && sid in t && t[sid] == AtMsg0(C, d, customer)
    ensures Process(Psi(C), t, sid, Message("msg2", B64e(C, Msg2Data(C, d, customer, list))), draws) ==
            (Ok(Reply(sid, true, None, Some(IsMatch(Verdict(C, d, customer, list))))), Without(t, sid))
  {
    Exchanged(C, d, customer, list);
    Msg2Step(C, Asked(C, d, customer).0, Msg2Data(C, d, customer, list), Verdict(C, d, customer, list), draws);
    LastRound(C, t, sid, Message("msg2", B64e(C, Msg2Data(C, d, customer, list))), draws,
              None, Some(IsMatch(Verdict(C, d, customer, list))));
  }

  // --- what the verdict means -------------------------------------------------------------------------

  /** One of the three hashes maps what is hashed of the customer and of a list item to one value. */
  ghost predicate Collides(C: Primitives, d: Dice, customer: string, row: string) {
    var x, v := C.sha256(Ascii("Customer") + Utf8(customer)), C.sha256(Ascii("Customer") + Utf8(row));
    var sid, k := SessionOf(C, d), d.answer.scalar0;
    var p, q := C.h1(sid, x), C.h1(sid, v);
    || Collision(C.sha256, Ascii("Customer") + Utf8(customer), Ascii("Customer") + Utf8(row))
    || (x != v && p == q)
    || (p != q && C.h2(sid, p, Mul(C.group, k, p)) == C.h2(sid, q, Mul(C.group, k, q)))
  }

  /** The hash of a name is the digest of its bytes, so two names share one only through SHA-256 itself. */
  lemma NamesApart(C: Primitives, a: string, b: string)
    ensures F.GenerateHash(C, a) == C.sha256(Ascii("Customer") + Utf8(a))
    ensures F.GenerateHash(C, a) == F.GenerateHash(C, b) <==>
            a == b || Collision(C.sha256, Ascii("Customer") + Utf8(a), Ascii("Customer") + Utf8(b))
  {
    if Ascii("Customer") + Utf8(a) == Ascii("Customer") + Utf8(b) {
      SameTail(Ascii("Customer"), Utf8(a), Utf8(b));
      Utf8Injective(a, b);
    }
  }

  lemma SameTail(p: bytes, a: bytes, b: bytes)
    requires p + a == p + b
    ensures a == b
  {
    assert (p + a)[|p|..] == a && (p + b)[|p|..] == b;
  }

  /** A listed customer is always found; another one is found exactly when a hash collides. */
  lemma VerdictIsMembership(C: Primitives, d: Dice, customer: string, list: seq<string>)
    requires Regular(C, d, customer, list)
    ensures Verdict(C, d, customer, list) <==>
              customer in list || exists row :: row in list && Collides(C, d, customer, row)
  {
    var x, sid, k := F.GenerateHash(C, customer), SessionOf(C, d), d.answer.scalar0;
    P.Found(C, sid, k, x);
    forall row | row in list
      ensures Alias(C, d, customer, row) <==> row == customer || Collides(C, d, customer, row)
    {
      var v := F.GenerateHash(C, row);
      NamesApart(C, customer, row);
      NamesApart(C, row, row);
      assert v in RowHashes(C, list) by {
        var i :| 0 <= i < |list| && list[i] == row;
        assert RowHashes(C, list)[i] == v;
      }
      P.Found(C, sid, k, v);
    }
  }
}
