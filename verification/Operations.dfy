/** The generic operation contract of operation.py and its session table. */
module Operations {
  import opened Wrappers
  import opened Bytes
  import opened Json

  /** Session state is a dictionary, as in the source. */
  type Dict = map<string, Value>

  datatype Config = Config(sanctionList: seq<string>)

  datatype Message = Message(phase: string, payload: Value)

  datatype Outgoing = Outgoing(phase: Option<string>, protocolSession: Option<string>, message: Value)

  datatype StepResult = StepResult(next: Dict, done: bool, outgoing: Option<Outgoing>, result: Option<Value>)

  /** `KeyError`, which the core treats specially, and every other exception. */
  datatype Failure = KeyError | OtherError

  /** The random values one call may draw. */
  datatype Draws = Draws(token0: Bytes32, token1: Bytes32, scalar0: nat, scalar1: nat, picks: seq<nat>)

  /** What a subclass defines: its id, `on_start` and `on_process` (the boolean is `is_first_message`). */
  datatype Behaviour = Behaviour(
    id: string,
    onStart: (string, Value, Config, Draws) -> Result<StepResult, Failure>,
    onProcess: (string, Dict, Message, Config, bool, Draws) -> Result<StepResult, Failure>)

  datatype Session = Session(role: string, state: Dict, config: Config)

  type Table = map<string, Session>

  datatype Reply = Reply(session: string, done: bool, outgoing: Option<Outgoing>, result: Option<Value>)

  function ToReply(r: StepResult, sid: string): Reply {
    Reply(sid, r.done, r.outgoing, r.result)
  }

  /** `session_id or uuid4().hex`: the empty id is replaced as well. */
  function PickId(sid: string, newId: string): string {
    if sid == "" then newId else sid
  }

  function Without(t: Table, sid: string): Table {
    map k | k in t && k != sid :: t[k]
  }

  // --- the three calls on a session table ------------------------------------------

  function Start(b: Behaviour, t: Table, role: string, inputs: Value, config: Config, sid: string, newId: string,
        draws: Draws)
    : (Result<Reply, Failure>, Table)
  {
    var id := PickId(sid, newId);
    match b.onStart(role, inputs, config, draws)
    case Err(e) => (Err(e), t)
    case Ok(r) => (Ok(ToReply(r, id)), if r.done then t else t[id := Session(role, r.next, config)])
  }

  function Receive(b: Behaviour, t: Table, role: string, m: Message, config: Config, sid: string, newId: string,
        draws: Draws)
    : (Result<Reply, Failure>, Table)
  {
    var id := PickId(sid, newId);
    match b.onProcess(role, map[], m, config, true, draws)
    case Err(e) => (Err(e), t)
    case Ok(r) => (Ok(ToReply(r, id)), if r.done then t else t[id := Session(role, r.next, config)])
  }

  function Process(b: Behaviour, t: Table, sid: string, m: Message, draws: Draws): (Result<Reply, Failure>, Table) {
    if sid !in t then (Err(KeyError), t)
    else
      var s := t[sid];
      match b.onProcess(s.role, s.state, m, s.config, false, draws)
      case Err(e) => (Err(e), Without(t, sid))
      case Ok(r) => (Ok(ToReply(r, sid)), if r.done then Without(t, sid) else t[sid := s.(state := r.next)])
  }

  /** The object: a table that the three calls and `abort` update in place. */
  class Operation {
    const behaviour: Behaviour
    var sessions: Table

    constructor (behaviour: Behaviour)
      ensures this.behaviour == behaviour && sessions == map[]
    {
      this.behaviour := behaviour;
      sessions := map[];
    }

    method SaveSession(sid: string, role: string, state: Dict, config: Config)
      modifies this
      ensures sessions == old(sessions)[sid := Session(role, state, config)]
    {
      sessions := sessions[sid := Session(role, state, config)];
    }

    method StartSession(role: string, inputs: Value, config: Config, sid: string, newId: string, draws: Draws)
      returns (r: Result<Reply, Failure>)
      modifies this
      ensures (r, sessions) == Start(behaviour, old(sessions), role, inputs, config, sid, newId, draws)
    {
      var id := PickId(sid, newId);
      var result := behaviour.onStart(role, inputs, config, draws);
      if result.Err? {
        return Err(result.error);
      }
      if !result.value.done {
        SaveSession(id, role, result.value.next, config);
      }
      r := Ok(ToReply(result.value, id));
    }

    method ReceiveFirst(role: string, m: Message, config: Config, sid: string, newId: string, draws: Draws)
      returns (r: Result<Reply, Failure>)
      modifies this
      ensures (r, sessions) == Receive(behaviour, old(sessions), role, m, config, sid, newId, draws)
    {
      var id := PickId(sid, newId);
      var result := behaviour.onProcess(role, map[], m, config, true, draws);
      if result.Err? {
        return Err(result.error);
      }
      if !result.value.done {
        SaveSession(id, role, result.value.next, config);
      }
      r := Ok(ToReply(result.value, id));
    }

    /** A failed round ends the session, and so does a finished one. */
    method ProcessRound(sid: string, m: Message, draws: Draws) returns (r: Result<Reply, Failure>)
      modifies this
      ensures (r, sessions) == Process(behaviour, old(sessions), sid, m, draws)
      ensures r.Err? || r.value.done ==> sid !in sessions
    {
      if sid !in sessions {
        return Err(KeyError);
      }
      var s := sessions[sid];
      var result := behaviour.onProcess(s.role, s.state, m, s.config, false, draws);
      if result.Err? {
        var ended := Abort(sid);
        return Err(result.error);
      }
      if result.value.done {
        sessions := Without(sessions, sid);
      } else {
        sessions := sessions[sid := s.(state := result.value.next)];
      }
      r := Ok(ToReply(result.value, sid));
    }

    method Abort(sid: string) returns (ended: bool)
      modifies this
      ensures ended == (sid in old(sessions))
      ensures sessions == Without(old(sessions), sid)
    {
      ended := sid in sessions;
      sessions := Without(sessions, sid);
    }
  }

  /** A round touches its own session only, which goes on exactly when the round succeeds undone. */
  lemma ProcessWithout(b: Behaviour, t: Table, sid: string, m: Message, draws: Draws)
    ensures var (r, t') := Process(b, t, sid, m, draws);
            Without(t', sid) == Without(t, sid) && (sid in t' <==> r.Ok? && !r.value.done)
  {
  }

  // --- sequences of rounds ------------------------------------------------------------

  datatype Round = Round(message: Message, draws: Draws)

  /** The replies of consecutive `process` calls on one session. */
  function Replies(b: Behaviour, t: Table, sid: string, rounds: seq<Round>): (rs: seq<Result<Reply, Failure>>)
    ensures |rs| == |rounds|
    decreases |rounds|
  {
    if rounds == [] then []
    else
      var (r, t') := Process(b, t, sid, rounds[0].message, rounds[0].draws);
      [r] + Replies(b, t', sid, rounds[1..])
  }

  /** The session under `id` is this one, and no other has changed. */
  ghost predicate Holds(t: Table, t1: Table, id: string, s: Session) {
    id in t1 && t1[id] == s && forall k :: k != id ==> (k in t1 <==> k in t) && (k in t ==> t1[k] == t[k])
  }

  /** An opened session is kept with its role, state and configuration; a failed or finished one is not kept. */
  lemma OpeningKeeps(b: Behaviour, t: Table, role: string, inputs: Value, m: Message, config: Config, sid: string,
        newId: string, draws: Draws)
    requires sid != ""
    ensures var r, (_, t1) := b.onStart(role, inputs, config, draws),
                              Start(b, t, role, inputs, config, sid, newId, draws);
            if r.Ok? && !r.value.done then Holds(t, t1, sid, Session(role, r.value.next, config)) else t1 == t
    ensures var r, (_, t1) := b.onProcess(role, map[], m, config, true, draws),
                              Receive(b, t, role, m, config, sid, newId, draws);
            if r.Ok? && !r.value.done then Holds(t, t1, sid, Session(role, r.value.next, config)) else t1 == t
  {
  }

  /** A round that goes on keeps role and configuration and takes the new state. */
  lemma RoundKeeps(b: Behaviour, t: Table, sid: string, m: Message, draws: Draws)
    requires sid in t
    ensures var s := t[sid];
            var r, (_, t1) := b.onProcess(s.role, s.state, m, s.config, false, draws), Process(b, t, sid, m, draws);
            if r.Ok? && !r.value.done then Holds(t, t1, sid, Session(s.role, r.value.next, s.config))
            else sid !in t1 && t1 == Without(t, sid)
  {
  }

  /** A session that is gone answers every further round with `KeyError`. */
  lemma {:induction false} GoneStaysGone(b: Behaviour, t: Table, sid: string, rounds: seq<Round>)
    requires sid !in t
    ensures forall i :: 0 <= i < |rounds| ==> Replies(b, t, sid, rounds)[i] == Err(KeyError)
    decreases |rounds|
  {
    if rounds != [] {
      GoneStaysGone(b, t, sid, rounds[1..]);
    }
  }

  // --- rounds among other calls -----------------------------------------------------------

  /** Any call on the operation. */
  datatype TableCall =
    | Starting(role: string, inputs: Value, config: Config, sid: string, newId: string, draws: Draws)
    | Receiving(role: string, message: Message, config: Config, sid: string, newId: string, draws: Draws)
    | Processing(sid: string, round: Round)
    | Aborting(sid: string)

  function TableAfter(b: Behaviour, t: Table, c: TableCall): Table {
    match c
    case Starting(role, inputs, config, sid, newId, draws) => Start(b, t, role, inputs, config, sid, newId, draws).1
    case Receiving(role, m, config, sid, newId, draws) => Receive(b, t, role, m, config, sid, newId, draws).1
    case Processing(sid, round) => Process(b, t, sid, round.message, round.draws).1
    case Aborting(sid) => Without(t, sid)
  }

  /** The call opens or aborts session `sid`. */
  predicate Resets(c: TableCall, sid: string) {
    match c
    case Starting(_, _, _, s, newId, _) => PickId(s, newId) == sid
    case Receiving(_, _, _, s, newId, _) => PickId(s, newId) == sid
    case Processing(_, _) => false
    case Aborting(s) => s == sid
  }

  /** The rounds on one session among any calls, and the replies to them. */
  function RoundsOf(calls: seq<TableCall>, sid: string): seq<Round> {
    if calls == [] then []
    else (if calls[0].Processing? && calls[0].sid == sid then [calls[0].round] else []) + RoundsOf(calls[1..], sid)
  }

  function RepliesAmid(b: Behaviour, t: Table, calls: seq<TableCall>, sid: string): seq<Result<Reply, Failure>>
    decreases |calls|
  {
    if calls == [] then []
    else
      var c := calls[0];
      (if c.Processing? && c.sid == sid then [Process(b, t, sid, c.round.message, c.round.draws).0] else [])
      + RepliesAmid(b, TableAfter(b, t, c), calls[1..], sid)
  }

  /** Calls for other sessions in between make no difference. */
  lemma {:induction false} OtherCallsDoNotMatter(b: Behaviour, t: Table, u: Table, calls: seq<TableCall>, sid: string)
    requires forall c :: c in calls ==> !Resets(c, sid)
    requires (sid in t <==> sid in u) && (sid in t ==> u[sid] == t[sid])
    ensures RepliesAmid(b, t, calls, sid) == Replies(b, u, sid, RoundsOf(calls, sid))
    decreases |calls|
  {
    if calls != [] {
      var c, rest := calls[0], RoundsOf(calls[1..], sid);
      var t1 := TableAfter(b, t, c);
      if c.Processing? && c.sid == sid {
        assert ([c.round] + rest)[1..] == rest;
        OtherCallsDoNotMatter(b, t1, Process(b, u, sid, c.round.message, c.round.draws).1, calls[1..], sid);
      } else {
        assert c in calls && [] + rest == rest;
        OtherCallsDoNotMatter(b, t1, u, calls[1..], sid);
      }
    }
  }
}
