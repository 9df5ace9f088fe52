/**
 * The receiver of _core.py as functions on its state. A handler runs in segments: `Deliver` from
 * the moment it holds the session until the first peer resolution, and `Resume` from a resolution
 * to the next one or to the end. Clock readings, resolved peers, configurations and random draws
 * are inputs.
 */
module Receiver {
  import opened Wrappers
  import opened Bytes
  import opened Json
  import opened Canonical
  import opened Directives
  import opened Operations

  const WIRE_VERSION := "1.0"

  /** Instants are in microseconds. */
  const THIRTY_MINUTES: int := 30 * 60 * 1_000_000

  datatype ErrorCode =
    | UnsupportedWireVersion | MissingIntent | InvalidIntent | WrongReceiver | InvalidInitiatorUrl
    | BadSignature | IntentSessionMismatch | IntentOperationMismatch | IntentRejected
    | IntentPayloadMismatch | ReplayDetected | IncompatiblePeer | OperationError | UnexpectedPhase | SessionExpired

  /** The intent field of an envelope: absent, refused by the parser, or parsed. */
  datatype IntentField = NoIntent | Malformed | Parsed(intent: Intent)

  datatype Envelope = Envelope(
    version: string, operation: string, phase: string, session: string,
    payload: Value, error: Option<ErrorCode>, intent: IntentField)

  datatype Peer = Peer(publicKey: bytes, params: string)

  /** What a core is built with. */
  datatype Setup = Setup(
    behaviour: Behaviour, opType: string, selfUrl: string, privateKey: bytes, services: Services,
    sha256: bytes -> Bytes32, b64e: bytes -> string, normalize: string -> string, safeUrl: string -> bool,
    compatible: Peer -> bool)

  datatype RxSession = RxSession(internal: string, signer: bytes, url: string, openingPhase: string)

  datatype CachedRound = CachedRound(expires: int, reply: Option<Envelope>)

  /** The replay cache, the round cache, the receiver sessions and the operation's own sessions. */
  datatype State = State(
    replay: map<string, int>, rounds: map<string, CachedRound>, rx: map<string, RxSession>, ops: Table)

  /** The clock readings of one segment, in the order they are taken. */
  datatype Clock = Clock(dedupe: int, valid: int, replay: int, store: int)

  /** The other inputs of a segment; no configuration means that the provider raised. */
  datatype Input = Input(clock: Clock, config: Option<Config>, draws: Draws, newId: string)

  /** A handler waiting for `resolve_peer`, for the first time or after a forced refresh. */
  datatype Pending = Pending(env: Envelope, intent: Intent, url: string, forced: bool)

  datatype Outcome = Answered(reply: Option<Envelope>) | Raised | Awaiting(pending: Pending)

  /** A call of the operation's `receive` (opening) or `process`. */
  datatype Call = Call(opening: bool, env: Envelope, intent: Intent, signer: bytes, now: int)

  /** What a segment does: the new state, how it ends, the call it makes, the replay sweep it does. */
  datatype StepOut = StepOut(state: State, outcome: Outcome, call: Option<Call>, swept: Option<int>)

  // --- keys ------------------------------------------------------------------------------

  /** `"|".join(parts)`. */
  function Join(parts: seq<string>): string {
    if parts == [] then "" else if |parts| == 1 then parts[0] else parts[0] + ("|" + Join(parts[1..]))
  }

  /** `_hash_payload`: a string and a structured value may hash the same bytes. */
  function HashPayload(S: Setup, payload: Value): string {
    Hex(S.sha256(if payload.Str? then Utf8(payload.s) else CanonicalBytes(payload)))
  }

  /** The bytes that an intent's payload hash is about. */
  function PayloadBytes(payload: Value): bytes {
    match payload
    case Str(s) => Utf8(s)
    case _ => CanonicalBytes(payload)
  }

  function RoundKey(S: Setup, env: Envelope): string {
    Join([env.operation, env.session, env.phase, HashPayload(S, env.payload)])
  }

  function ReplayKey(signer: bytes, session: string, id: string, nonce: string, payloadHash: string): string {
    Join([Hex(signer), session, id, nonce, payloadHash])
  }

  function IntentKey(signer: bytes, env: Envelope, intent: Intent): string {
    ReplayKey(signer, env.session, intent.id, intent.nonce, intent.payloadHash)
  }

  function CallKey(c: Call): string {
    IntentKey(c.signer, c.env, c.intent)
  }

  /** `_parse_expiry_utc`; only asked of intents whose expiry is readable. */
  function ExpiryOf(S: Setup, intent: Intent): int {
    var t := S.services.parseTime(intent.expiry);
    if t.Some? then t.value else 0
  }

  // --- the two sweeps ------------------------------------------------------------------------

  function SweepReplay(m: map<string, int>, now: int): map<string, int> {
    map k | k in m && m[k] > now :: m[k]
  }

  function SweepRounds(m: map<string, CachedRound>, now: int): map<string, CachedRound> {
    map k | k in m && m[k].expires > now :: m[k]
  }

  // --- validation -----------------------------------------------------------------------------

  function Refusal(env: Envelope, code: ErrorCode): Envelope {
    Envelope(WIRE_VERSION, env.operation, "error", env.session, Obj([]), Some(code), NoIntent)
  }

  function Refuse(st: State, env: Envelope, code: ErrorCode): StepOut {
    StepOut(st, Answered(Some(Refusal(env, code))), None, None)
  }

  /** The checks of `_check_intent_consistency` before the replay cache is looked at. */
  function IntentProblem(S: Setup, env: Envelope, intent: Intent, now: int): Option<ErrorCode> {
    if intent.session != env.session then Some(IntentSessionMismatch)
    else if intent.opType != S.opType then Some(IntentOperationMismatch)
    else if !Valid(S.services, intent, now) then Some(IntentRejected)
    else if intent.payloadHash != HashPayload(S, env.payload) then Some(IntentPayloadMismatch)
    else None
  }

  /** `_check_intent_consistency`: the new state, the refusal if any, and the sweep if it got there. */
  function CheckIntent(S: Setup, st: State, env: Envelope, intent: Intent, signer: bytes, clock: Clock)
    : (State, Option<ErrorCode>, Option<int>)
  {
    var problem := IntentProblem(S, env, intent, clock.valid);
    if problem.Some? then (st, problem, None)
    else
      var swept := SweepReplay(st.replay, clock.replay);
      var key := IntentKey(signer, env, intent);
      if key in swept then (st.(replay := swept), Some(ReplayDetected), Some(clock.replay))
      else (st.(replay := swept[key := ExpiryOf(S, intent)]), None, Some(clock.replay))
  }

  /** The envelope that carries what an operation call replied, if it sends anything. */
  function ReplyEnvelope(S: Setup, env: Envelope, r: Reply): Option<Envelope> {
    if r.outgoing.None? then None
    else
      var out := r.outgoing.value;
      var phase := if out.phase.Some? then out.phase.value else "reply";
      Some(Envelope(WIRE_VERSION, S.behaviour.id, phase, env.session, out.message, None, NoIntent))
  }

  /** An answered round is kept for thirty minutes, also when nothing is sent. */
  function Remember(S: Setup, st: State, env: Envelope, r: Reply, now: int): State {
    st.(rounds := st.rounds[RoundKey(S, env) := CachedRound(now + THIRTY_MINUTES, ReplyEnvelope(S, env, r))])
  }

  function WithoutRx(rx: map<string, RxSession>, session: string): map<string, RxSession> {
    map s | s in rx && s != session :: rx[s]
  }

  function ToMessage(env: Envelope): Message {
    Message(env.phase, env.payload)
  }

  // --- an open session -------------------------------------------------------------------------

  function Continue(S: Setup, st: State, env: Envelope, input: Input): StepOut
    requires env.session in st.rx
  {
    var rx := st.rx[env.session];
    match env.intent
    case NoIntent => Refuse(st, env, MissingIntent)
    case Malformed => Refuse(st, env, InvalidIntent)
    case Parsed(intent) =>
      if !Verified(S.services, intent, rx.signer) then Refuse(st, env, BadSignature)
      else ContinueVerified(S, st, env, intent, input)
  }

  /** What follows once the signature verifies under the pinned key. */
  function ContinueVerified(S: Setup, st: State, env: Envelope, intent: Intent, input: Input): StepOut
    requires env.session in st.rx
  {
    var rx := st.rx[env.session];
    var (st1, problem, swept) := CheckIntent(S, st, env, intent, rx.signer, input.clock);
    if problem.Some? then Refuse(st1, env, problem.value).(swept := swept)
    else if env.phase == rx.openingPhase then Refuse(st1, env, UnexpectedPhase).(swept := swept)
    else ContinueCall(S, st1, env, intent, input).(swept := swept)
  }

  /** The `process` call and what follows it. */
  function ContinueCall(S: Setup, st: State, env: Envelope, intent: Intent, input: Input): StepOut
    requires env.session in st.rx
  {
    var rx := st.rx[env.session];
    var (r, ops) := Process(S.behaviour, st.ops, rx.internal, ToMessage(env), input.draws);
    var st1 := st.(ops := ops);
    var ended := st1.(rx := WithoutRx(st.rx, env.session));
    var call := Some(Call(false, env, intent, rx.signer, input.clock.valid));
    match r
    case Err(KeyError) => Refuse(ended, env, SessionExpired).(call := call)
    case Err(OtherError) => Refuse(ended, env, OperationError).(call := call)
    case Ok(reply) =>
      var st2 := if reply.done then ended else st1;
      StepOut(Remember(S, st2, env, reply, input.clock.store), Answered(ReplyEnvelope(S, env, reply)), call, None)
  }

  // --- opening a session --------------------------------------------------------------------------

  /** The checks of `_open_receiver_session` before the peer is resolved. */
  function OpenStart(S: Setup, st: State, env: Envelope): StepOut {
    match env.intent
    case NoIntent => Refuse(st, env, MissingIntent)
    case Malformed => Refuse(st, env, InvalidIntent)
    case Parsed(intent) =>
      if |intent.participants| != 2 then Refuse(st, env, InvalidIntent)
      else if intent.participants[0] == "" || intent.participants[1] == "" then Refuse(st, env, InvalidIntent)
      else if S.normalize(intent.participants[1]) != S.selfUrl then Refuse(st, env, WrongReceiver)
      else if !S.safeUrl(intent.participants[0]) then Refuse(st, env, InvalidInitiatorUrl)
      else StepOut(st, Awaiting(Pending(env, intent, intent.participants[0], false)), None, None)
  }

  /** The rest of `_open_receiver_session`, once the signature verifies. */
  function OpenFinish(S: Setup, st: State, p: Pending, peer: Peer, input: Input): StepOut {
    var (st1, problem, swept) := CheckIntent(S, st, p.env, p.intent, peer.publicKey, input.clock);
    if problem.Some? then Refuse(st1, p.env, problem.value).(swept := swept)
    else if !S.compatible(peer) then Refuse(st1, p.env, IncompatiblePeer).(swept := swept)
    else if input.config.None? then StepOut(st1, Raised, None, swept)
    else OpenCall(S, st1, p, peer, input).(swept := swept)
  }

  /** The `receive` call and what follows it. */
  function OpenCall(S: Setup, st: State, p: Pending, peer: Peer, input: Input): StepOut
    requires input.config.Some?
  {
    var (r, ops) := Receive(S.behaviour, st.ops, "receiver", ToMessage(p.env), input.config.value, p.env.session,
                            input.newId, input.draws);
    var st1 := st.(ops := ops);
    var call := Some(Call(true, p.env, p.intent, peer.publicKey, input.clock.valid));
    match r
    case Err(_) => Refuse(st1, p.env, OperationError).(call := call)
    case Ok(reply) =>
      var session := RxSession(reply.session, peer.publicKey, p.url, p.env.phase);
      var st2 := if reply.done then st1 else st1.(rx := st.rx[p.env.session := session]);
      StepOut(Remember(S, st2, p.env, reply, input.clock.store), Answered(ReplyEnvelope(S, p.env, reply)), call, None)
  }

  // --- segments ----------------------------------------------------------------------------------

  /** `_handle_as_receiver_locked` once it has swept the round cache. */
  function Handle(S: Setup, st: State, env: Envelope, input: Input): StepOut {
    var key := RoundKey(S, env);
    if key in st.rounds then StepOut(st, Answered(st.rounds[key].reply), None, None)
    else if env.session in st.rx then Continue(S, st, env, input)
    else OpenStart(S, st, env)
  }

  /** From `handle_envelope` to the first suspension or the end. */
  function Deliver(S: Setup, st: State, env: Envelope, input: Input): StepOut {
    if env.operation != S.behaviour.id then StepOut(st, Answered(None), None, None)
    else if env.version != WIRE_VERSION then Refuse(st, env, UnsupportedWireVersion)
    else
      Handle(S, st.(rounds := SweepRounds(st.rounds, input.clock.dedupe)), env, input)
  }

  /** From a resolution of the peer (or its failure) to the next suspension or the end. */
  function Resume(S: Setup, st: State, p: Pending, peer: Option<Peer>, input: Input): StepOut {
    if peer.None? then StepOut(st, Raised, None, None)
    else if Verified(S.services, p.intent, peer.value.publicKey) then OpenFinish(S, st, p, peer.value, input)
    else if !p.forced then StepOut(st, Awaiting(p.(forced := true)), None, None)
    else Refuse(st, p.env, BadSignature)
  }
}
