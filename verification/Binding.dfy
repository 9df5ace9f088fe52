/** An intent is bound to the payload it rides on: only a collision of SHA-256 lets another one take its place. */
module Binding {
  import opened Wrappers
  import opened Bytes
  import opened Json
  import opened Canonical
  import opened Crypto
  import opened Directives
  import opened Receiver
  import opened ReceiverRuns
  import opened ReceiverSafety
  import opened Keys

  /** The same string, or the same structured value, or a string that is the canonical text of the value. */
  ghost predicate SamePayload(v: Value, w: Value) {
    if v.Str? && w.Str? then v.s == w.s
    else if v.Str? then Utf8(v.s) == CanonicalBytes(w)
    else if w.Str? then CanonicalBytes(v) == Utf8(w.s)
    else SameValue(v, w)
  }

  lemma SameBytes(v: Value, w: Value)
    requires IsDict(v) && IsDict(w)
    ensures PayloadBytes(v) == PayloadBytes(w) <==> SamePayload(v, w)
  {
    if v.Str? && w.Str? {
      if Utf8(v.s) == Utf8(w.s) {
        Utf8Injective(v.s, w.s);
      }
    } else if !v.Str? && !w.Str? {
      CanonicalExact(v, w);
    }
  }

  /**
   * Two payloads have one hash exactly when they are the same payload, or SHA-256 maps two different byte
   * strings to one value: theirs.
   */
  lemma HashBinds(S: Setup, v: Value, w: Value)
    requires IsDict(v) && IsDict(w)
    ensures HashPayload(S, v) == HashPayload(S, w) <==>
            SamePayload(v, w) || Collision(S.sha256, PayloadBytes(v), PayloadBytes(w))
    ensures v.Str? ==> PayloadBytes(v) == Utf8(v.s)
    ensures !v.Str? ==> PayloadBytes(v) == CanonicalBytes(v)
  {
    SameBytes(v, w);
    if HashPayload(S, v) == HashPayload(S, w) {
      HexInjective(S.sha256(PayloadBytes(v)), S.sha256(PayloadBytes(w)));
    }
  }

  /** An envelope free of bars gets a stored reply only for its own payload, collisions aside. */
  lemma SameRound(S: Setup, a: Envelope, b: Envelope)
    requires BarFree(a.operation) && BarFree(a.session) && BarFree(a.phase) && RoundKey(S, a) == RoundKey(S, b)
    requires IsDict(a.payload) && IsDict(b.payload)
    ensures a.operation == b.operation && a.session == b.session && a.phase == b.phase
    ensures SamePayload(a.payload, b.payload) || Collision(S.sha256, PayloadBytes(a.payload), PayloadBytes(b.payload))
  {
    RoundKeyInjective(S, a, b);
    HashBinds(S, a.payload, b.payload);
  }

  /** What an owner signs: intents, each made for a payload, and results. */
  datatype Issued = Issued(intent: Intent, payload: Value)

  /** Only what the owner issued verifies under `key`, and each intent holds the digest of its payload. */
  ghost predicate Owns(S: Setup, key: bytes, issued: set<Issued>, results: set<ResultDirective>) {
    && (forall i :: i in issued ==> IsDict(i.payload) &&
                                    i.intent.payloadHash == Hex(S.sha256(PayloadBytes(i.payload))))
    && (forall m, s :: S.services.verify(key, m, s) ==>
          || (exists i :: i in issued && IntentBytes(i.intent) == m)
          || (exists r :: r in results && ResultBytes(r) == m))
  }

  /** The call is for this intent of the owner, in its session, with its payload or one that collides with it. */
  ghost predicate IsOf(S: Setup, c: Call, i: Issued) {
    && i.intent.(signature := None) == c.intent.(signature := None) && i.intent.session == c.env.session
    && (SamePayload(i.payload, c.env.payload) ||
        Collision(S.sha256, PayloadBytes(i.payload), PayloadBytes(c.env.payload)))
  }

  /**
   * Every operation call carries a payload that the owner of the key hashed and signed for this session,
   * or one whose bytes collide with those under SHA-256.
   */
  lemma CallIsIssued(S: Setup, w: World, step: Step, issued: set<Issued>, results: set<ResultDirective>)
    requires Enabled(w, step) && Act(S, w, step).call.Some?
    requires Owns(S, Act(S, w, step).call.value.signer, issued, results)
    requires IsDict(Act(S, w, step).call.value.env.payload)
    ensures exists i :: i in issued && IsOf(S, Act(S, w, step).call.value, i)
  {
    var c := Act(S, w, step).call.value;
    CallMeaning(S, w, step);
    IssuedIntent(S, c, issued, results);
    var i :| i in issued && i.intent.(signature := None) == c.intent.(signature := None);
    PayloadsMatch(S, c, i);
  }

  lemma IssuedIntent(S: Setup, c: Call, issued: set<Issued>, results: set<ResultDirective>)
    requires Owns(S, c.signer, issued, results) && Verified(S.services, c.intent, c.signer)
    ensures exists i :: i in issued && i.intent.(signature := None) == c.intent.(signature := None)
  {
    var intents := set i | i in issued :: i.intent;
    forall m, s | S.services.verify(c.signer, m, s)
      ensures (exists e :: e in intents && IntentBytes(e) == m) || (exists r :: r in results && ResultBytes(r) == m)
    {
      if i :| i in issued && IntentBytes(i.intent) == m {
        assert i.intent in intents;
      }
    }
    VerifiedMeansSigned(S.services, c.intent, c.signer, intents, results);
  }

  lemma PayloadsMatch(S: Setup, c: Call, i: Issued)
    requires Authorised(S, c) && i.intent.(signature := None) == c.intent.(signature := None)
    requires IsDict(i.payload) && IsDict(c.env.payload)
    requires i.intent.payloadHash == Hex(S.sha256(PayloadBytes(i.payload)))
    ensures IsOf(S, c, i)
  {
    HexInjective(S.sha256(PayloadBytes(i.payload)), S.sha256(PayloadBytes(c.env.payload)));
    SameBytes(i.payload, c.env.payload);
  }

  /** So an envelope that carries an intent for another payload is refused with that code, or collides. */
  lemma SwappedPayload(S: Setup, env: Envelope, intent: Intent, signed: Value, now: int)
    requires IsDict(signed) && IsDict(env.payload) && intent.payloadHash == Hex(S.sha256(PayloadBytes(signed)))
    requires intent.session == env.session && intent.opType == S.opType && Valid(S.services, intent, now)
    requires !SamePayload(signed, env.payload)
    ensures || IntentProblem(S, env, intent, now) == Some(IntentPayloadMismatch)
            || Collision(S.sha256, PayloadBytes(signed), PayloadBytes(env.payload))
  {
    SameBytes(signed, env.payload);
    if IntentProblem(S, env, intent, now) == None {
      HexInjective(S.sha256(PayloadBytes(signed)), S.sha256(PayloadBytes(env.payload)));
    }
  }
}
