/** The signed directives of directive.py: what is signed, when an intent is valid. */
module Directives {
  import opened Wrappers
  import opened Bytes
  import opened Json
  import opened Canonical

  /** Keys, signatures and times as arbitrary functions. Signatures and expiry times are strings. */
  datatype Services = Services(
    verify: (bytes, bytes, string) -> bool,
    sign: (bytes, bytes) -> string,
    publicKey: bytes -> bytes,
    parseTime: string -> Option<int>,
    formatTime: int -> string)
  {
    ghost predicate Ideal() {
      && (forall k, m :: sign(k, m) != "" && verify(publicKey(k), m, sign(k, m)))
      && (forall t :: parseTime(formatTime(t)) == Some(t))
    }
  }

  datatype Intent = Intent(
    session: string, id: string, opType: string, participants: seq<string>,
    nonce: string, payloadHash: string, expiry: string, signature: Option<string>)

  datatype ResultDirective = ResultDirective(
    session: string, id: string, encoded: string, hash: string, metadata: seq<(string, string)>,
    correctness: string, privacy: string, verification: string, attestation: string, signature: Option<string>)

  function Strings(ss: seq<string>): Value {
    Arr(seq(|ss|, i requires 0 <= i < |ss| => Str(ss[i])))
  }

  function Dict(ps: seq<(string, string)>): Value {
    Obj(seq(|ps|, i requires 0 <= i < |ps| => Field(ps[i].0, Str(ps[i].1))))
  }

  /** Every field but the signature. */
  function IntentFields(d: Intent): seq<Field> {
    [ Field("ap3_session_id", Str(d.session)),
      Field("intent_directive_id", Str(d.id)),
      Field("operation_type", Str(d.opType)),
      Field("participants", Strings(d.participants)),
      Field("nonce", Str(d.nonce)),
      Field("payload_hash", Str(d.payloadHash)),
      Field("expiry", Str(d.expiry)) ]
  }

  function ResultDataFields(d: ResultDirective): seq<Field> {
    [ Field("encoded_result", Str(d.encoded)), Field("result_hash", Str(d.hash)), Field("metadata", Dict(d.metadata)) ]
  }

  function ProofFields(d: ResultDirective): seq<Field> {
    [ Field("correctness_proof", Str(d.correctness)),
      Field("privacy_proof", Str(d.privacy)),
      Field("verification_proof", Str(d.verification)) ]
  }

  function ResultFields(d: ResultDirective): seq<Field> {
    [ Field("ap3_session_id", Str(d.session)),
      Field("result_directive_id", Str(d.id)),
      Field("result_data", Obj(ResultDataFields(d))),
      Field("proofs", Obj(ProofFields(d))),
      Field("attestation", Str(d.attestation)) ]
  }

  function IntentDomain(): bytes {
    Ascii("AP3v1\0ap3.directives.PrivacyIntentDirective\0")
  }

  function ResultDomain(): bytes {
    Ascii("AP3v1\0ap3.directives.PrivacyResultDirective\0")
  }

  /** The bytes an intent's signature covers. */
  function IntentBytes(d: Intent): bytes {
    IntentDomain() + CanonicalBytes(Obj(IntentFields(d)))
  }

  function ResultBytes(d: ResultDirective): bytes {
    ResultDomain() + CanonicalBytes(Obj(ResultFields(d)))
  }

  // --- signed bytes determine what was signed -----------------------------------------

  /** Two dictionaries built with the same keys in the same order are equal field by field. */
  lemma SamePositions(fs: seq<Field>, gs: seq<Field>)
    requires SameFields(fs, gs) && DistinctKeys(gs) && |fs| == |gs|
    requires forall i :: 0 <= i < |fs| ==> fs[i].key == gs[i].key
    ensures forall i :: 0 <= i < |fs| ==> SameValue(fs[i].value, gs[i].value)
  {
    forall i | 0 <= i < |fs|
      ensures SameValue(fs[i].value, gs[i].value)
    {
      assert InFields(fs[i], gs);
      var j :| 0 <= j < |gs| && SameField(fs[i], gs[j]);
      assert gs[j].key == gs[i].key;
      assert j == i;
    }
  }

  /** Equal signed bytes under one domain prefix mean equal fields. */
  lemma SignedFields(domain: bytes, fs: seq<Field>, gs: seq<Field>)
    requires domain + CanonicalBytes(Obj(fs)) == domain + CanonicalBytes(Obj(gs))
    requires IsDict(Obj(fs)) && IsDict(Obj(gs)) && |fs| == |gs|
    requires forall i :: 0 <= i < |fs| ==> fs[i].key == gs[i].key
    ensures forall i :: 0 <= i < |fs| ==> SameValue(fs[i].value, gs[i].value)
  {
    SameSuffix(domain, CanonicalBytes(Obj(fs)), CanonicalBytes(Obj(gs)));
    CanonicalExact(Obj(fs), Obj(gs));
    SamePositions(fs, gs);
  }

  lemma SameStrings(a: seq<string>, b: seq<string>)
    requires SameValue(Strings(a), Strings(b))
    ensures a == b
  {
    var x, y := Strings(a).items, Strings(b).items;
    forall i | 0 <= i < |a|
      ensures a[i] == b[i]
    {
      assert SameValue(x[i], y[i]);
    }
  }

  lemma IntentIsDict(d: Intent)
    ensures IsDict(Obj(IntentFields(d)))
  {
    IntentKeys(d);
    var ps := Strings(d.participants);
    assert forall i :: 0 <= i < |ps.items| ==> IsDict(ps.items[i]);
    assert IsDict(ps);
  }

  lemma IntentKeys(d: Intent)
    ensures DistinctKeys(IntentFields(d))
  {
  }

  /** Equal signed bytes mean equal signed fields. */
  lemma IntentBytesInjective(d: Intent, e: Intent)
    requires IntentBytes(d) == IntentBytes(e)
    ensures d.(signature := None) == e.(signature := None)
  {
    var fs, gs := IntentFields(d), IntentFields(e);
    IntentIsDict(d);
    IntentIsDict(e);
    SignedFields(IntentDomain(), fs, gs);
    IntentFieldValues(fs, gs, d, e);
  }

  lemma IntentFieldValues(fs: seq<Field>, gs: seq<Field>, d: Intent, e: Intent)
    requires fs == IntentFields(d) && gs == IntentFields(e)
    requires forall i :: 0 <= i < |fs| ==> SameValue(fs[i].value, gs[i].value)
    ensures d.(signature := None) == e.(signature := None)
  {
    assert SameValue(fs[0].value, gs[0].value) && SameValue(fs[1].value, gs[1].value);
    assert SameValue(fs[2].value, gs[2].value) && SameValue(fs[3].value, gs[3].value);
    assert SameValue(fs[4].value, gs[4].value) && SameValue(fs[5].value, gs[5].value);
    assert SameValue(fs[6].value, gs[6].value);
    SameStrings(d.participants, e.participants);
  }

  lemma SameSuffix(p: bytes, a: bytes, b: bytes)
    requires p + a == p + b
    ensures a == b
  {
    assert (p + a)[|p|..] == a && (p + b)[|p|..] == b;
  }

  /** No intent has the signed bytes of a result: signatures do not transfer between kinds. */
  lemma KindsDisjoint(d: Intent, r: ResultDirective)
    ensures IntentBytes(d) != ResultBytes(r)
  {
    assert IntentDomain()[28] == 'I' as int && ResultDomain()[28] == 'R' as int;
    assert IntentBytes(d)[28] == IntentDomain()[28] && ResultBytes(r)[28] == ResultDomain()[28];
  }

  /** Metadata is a dictionary of strings, so its keys are distinct. */
  predicate MetadataOk(d: ResultDirective) {
    DistinctKeys(Dict(d.metadata).fields)
  }

  lemma ResultIsDict(d: ResultDirective)
    requires MetadataOk(d)
    ensures DistinctKeys(ResultFields(d)) && DistinctKeys(ResultDataFields(d)) && DistinctKeys(ProofFields(d))
    ensures IsDict(Obj(ResultFields(d)))
  {
    var m := Dict(d.metadata);
    assert forall i :: 0 <= i < |m.fields| ==> IsDict(m.fields[i].value);
    assert IsDict(m);
    assert IsDict(Obj(ResultDataFields(d)));
    assert IsDict(Obj(ProofFields(d)));
  }

  /** The same for results; the metadata is determined as a dictionary. */
  lemma ResultBytesInjective(d: ResultDirective, e: ResultDirective)
    requires MetadataOk(d) && MetadataOk(e) && ResultBytes(d) == ResultBytes(e)
    ensures d.(signature := None, metadata := []) == e.(signature := None, metadata := [])
    ensures SameValue(Dict(d.metadata), Dict(e.metadata))
  {
    var fs, gs := ResultFields(d), ResultFields(e);
    ResultIsDict(d);
    ResultIsDict(e);
    SignedFields(ResultDomain(), fs, gs);
    assert SameValue(fs[0].value, gs[0].value) && SameValue(fs[1].value, gs[1].value);
    assert SameValue(fs[2].value, gs[2].value) && SameValue(fs[3].value, gs[3].value);
    assert SameValue(fs[4].value, gs[4].value);
    SameResultData(d, e);
    SameProofs(d, e);
  }

  lemma SameResultData(d: ResultDirective, e: ResultDirective)
    requires SameValue(Obj(ResultDataFields(d)), Obj(ResultDataFields(e)))
    ensures d.encoded == e.encoded && d.hash == e.hash && SameValue(Dict(d.metadata), Dict(e.metadata))
  {
    ThreeFields("encoded_result", "result_hash", "metadata",
                Str(d.encoded), Str(d.hash), Dict(d.metadata), Str(e.encoded), Str(e.hash), Dict(e.metadata));
  }

  lemma SameProofs(d: ResultDirective, e: ResultDirective)
    requires SameValue(Obj(ProofFields(d)), Obj(ProofFields(e)))
    ensures d.correctness == e.correctness && d.privacy == e.privacy && d.verification == e.verification
  {
    ThreeFields("correctness_proof", "privacy_proof", "verification_proof",
                Str(d.correctness), Str(d.privacy), Str(d.verification),
                Str(e.correctness), Str(e.privacy), Str(e.verification));
  }

  lemma ThreeFields(k: string, l: string, m: string, a: Value, b: Value, c: Value, x: Value, y: Value, z: Value)
    requires k != l && l != m && k != m
    requires SameValue(Obj([Field(k, a), Field(l, b), Field(m, c)]), Obj([Field(k, x), Field(l, y), Field(m, z)]))
    ensures SameValue(a, x) && SameValue(b, y) && SameValue(c, z)
  {
    var v, w := Obj([Field(k, a), Field(l, b), Field(m, c)]), Obj([Field(k, x), Field(l, y), Field(m, z)]);
    ThreeKeys(k, l, m, x, y, z);
    SamePosition(v, w, 0);
    SamePosition(v, w, 1);
    SamePosition(v, w, 2);
  }

  lemma ThreeKeys(k: string, l: string, m: string, x: Value, y: Value, z: Value)
    requires k != l && l != m && k != m
    ensures DistinctKeys([Field(k, x), Field(l, y), Field(m, z)])
  {
  }

  lemma SamePosition(v: Value, w: Value, i: nat)
    requires v.Obj? && w.Obj? && SameValue(v, w) && DistinctKeys(w.fields)
    requires i < |v.fields| == |w.fields| && v.fields[i].key == w.fields[i].key
    ensures SameValue(v.fields[i].value, w.fields[i].value)
  {
    var fs, gs := v.fields, w.fields;
    assert SameFields(fs, gs);
    assert InFields(fs[i], gs);
    var j :| 0 <= j < |gs| && SameField(fs[i], gs[j]);
    assert gs[j].key == gs[i].key;
  }

  // --- validity ---------------------------------------------------------------------------

  /** Characters `str.strip` removes. */
  predicate IsSpace(c: char) {
    var n := c as int;
    || 9 <= n <= 13 || 28 <= n <= 32 || 0x2000 <= n <= 0x200A
    || n in {0x85, 0xA0, 0x1680, 0x2028, 0x2029, 0x202F, 0x205F, 0x3000}
  }

  /** The 29 white space characters of Unicode that `str.isspace` knows. */
  const WHITE_SPACE := "\t\n\U{0B}\U{0C}\r\U{1C}\U{1D}\U{1E}\U{1F} \U{85}\U{A0}\U{1680}\U{2000}\U{2001}\U{2002}"
    + "\U{2003}\U{2004}\U{2005}\U{2006}\U{2007}\U{2008}\U{2009}\U{200A}\U{2028}\U{2029}\U{202F}\U{205F}\U{3000}"

  lemma SpacesAre(c: char)
    ensures IsSpace(c) <==> c in WHITE_SPACE
  {
  }

  predicate Blank(s: string) {
    forall i :: 0 <= i < |s| ==> IsSpace(s[i])
  }

  /** `is_expired`: strictly after the expiry instant, or no readable expiry at all. */
  predicate Expired(V: Services, d: Intent, now: int) {
    var t := V.parseTime(d.expiry);
    t.None? || now > t.value
  }

  /** `validate_directive` at the instant `now`. */
  predicate Valid(V: Services, d: Intent, now: int) {
    && |d.participants| == 2
    && !Expired(V, d, now)
    && d.opType == "PSI"
    && !Blank(d.nonce)
    && |d.payloadHash| == 64
  }

  /** `verify_signature`. */
  predicate Verified(V: Services, d: Intent, key: bytes) {
    d.signature.Some? && d.signature.value != "" && V.verify(key, IntentBytes(d), d.signature.value)
  }

  /** `sign`, with the result stored as the signature. */
  function Signed(V: Services, d: Intent, privateKey: bytes): Intent {
    d.(signature := Some(V.sign(privateKey, IntentBytes(d))))
  }

  /**
   * Authenticity. If the only messages that verify under `key` are those its owner signed, and the
   * owner signs only directives, then an intent that verifies carries the fields of an intent the
   * owner signed.
   */
  lemma VerifiedMeansSigned(V: Services, d: Intent, key: bytes, intents: set<Intent>, results: set<ResultDirective>)
    requires forall m, s :: V.verify(key, m, s) ==>
               || (exists e :: e in intents && IntentBytes(e) == m)
               || (exists r :: r in results && ResultBytes(r) == m)
    requires Verified(V, d, key)
    ensures exists e :: e in intents && e.(signature := None) == d.(signature := None)
  {
    if r :| r in results && ResultBytes(r) == IntentBytes(d) {
      KindsDisjoint(d, r);
    } else {
      var e :| e in intents && IntentBytes(e) == IntentBytes(d);
      IntentBytesInjective(e, d);
    }
  }
}
