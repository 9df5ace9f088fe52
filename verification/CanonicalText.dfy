/** What canonical JSON looks like: separators, key order, escapes and numbers, and the texts that are signed. */
module CanonicalText {
  import opened Bytes
  import opened Json
  import opened Canonical
  import opened Directives

  // --- the order of keys ---------------------------------------------------------------------

  /** `a` comes before `b` by code point: at the first difference, or as a proper beginning of it. */
  ghost predicate Precedes(a: string, b: string) {
    exists i: nat :: PrecedesAt(a, b, i)
  }

  predicate PrecedesAt(a: string, b: string, i: nat) {
    i <= |a| && i < |b| && a[..i] == b[..i] && (i == |a| || (a[i] as int) < (b[i] as int))
  }

  lemma {:induction false} LessIsPrecedes(a: string, b: string)
    ensures Less(a, b) <==> Precedes(a, b)
    decreases |a|
  {
    if i: nat :| PrecedesAt(a, b, i) && i > 0 {
      assert a[0] == a[..i][0] == b[..i][0] == b[0];
      assert a[1..][..i - 1] == a[..i][1..] && b[1..][..i - 1] == b[..i][1..];
      assert PrecedesAt(a[1..], b[1..], i - 1);
    }
    if a != "" && b != "" && a[0] == b[0] {
      LessIsPrecedes(a[1..], b[1..]);
      if i: nat :| PrecedesAt(a[1..], b[1..], i) {
        assert a[..i + 1] == [a[0]] + a[1..][..i] && b[..i + 1] == [b[0]] + b[1..][..i];
        assert PrecedesAt(a, b, i + 1);
      }
    } else if Less(a, b) {
      assert PrecedesAt(a, b, 0);
    }
  }

  /** In every object inside `v` the keys ascend. */
  ghost predicate Ascends(v: Value)
    decreases v
  {
    match v
    case Arr(items) => forall i :: 0 <= i < |items| ==> Ascends(items[i])
    case Obj(fields) =>
      && (forall i, j :: 0 <= i < j < |fields| ==> Precedes(fields[i].key, fields[j].key))
      && (forall i :: 0 <= i < |fields| ==> Ascends(fields[i].value))
    case _ => true
  }

  /** Whatever order a dictionary was built in, its keys are written in ascending order. */
  lemma {:induction false} CanonAscends(v: Value)
    requires IsDict(v)
    ensures Ascends(Canon(v))
    decreases v
  {
    match v
    case Arr(items) =>
      forall i | 0 <= i < |items| ensures Ascends(Canon(items[i])) {
        CanonAscends(items[i]);
      }
    case Obj(fields) =>
      forall i | 0 <= i < |fields| ensures Ascends(Canon(fields[i].value)) {
        CanonAscends(fields[i].value);
      }
      SortedAscends(CanonFields(fields));
    case _ =>
  }

  lemma SortedAscends(fs: seq<Field>)
    requires DistinctKeys(fs) && forall i :: 0 <= i < |fs| ==> Ascends(fs[i].value)
    ensures Ascends(Obj(SortFields(fs)))
  {
    var r := SortFields(fs);
    SortSorts(fs);
    forall i, j | 0 <= i < j < |r| ensures Precedes(r[i].key, r[j].key) {
      LessIsPrecedes(r[i].key, r[j].key);
    }
    forall i | 0 <= i < |r| ensures Ascends(r[i].value) {
      assert Has(r, r[i]);
      var j :| 0 <= j < |fs| && fs[j] == r[i];
    }
  }

  // --- separators --------------------------------------------------------------------------------

  /** The parts with one comma between each two of them. */
  function Commas(parts: seq<string>): string {
    if parts == [] then "" else if |parts| == 1 then parts[0] else parts[0] + "," + Commas(parts[1..])
  }

  lemma CommasFirst(part: string, rest: seq<string>)
    ensures Commas([part] + rest) == part + (if rest == [] then "" else "," + Commas(rest))
  {
    assert ([part] + rest)[1..] == rest;
    assert part + "" == part && part + "," + Commas(rest) == part + ("," + Commas(rest));
  }

  function Texts(vs: seq<Value>): (ts: seq<string>)
    ensures |ts| == |vs|
  {
    seq(|vs|, i requires 0 <= i < |vs| => Text(vs[i]))
  }

  function FieldTexts(fs: seq<Field>): (ts: seq<string>)
    ensures |ts| == |fs|
  {
    seq(|fs|, i requires 0 <= i < |fs| => Quote(fs[i].key) + ":" + Text(fs[i].value))
  }

  lemma Regroup(part: string, rest: string, end: string)
    ensures part + ("," + (rest + end)) == part + ("," + rest) + end
  {
  }

  lemma {:induction false} MoreItemsText(v: Value, vs: seq<Value>)
    ensures Text(v) + MoreItems(vs) == Commas([Text(v)] + Texts(vs)) + "]"
    decreases vs
  {
    CommasFirst(Text(v), Texts(vs));
    if vs != [] {
      MoreItemsText(vs[0], vs[1..]);
      assert Texts(vs) == [Text(vs[0])] + Texts(vs[1..]);
      Regroup(Text(v), Commas(Texts(vs)), "]");
    }
  }

  lemma FieldAsText(f: Field)
    ensures FieldText(f) == Quote(f.key) + ":" + Text(f.value)
  {
  }

  lemma FieldTextsFirst(fs: seq<Field>)
    requires fs != []
    ensures FieldTexts(fs) == [FieldText(fs[0])] + FieldTexts(fs[1..])
  {
    FieldAsText(fs[0]);
  }

  lemma {:induction false} MoreFieldsText(f: Field, fs: seq<Field>)
    ensures FieldText(f) + MoreFields(fs) == Commas([FieldText(f)] + FieldTexts(fs)) + "}"
    decreases fs
  {
    CommasFirst(FieldText(f), FieldTexts(fs));
    if fs != [] {
      MoreFieldsText(fs[0], fs[1..]);
      FieldTextsFirst(fs);
      Regroup(FieldText(f), Commas(FieldTexts(fs)), "}");
    }
  }

  /** Items and fields are separated by single commas, keys and values by single colons, and by nothing else. */
  lemma CompactText(items: seq<Value>, fields: seq<Field>)
    ensures Text(Arr(items)) == "[" + Commas(Texts(items)) + "]"
    ensures Text(Obj(fields)) == "{" + Commas(FieldTexts(fields)) + "}"
  {
    if items != [] {
      MoreItemsText(items[0], items[1..]);
      assert Texts(items) == [Text(items[0])] + Texts(items[1..]);
    }
    if fields != [] {
      MoreFieldsText(fields[0], fields[1..]);
      FieldTextsFirst(fields);
    }
  }

  // --- strings and numbers ---------------------------------------------------------------------------

  /** A character that stands for itself. */
  predicate Plain(c: char) {
    c >= ' ' && c != '"' && c != '\\'
  }

  /** The control characters that have a letter of their own, and the letters. */
  const CONTROLS := "\n\r\t\U{08}\U{0C}"
  const LETTERS := "nrtbf"

  /** The escapes of section 7 of RFC 8259, the short ones where there are any, and no others. */
  lemma EscapesAreMinimal(c: char)
    ensures Escape(c) == [c] <==> Plain(c)
    ensures c == '"' || c == '\\' ==> Escape(c) == ['\\', c]
    ensures forall i :: 0 <= i < 5 && c == CONTROLS[i] ==> Escape(c) == ['\\', LETTERS[i]]
    ensures c < ' ' && c !in CONTROLS ==> Escape(c) == "\\u00" + Hex([c as int])
  {
    assert CONTROLS[0] == '\n' && CONTROLS[1] == '\r' && CONTROLS[2] == '\t';
    assert CONTROLS[3] == 8 as char && CONTROLS[4] == 12 as char;
    if c < ' ' && c !in CONTROLS {
      assert Hex([c as int]) == [HexDigit(c as int / 16), HexDigit(c as int % 16)];
    }
  }

  function Escaped(s: string): string {
    if s == "" then "" else Escape(s[0]) + Escaped(s[1..])
  }

  lemma {:induction false} LiteralText(s: string)
    ensures Literal(s) == Escaped(s) + "\""
  {
    if s != "" {
      LiteralText(s[1..]);
      Assoc(Escape(s[0]), Escaped(s[1..]), "\"");
    }
  }

  lemma {:induction false} PlainText(s: string)
    requires forall c :: c in s ==> Plain(c)
    ensures Escaped(s) == s
  {
    if s != "" {
      PlainText(s[1..]);
      EscapesAreMinimal(s[0]);
      assert s == [s[0]] + s[1..];
    }
  }

  /** A string is its escaped characters between two quotes; a plain one is itself. */
  lemma QuoteText(s: string)
    ensures Quote(s) == "\"" + Escaped(s) + "\""
    ensures (forall c :: c in s ==> Plain(c)) ==> Quote(s) == "\"" + s + "\""
  {
    LiteralText(s);
    Assoc("\"", Escaped(s), "\"");
    if forall c :: c in s ==> Plain(c) {
      PlainText(s);
    }
  }

  /** The number a string of digits shows, the highest first. */
  function Decimal(s: string): int {
    if s == "" then 0 else Decimal(s[..|s| - 1]) * 10 + (s[|s| - 1] as int - '0' as int)
  }

  /** Numbers are decimal, without leading zeros, after a sign if they are negative. */
  lemma {:induction false} DigitsShow(n: nat)
    ensures Decimal(Digits(n)) == n && (n > 0 ==> Digits(n)[0] != '0') && Number(n) == Digits(n)
    ensures n > 0 ==> Number(-(n as int)) == "-" + Digits(n)
  {
    if n >= 10 {
      DigitsShow(n / 10);
      assert Digits(n)[..|Digits(n)| - 1] == Digits(n / 10);
    }
  }

  // --- the texts that are signed ----------------------------------------------------------------------

  /** The canonical text of a dictionary is that of its fields in ascending order. */
  lemma SortedText(fs: seq<Field>, sorted: seq<Field>)
    requires DistinctKeys(fs) && Sorted(sorted) && forall g :: Has(sorted, g) <==> Has(CanonFields(fs), g)
    ensures Text(Canon(Obj(fs))) == "{" + Commas(FieldTexts(sorted)) + "}"
  {
    SortSorts(CanonFields(fs));
    SortedUnique(SortFields(CanonFields(fs)), sorted);
    CompactText([], sorted);
  }

  function Quotes(ss: seq<string>): (ts: seq<string>)
    ensures |ts| == |ss|
  {
    seq(|ss|, i requires 0 <= i < |ss| => Quote(ss[i]))
  }

  lemma StringsText(ss: seq<string>)
    ensures Text(Canon(Strings(ss))) == "[" + Commas(Quotes(ss)) + "]" && Canon(Strings(ss)) == Strings(ss)
  {
    var items := Strings(ss).items;
    assert CanonItems(items) == items;
    CompactText(items, []);
    assert Texts(items) == Quotes(ss);
  }

  lemma {:induction false} SortedIfAscending(fs: seq<Field>)
    requires forall i :: 0 < i < |fs| ==> Less(fs[i - 1].key, fs[i].key)
    ensures Sorted(fs)
    decreases |fs|
  {
    if fs != [] {
      var n := |fs| - 1;
      var front := fs[..n];
      SortedIfAscending(front);
      forall i, j | 0 <= i < j < |fs| ensures Less(fs[i].key, fs[j].key) {
        if j < n {
          assert front[i] == fs[i] && front[j] == fs[j];
        } else if i < n - 1 {
          assert front[i] == fs[i] && front[n - 1] == fs[n - 1];
          LessTransitive(fs[i].key, fs[n - 1].key, fs[n].key);
        }
      }
    }
  }

  lemma DiffersAt(a: string, b: string, i: nat)
    requires PrecedesAt(a, b, i)
    ensures Less(a, b)
  {
    LessIsPrecedes(a, b);
  }

  lemma HasIsIn(fs: seq<Field>)
    ensures forall g :: Has(fs, g) <==> g in fs
  {
    forall g ensures Has(fs, g) <==> g in fs {
      if g in fs {
        var i :| 0 <= i < |fs| && fs[i] == g;
        assert Has(fs, g);
      }
    }
  }

  /** `"key":value` for a plain key. */
  function Entry(key: string, text: string): string {
    "\"" + key + "\":" + text
  }

  function Entries(keys: seq<string>, texts: seq<string>): (es: seq<string>)
    requires |keys| == |texts|
    ensures |es| == |keys|
  {
    seq(|keys|, i requires 0 <= i < |keys| => Entry(keys[i], texts[i]))
  }

  /** An object as it is written: its entries between braces. */
  function Braces(keys: seq<string>, texts: seq<string>): string
    requires |keys| == |texts|
  {
    "{" + Commas(Entries(keys, texts)) + "}"
  }

  predicate Ascending(keys: seq<string>) {
    forall i :: 0 < i < |keys| ==> Less(keys[i - 1], keys[i])
  }

  predicate PlainKeys(keys: seq<string>) {
    forall k :: k in keys ==> forall c :: c in k ==> Plain(c)
  }

  /** The fields, canonical and in ascending order, show as entries with these texts. */
  ghost predicate Lists(fs: seq<Field>, order: seq<Field>, keys: seq<string>, texts: seq<string>) {
    && |order| == |keys| == |texts|
    && (forall i :: 0 <= i < |order| ==> order[i].key == keys[i] && Text(order[i].value) == texts[i])
    && (forall g :: g in order <==> g in CanonFields(fs))
  }

  lemma ObjectText(fs: seq<Field>, order: seq<Field>, keys: seq<string>, texts: seq<string>)
    requires DistinctKeys(fs) && Lists(fs, order, keys, texts) && PlainKeys(keys) && Ascending(keys)
    ensures Text(Canon(Obj(fs))) == Braces(keys, texts)
  {
    SortedIfAscending(order);
    HasIsIn(order);
    HasIsIn(CanonFields(fs));
    SortedText(fs, order);
    forall i | 0 <= i < |order| ensures FieldTexts(order)[i] == Entry(keys[i], texts[i]) {
      assert keys[i] in keys;
      QuoteText(keys[i]);
    }
    assert FieldTexts(order) == Entries(keys, texts);
  }

  // --- the answer --------------------------------------------------------------------------------

  lemma OneEntry(k: string, t: string)
    ensures Braces([k], [t]) == "{\"" + k + "\":" + t + "}"
  {
    assert Entries([k], [t]) == [Entry(k, t)];
    assert "{" + ("\"" + k + "\":" + t) == "{\"" + k + "\":" + t;
  }

  lemma OneLists(f: Field)
    requires Canon(f.value) == f.value
    ensures Lists([f], [f], [f.key], [Text(f.value)])
  {
    CanonIs([f], [f]);
  }

  lemma OneFieldText(k: string, v: Value)
    requires Canon(v) == v && forall c :: c in k ==> Plain(c)
    ensures Text(Canon(Obj([Field(k, v)]))) == "{\"" + k + "\":" + Text(v) + "}"
  {
    var f := Field(k, v);
    OneKey(k);
    OneLists(f);
    ObjectText([f], [f], [k], [Text(v)]);
    OneEntry(k, Text(v));
  }

  lemma OneKey(k: string)
    requires forall c :: c in k ==> Plain(c)
    ensures PlainKeys([k]) && Ascending([k]) && forall v :: DistinctKeys([Field(k, v)])
  {
  }

  /** The answer of a PSI run, as it is encoded. */
  lemma AnswerText(b: bool)
    ensures CanonicalBytes(Obj([Field("is_match", Bool(b))]))
            == Utf8(if b then "{\"is_match\":true}" else "{\"is_match\":false}")
  {
    PlainKey("is_match");
    OneFieldText("is_match", Bool(b));
    AnswerPieces(b);
  }

  lemma PlainKey(k: string)
    requires forall c :: c in k ==> 'a' <= c <= 'z' || c == '_' || c == '3'
    ensures forall c :: c in k ==> Plain(c)
  {
  }

  lemma AnswerPieces(b: bool)
    ensures "{\"" + "is_match" + "\":" + (if b then "true" else "false") + "}"
            == if b then "{\"is_match\":true}" else "{\"is_match\":false}"
  {
  }

  // --- intents ---------------------------------------------------------------------------------

  const INTENT_KEYS := [ "ap3_session_id", "expiry", "intent_directive_id", "nonce", "operation_type", "participants",
                         "payload_hash" ]

  /** What the signature of an intent covers, as text. */
  function IntentText(d: Intent): string {
    Braces(INTENT_KEYS, [ Quote(d.session), Quote(d.expiry), Quote(d.id), Quote(d.nonce), Quote(d.opType),
                          "[" + Commas(Quotes(d.participants)) + "]", Quote(d.payloadHash) ])
  }

  lemma IntentKeysAscend()
    ensures Ascending(INTENT_KEYS)
  {
    DiffersAt("ap3_session_id", "expiry", 0);
    DiffersAt("expiry", "intent_directive_id", 0);
    DiffersAt("intent_directive_id", "nonce", 0);
    DiffersAt("nonce", "operation_type", 0);
    DiffersAt("operation_type", "participants", 0);
    DiffersAt("participants", "payload_hash", 2);
  }

  lemma IntentKeysPlain()
    ensures PlainKeys(INTENT_KEYS)
  {
    forall k | k in INTENT_KEYS ensures forall c :: c in k ==> Plain(c) {
      PlainKey(k);
    }
  }

  lemma IntentIsCanonical(d: Intent)
    ensures CanonFields(IntentFields(d)) == IntentFields(d)
  {
    StringsText(d.participants);
  }

  lemma SevenReordered(fs: seq<Field>, g: Field)
    requires |fs| == 7
    ensures g in [fs[0], fs[6], fs[1], fs[4], fs[2], fs[3], fs[5]] <==> g in fs
  {
    assert fs == [fs[0], fs[1], fs[2], fs[3], fs[4], fs[5], fs[6]];
  }

  lemma IntentLists(d: Intent) returns (order: seq<Field>)
    ensures Lists(IntentFields(d), order, INTENT_KEYS,
                  [ Quote(d.session), Quote(d.expiry), Quote(d.id), Quote(d.nonce), Quote(d.opType),
                    "[" + Commas(Quotes(d.participants)) + "]", Quote(d.payloadHash) ])
  {
    var fs := IntentFields(d);
    IntentIsCanonical(d);
    StringsText(d.participants);
    order := [fs[0], fs[6], fs[1], fs[4], fs[2], fs[3], fs[5]];
    forall g ensures g in order <==> g in fs {
      SevenReordered(fs, g);
    }
  }

  /** The bytes an intent's signature covers are its domain and this text. */
  lemma IntentSignedText(d: Intent)
    ensures IntentBytes(d) == Ascii("AP3v1\0ap3.directives.PrivacyIntentDirective\0") + Utf8(IntentText(d))
  {
    IntentKeys(d);
    IntentKeysAscend();
    IntentKeysPlain();
    var order := IntentLists(d);
    ObjectText(IntentFields(d), order, INTENT_KEYS,
               [ Quote(d.session), Quote(d.expiry), Quote(d.id), Quote(d.nonce), Quote(d.opType),
                 "[" + Commas(Quotes(d.participants)) + "]", Quote(d.payloadHash) ]);
  }

  // --- results ---------------------------------------------------------------------------------

  const DATA_KEYS := ["encoded_result", "metadata", "result_hash"]
  const PROOF_KEYS := ["correctness_proof", "privacy_proof", "verification_proof"]
  const RESULT_KEYS := ["ap3_session_id", "attestation", "proofs", "result_data", "result_directive_id"]

  function DataText(d: ResultDirective): string {
    Braces(DATA_KEYS, [Quote(d.encoded), Text(Canon(Dict(d.metadata))), Quote(d.hash)])
  }

  function ProofsText(d: ResultDirective): string {
    Braces(PROOF_KEYS, [Quote(d.correctness), Quote(d.privacy), Quote(d.verification)])
  }

  /** What the signature of a result covers, as text. */
  function ResultText(d: ResultDirective): string {
    Braces(RESULT_KEYS, [Quote(d.session), Quote(d.attestation), ProofsText(d), DataText(d), Quote(d.id)])
  }

  lemma DataKeys()
    ensures PlainKeys(DATA_KEYS) && Ascending(DATA_KEYS)
  {
    DiffersAt("encoded_result", "metadata", 0);
    DiffersAt("metadata", "result_hash", 0);
  }

  lemma ProofKeys()
    ensures PlainKeys(PROOF_KEYS) && Ascending(PROOF_KEYS)
  {
    DiffersAt("correctness_proof", "privacy_proof", 0);
    DiffersAt("privacy_proof", "verification_proof", 0);
  }

  lemma AscendingFive(a: string, b: string, c: string, d: string, e: string)
    requires Less(a, b) && Less(b, c) && Less(c, d) && Less(d, e)
    ensures Ascending([a, b, c, d, e])
  {
  }

  lemma ResultKeysAscend()
    ensures Ascending(RESULT_KEYS)
  {
    DiffersAt("ap3_session_id", "attestation", 1);
    DiffersAt("attestation", "proofs", 0);
    DiffersAt("proofs", "result_data", 0);
    LongestCommon();
    AscendingFive("ap3_session_id", "attestation", "proofs", "result_data", "result_directive_id");
  }

  lemma LongestCommon()
    ensures Less("result_data", "result_directive_id")
  {
    DiffersAt("result_data", "result_directive_id", 8);
  }

  lemma ResultKeysPlain()
    ensures PlainKeys(RESULT_KEYS)
  {
  }

  lemma DataIsText(d: ResultDirective)
    requires MetadataOk(d)
    ensures Text(Canon(Obj(ResultDataFields(d)))) == DataText(d)
  {
    var fs, m := ResultDataFields(d), Canon(Dict(d.metadata));
    ResultIsDict(d);
    DataKeys();
    var order := [fs[0], Field("metadata", m), fs[1]];
    assert CanonFields(fs) == [fs[0], fs[1], Field("metadata", m)];
    ObjectText(fs, order, DATA_KEYS, [Quote(d.encoded), Text(m), Quote(d.hash)]);
  }

  lemma ProofsAreText(d: ResultDirective)
    ensures Text(Canon(Obj(ProofFields(d)))) == ProofsText(d)
  {
    var fs := ProofFields(d);
    ProofKeys();
    assert CanonFields(fs) == fs;
    ObjectText(fs, fs, PROOF_KEYS, [Quote(d.correctness), Quote(d.privacy), Quote(d.verification)]);
  }

  /** The fields of a result in ascending order, once what lies inside them is canonical. */
  function ResultSorted(d: ResultDirective, data: Value, proofs: Value): seq<Field> {
    [ Field("ap3_session_id", Str(d.session)), Field("attestation", Str(d.attestation)), Field("proofs", proofs),
      Field("result_data", data), Field("result_directive_id", Str(d.id)) ]
  }

  lemma FiveLists(fs: seq<Field>, order: seq<Field>, keys: seq<string>, texts: seq<string>)
    requires |order| == 5 == |keys| == |texts|
    requires CanonFields(fs) == [order[0], order[4], order[3], order[2], order[1]]
    requires order[0].key == keys[0] && order[1].key == keys[1] && order[2].key == keys[2]
    requires order[3].key == keys[3] && order[4].key == keys[4]
    requires Text(order[0].value) == texts[0] && Text(order[1].value) == texts[1] && Text(order[2].value) == texts[2]
    requires Text(order[3].value) == texts[3] && Text(order[4].value) == texts[4]
    ensures Lists(fs, order, keys, texts)
  {
    FiveReordered(order);
  }

  lemma ResultCanon(fs: seq<Field>, d: ResultDirective, a: Value, b: Value)
    requires fs == [ Field("ap3_session_id", Str(d.session)), Field("result_directive_id", Str(d.id)),
                     Field("result_data", a), Field("proofs", b), Field("attestation", Str(d.attestation)) ]
    ensures var order := ResultSorted(d, Canon(a), Canon(b));
            CanonFields(fs) == [order[0], order[4], order[3], order[2], order[1]]
  {
    var order := ResultSorted(d, Canon(a), Canon(b));
    CanonIs(fs, [order[0], order[4], order[3], order[2], order[1]]);
  }

  lemma CanonIs(fs: seq<Field>, gs: seq<Field>)
    requires |fs| == |gs| && forall i :: 0 <= i < |fs| ==> gs[i].key == fs[i].key && gs[i].value == Canon(fs[i].value)
    ensures CanonFields(fs) == gs
  {
  }

  lemma FiveReordered(fs: seq<Field>)
    requires |fs| == 5
    ensures forall g :: g in fs <==> g in [fs[0], fs[4], fs[3], fs[2], fs[1]]
  {
    assert fs == [fs[0], fs[1], fs[2], fs[3], fs[4]];
  }

  /** Likewise the bytes a result's signature covers. */
  lemma ResultSignedText(d: ResultDirective)
    requires MetadataOk(d)
    ensures ResultBytes(d) == Ascii("AP3v1\0ap3.directives.PrivacyResultDirective\0") + Utf8(ResultText(d))
  {
    assert Text(Canon(Obj(ResultFields(d)))) == ResultText(d) by {
      ResultShows(d, Canon(Obj(ResultDataFields(d))), Canon(Obj(ProofFields(d))));
    }
  }

  lemma ResultShows(d: ResultDirective, data: Value, proofs: Value)
    requires MetadataOk(d) && data == Canon(Obj(ResultDataFields(d))) && proofs == Canon(Obj(ProofFields(d)))
    ensures Text(Canon(Obj(ResultFields(d)))) == ResultText(d)
  {
    ResultIsDict(d);
    ResultKeysAscend();
    ResultKeysPlain();
    DataIsText(d);
    ProofsAreText(d);
    ResultCanon(ResultFields(d), d, Obj(ResultDataFields(d)), Obj(ProofFields(d)));
    FiveLists(ResultFields(d), ResultSorted(d, data, proofs), RESULT_KEYS,
              [Quote(d.session), Quote(d.attestation), Text(proofs), Text(data), Quote(d.id)]);
    ObjectText(ResultFields(d), ResultSorted(d, data, proofs), RESULT_KEYS,
               [Quote(d.session), Quote(d.attestation), Text(proofs), Text(data), Quote(d.id)]);
  }
}
