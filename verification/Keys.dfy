/** Cache keys are components joined with a bar: what a key says about its components. */
module Keys {
  import opened Bytes
  import opened Json
  import opened Canonical
  import opened Receiver
  import opened Directives

  predicate BarFree(s: string) {
    '|' !in s
  }

  /** The text before the first bar, and the text after it. */
  function Head(k: string): string {
    if k == "" || k[0] == '|' then "" else [k[0]] + Head(k[1..])
  }

  function Rest(k: string): string {
    if k == "" then "" else if k[0] == '|' then k[1..] else Rest(k[1..])
  }

  lemma {:induction false} SplitAtBar(a: string, b: string)
    requires BarFree(a)
    ensures Head(a + ("|" + b)) == a && Rest(a + ("|" + b)) == b
  {
    var k := a + ("|" + b);
    if a == "" {
      assert k == "|" + b && k[1..] == b;
    } else {
      SplitAtBar(a[1..], b);
      assert k[1..] == a[1..] + ("|" + b);
    }
  }

  predicate AllBarFree(parts: seq<string>) {
    forall i :: 0 <= i < |parts| ==> BarFree(parts[i])
  }

  function Bars(s: string): nat {
    if s == "" then 0 else (if s[0] == '|' then 1 else 0) + Bars(s[1..])
  }

  lemma {:induction false} BarsAppend(a: string, b: string)
    ensures Bars(a + b) == Bars(a) + Bars(b)
  {
    if a == "" {
      assert a + b == b;
    } else {
      assert (a + b)[1..] == a[1..] + b;
      BarsAppend(a[1..], b);
    }
  }

  lemma {:induction false} NoBars(s: string)
    ensures Bars(s) == 0 <==> BarFree(s)
  {
    if s != "" {
      NoBars(s[1..]);
      assert s == [s[0]] + s[1..];
    }
  }

  function AllBars(parts: seq<string>): nat {
    if parts == [] then 0 else Bars(parts[0]) + AllBars(parts[1..])
  }

  lemma {:induction false} JoinBars(parts: seq<string>)
    requires parts != []
    ensures Bars(Join(parts)) == AllBars(parts) + |parts| - 1
  {
    if |parts| > 1 {
      JoinBars(parts[1..]);
      BarsAppend(parts[0], "|" + Join(parts[1..]));
      BarsAppend("|", Join(parts[1..]));
    }
  }

  lemma {:induction false} NoneHasBars(parts: seq<string>)
    ensures AllBars(parts) == 0 <==> AllBarFree(parts)
  {
    if parts != [] {
      NoBars(parts[0]);
      NoneHasBars(parts[1..]);
      assert parts == [parts[0]] + parts[1..];
    }
  }

  /** Joining loses nothing when no component of one side holds a bar: then none of the other does. */
  lemma JoinDetermines(a: seq<string>, b: seq<string>)
    requires |a| == |b| && AllBarFree(a) && Join(a) == Join(b)
    ensures a == b
  {
    if a != [] {
      JoinBars(a);
      JoinBars(b);
      NoneHasBars(a);
      NoneHasBars(b);
    }
    JoinInjective(a, b);
  }

  /** All components but the last hold no bar. */
  predicate Separable(parts: seq<string>) {
    forall i :: 0 <= i < |parts| - 1 ==> BarFree(parts[i])
  }

  lemma {:induction false} JoinInjective(a: seq<string>, b: seq<string>)
    requires |a| == |b| && Separable(a) && Separable(b) && Join(a) == Join(b)
    ensures a == b
  {
    if |a| == 1 {
      assert a == [a[0]] && b == [b[0]];
    } else if |a| > 1 {
      SplitAtBar(a[0], Join(a[1..]));
      SplitAtBar(b[0], Join(b[1..]));
      JoinInjective(a[1..], b[1..]);
      assert a == [a[0]] + a[1..] && b == [b[0]] + b[1..];
    }
  }

  /** With a bar in one of three neighbours, the bounds between them can be drawn elsewhere. */
  lemma Redrawn(a: string, b: string, c: string) returns (a': string, b': string, c': string)
    requires !(BarFree(a) && BarFree(b) && BarFree(c))
    ensures a' + "|" + b' + "|" + c' == a + "|" + b + "|" + c && b' != b
    ensures !(BarFree(b) && BarFree(c)) ==> a' == a
  {
    if !BarFree(b) {
      var x, y := CutAtBar(b);
      a', b', c' := a, x, y + "|" + c;
    } else if !BarFree(c) {
      var x, y := CutAtBar(c);
      a', b', c' := a, b + "|" + x, y;
    } else {
      var x, y := CutAtBar(a);
      a', b', c' := x, y + "|" + b, c;
    }
  }

  lemma CutAtBar(s: string) returns (x: string, y: string)
    requires !BarFree(s)
    ensures s == x + "|" + y
  {
    var i :| 0 <= i < |s| && s[i] == '|';
    x, y := s[..i], s[i + 1..];
  }

  /** The session a key speaks of: its second component. */
  function KeySession(k: string): string {
    Head(Rest(k))
  }

  lemma SecondComponent(a: string, s: string, rest: seq<string>)
    requires BarFree(a) && BarFree(s) && rest != []
    ensures KeySession(Join([a, s] + rest)) == s
  {
    var parts := [a, s] + rest;
    assert parts[1..] == [s] + rest && parts[1..][1..] == rest;
    SplitAtBar(a, Join(parts[1..]));
    SplitAtBar(s, Join(rest));
  }

  lemma HexBarFree(b: bytes)
    ensures BarFree(Hex(b))
  {
  }

  lemma HashBarFree(S: Setup, payload: Value)
    ensures BarFree(HashPayload(S, payload))
  {
    HexBarFree(S.sha256(if payload.Str? then Utf8(payload.s) else CanonicalBytes(payload)));
  }

  /** Both kinds of key name the session of their envelope. */
  lemma RoundKeyNamesSession(S: Setup, env: Envelope)
    requires BarFree(env.operation) && BarFree(env.session)
    ensures KeySession(RoundKey(S, env)) == env.session
  {
    var hash := HashPayload(S, env.payload);
    SecondComponent(env.operation, env.session, [env.phase, hash]);
    assert [env.operation, env.session] + [env.phase, hash] == [env.operation, env.session, env.phase, hash];
  }

  lemma IntentKeyNamesSession(env: Envelope, intent: Intent, signer: bytes)
    requires BarFree(env.session)
    ensures KeySession(IntentKey(signer, env, intent)) == env.session
  {
    HexBarFree(signer);
    SecondComponent(Hex(signer), env.session, [intent.id, intent.nonce, intent.payloadHash]);
    assert [Hex(signer), env.session] + [intent.id, intent.nonce, intent.payloadHash]
        == [Hex(signer), env.session, intent.id, intent.nonce, intent.payloadHash];
  }

  // --- which keys are shared -------------------------------------------------------------------------

  lemma JoinFour(a: string, b: string, c: string, d: string)
    ensures Join([a, b, c, d]) == a + "|" + b + "|" + c + ("|" + d)
  {
    assert [a, b, c, d][1..] == [b, c, d] && [b, c, d][1..] == [c, d] && [c, d][1..] == [d];
    assert Join([c, d]) == c + ("|" + d);
    assert Join([b, c, d]) == b + ("|" + (c + ("|" + d)));
    assert a + ("|" + (b + ("|" + (c + ("|" + d))))) == a + "|" + b + "|" + c + ("|" + d);
  }

  predicate Distinguished(a: Envelope, b: Envelope) {
    a.operation != b.operation || a.session != b.session || a.phase != b.phase
  }

  /** An envelope free of bars shares its key only with envelopes of its operation, session and phase. */
  lemma RoundKeyInjective(S: Setup, a: Envelope, b: Envelope)
    requires BarFree(a.operation) && BarFree(a.session) && BarFree(a.phase) && RoundKey(S, a) == RoundKey(S, b)
    ensures !Distinguished(a, b) && HashPayload(S, a.payload) == HashPayload(S, b.payload)
  {
    var p := [a.operation, a.session, a.phase, HashPayload(S, a.payload)];
    var q := [b.operation, b.session, b.phase, HashPayload(S, b.payload)];
    HashBarFree(S, a.payload);
    JoinDetermines(p, q);
    assert p[0] == q[0] && p[1] == q[1] && p[2] == q[2] && p[3] == q[3];
  }

  /**
   * Some envelope with another operation, session or phase has the same key exactly when one of these
   * three holds a bar.
   */
  lemma SharedKeyExactly(S: Setup, a: Envelope)
    ensures (exists b :: Distinguished(a, b) && RoundKey(S, b) == RoundKey(S, a))
            <==> !(BarFree(a.operation) && BarFree(a.session) && BarFree(a.phase))
  {
    if BarFree(a.operation) && BarFree(a.session) && BarFree(a.phase) {
      forall b | RoundKey(S, b) == RoundKey(S, a) ensures !Distinguished(a, b) {
        RoundKeyInjective(S, a, b);
      }
    } else {
      var o, s, p := Redrawn(a.operation, a.session, a.phase);
      var b := a.(operation := o, session := s, phase := p);
      JoinFour(a.operation, a.session, a.phase, HashPayload(S, a.payload));
      JoinFour(b.operation, b.session, b.phase, HashPayload(S, b.payload));
      assert Distinguished(a, b) && RoundKey(S, b) == RoundKey(S, a);
    }
  }

  /** Some other session's envelope for the same operation has it exactly when the session or the phase does. */
  lemma SharedAcrossSessions(S: Setup, a: Envelope)
    ensures (exists b: Envelope ::
               b.operation == a.operation && b.session != a.session && RoundKey(S, b) == RoundKey(S, a))
            <==> !(BarFree(a.session) && BarFree(a.phase))
  {
    if BarFree(a.session) && BarFree(a.phase) {
      forall b: Envelope | b.operation == a.operation && RoundKey(S, b) == RoundKey(S, a)
        ensures b.session == a.session
      {
        SameOperation(S, a, b);
      }
    } else {
      var o, s, p := Redrawn(a.operation, a.session, a.phase);
      var b := a.(session := s, phase := p);
      JoinFour(a.operation, a.session, a.phase, HashPayload(S, a.payload));
      JoinFour(b.operation, b.session, b.phase, HashPayload(S, b.payload));
      assert b.operation == a.operation && b.session != a.session && RoundKey(S, b) == RoundKey(S, a);
    }
  }

  lemma SameOperation(S: Setup, a: Envelope, b: Envelope)
    requires BarFree(a.session) && BarFree(a.phase) && b.operation == a.operation && RoundKey(S, b) == RoundKey(S, a)
    ensures b.session == a.session && b.phase == a.phase
  {
    var p, q := [a.session, a.phase, HashPayload(S, a.payload)], [b.session, b.phase, HashPayload(S, b.payload)];
    assert RoundKey(S, a)[|a.operation| + 1..] == Join(p) && RoundKey(S, b)[|a.operation| + 1..] == Join(q) by {
      assert [a.operation] + p == [a.operation, a.session, a.phase, HashPayload(S, a.payload)];
      assert [b.operation] + q == [b.operation, b.session, b.phase, HashPayload(S, b.payload)];
      JoinTail(a.operation, p);
      JoinTail(b.operation, q);
    }
    HashBarFree(S, a.payload);
    JoinDetermines(p, q);
    assert p[0] == q[0] && p[1] == q[1];
  }

  lemma JoinTail(first: string, rest: seq<string>)
    requires rest != []
    ensures Join([first] + rest)[|first| + 1..] == Join(rest)
  {
    assert ([first] + rest)[1..] == rest;
    assert first + ("|" + Join(rest)) == (first + "|") + Join(rest);
  }

  /** Likewise for the replay cache; a hash with bars is told apart when the other side's ids hold none. */
  lemma ReplayKeyInjective(k: bytes, s: string, i: string, n: string, h: string, k': bytes, s': string, i': string,
        n': string, h': string)
    requires BarFree(s) && BarFree(i) && BarFree(n)
    requires BarFree(h) || (BarFree(s') && BarFree(i') && BarFree(n'))
    requires ReplayKey(k, s, i, n, h) == ReplayKey(k', s', i', n', h')
    ensures Hex(k) == Hex(k') && s == s' && i == i' && n == n' && h == h'
  {
    HexBarFree(k);
    HexBarFree(k');
    var p, q := [Hex(k), s, i, n, h], [Hex(k'), s', i', n', h'];
    if BarFree(h) {
      JoinDetermines(p, q);
    } else {
      JoinInjective(p, q);
    }
    assert p[0] == q[0] && p[1] == q[1] && p[2] == q[2] && p[3] == q[3] && p[4] == q[4];
  }

  /** Another session, id or nonce gives the same replay key exactly when one of the three holds a bar. */
  lemma SharedReplayKeyExactly(k: bytes, s: string, i: string, n: string, hash: bytes)
    ensures (exists s', i', n' ::
               (s', i', n') != (s, i, n) && ReplayKey(k, s', i', n', Hex(hash)) == ReplayKey(k, s, i, n, Hex(hash)))
            <==> !(BarFree(s) && BarFree(i) && BarFree(n))
  {
    var h := Hex(hash);
    HexBarFree(hash);
    if BarFree(s) && BarFree(i) && BarFree(n) {
      forall s', i', n' | ReplayKey(k, s', i', n', h) == ReplayKey(k, s, i, n, h) ensures (s', i', n') == (s, i, n) {
        ReplayKeyInjective(k, s, i, n, h, k, s', i', n', h);
      }
    } else {
      var s', i', n' := Redrawn(s, i, n);
      ReplayKeyText(k, s, i, n, h);
      ReplayKeyText(k, s', i', n', h);
      assert (s', i', n') != (s, i, n) && ReplayKey(k, s', i', n', h) == ReplayKey(k, s, i, n, h);
    }
  }

  lemma ReplayKeyText(k: bytes, s: string, i: string, n: string, h: string)
    ensures ReplayKey(k, s, i, n, h) == Hex(k) + ("|" + (s + "|" + i + "|" + n + ("|" + h)))
  {
    JoinFour(s, i, n, h);
    assert [Hex(k), s, i, n, h][1..] == [s, i, n, h];
  }
}
