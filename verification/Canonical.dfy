/** Sorting object keys, and what equal canonical bytes mean (canonical.py). */
module Canonical {
  import opened Bytes
  import opened Json

  /** Python's order on strings: by code point, a proper prefix first. */
  predicate Less(a: string, b: string) {
    b != "" && (a == "" || a[0] < b[0] || (a[0] == b[0] && Less(a[1..], b[1..])))
  }

  function InsertField(f: Field, fs: seq<Field>): seq<Field> {
    if fs == [] then [f]
    else if Less(fs[0].key, f.key) then [fs[0]] + InsertField(f, fs[1..])
    else [f] + fs
  }

  function SortFields(fs: seq<Field>): seq<Field> {
    if fs == [] then [] else InsertField(fs[0], SortFields(fs[1..]))
  }

  /** Every object inside `v` with its keys sorted. */
  function Canon(v: Value): Value
    decreases v
  {
    match v
    case Arr(items) => Arr(CanonItems(items))
    case Obj(fields) => Obj(SortFields(CanonFields(fields)))
    case _ => v
  }

  function CanonItems(vs: seq<Value>): (r: seq<Value>)
    ensures |r| == |vs| && forall i :: 0 <= i < |vs| ==> r[i] == Canon(vs[i])
    decreases vs
  {
    if vs == [] then [] else [Canon(vs[0])] + CanonItems(vs[1..])
  }

  function CanonFields(fs: seq<Field>): (r: seq<Field>)
    ensures |r| == |fs| && forall i :: 0 <= i < |fs| ==> r[i].key == fs[i].key && r[i].value == Canon(fs[i].value)
    decreases fs
  {
    if fs == [] then [] else [Field(fs[0].key, Canon(fs[0].value))] + CanonFields(fs[1..])
  }

  /** `canonical_json_bytes`. */
  function CanonicalBytes(v: Value): bytes {
    Utf8(Text(Canon(v)))
  }

  // --- equality of values, as Python compares them -----------------------------------

  predicate DistinctKeys(fs: seq<Field>) {
    forall i, j :: 0 <= i < j < |fs| ==> fs[i].key != fs[j].key
  }

  /** A dictionary never holds a key twice. */
  predicate IsDict(v: Value)
    decreases v
  {
    match v
    case Arr(items) => forall i :: 0 <= i < |items| ==> IsDict(items[i])
    case Obj(fields) => DistinctKeys(fields) && forall i :: 0 <= i < |fields| ==> IsDict(fields[i].value)
    case _ => true
  }

  /** `a == b` in Python: lists item by item, dictionaries by key and in no order. */
  ghost predicate SameValue(a: Value, b: Value)
    decreases a
  {
    match a
    case Arr(xs) => b.Arr? && |xs| == |b.items| && forall i :: 0 <= i < |xs| ==> SameValue(xs[i], b.items[i])
    case Obj(fs) => b.Obj? && SameFields(fs, b.fields)
    case _ => a == b
  }

  ghost predicate SameFields(fs: seq<Field>, gs: seq<Field>)
    decreases fs
  {
    && (forall i :: 0 <= i < |fs| ==> InFields(fs[i], gs))
    && (forall k :: HasKey(gs, k) ==> HasKey(fs, k))
  }

  ghost predicate InFields(f: Field, gs: seq<Field>)
    decreases f, 1
  {
    exists j :: 0 <= j < |gs| && SameField(f, gs[j])
  }

  ghost predicate SameField(f: Field, g: Field)
    decreases f, 0
  {
    f.key == g.key && SameValue(f.value, g.value)
  }

  predicate HasKey(fs: seq<Field>, k: string) {
    exists i :: 0 <= i < |fs| && fs[i].key == k
  }

  // --- sorted fields -------------------------------------------------------------------

  predicate Sorted(fs: seq<Field>) {
    forall i, j :: 0 <= i < j < |fs| ==> Less(fs[i].key, fs[j].key)
  }

  predicate Has(fs: seq<Field>, f: Field) {
    exists i :: 0 <= i < |fs| && fs[i] == f
  }

  lemma {:induction false} LessTotal(a: string, b: string)
    ensures Less(a, b) || a == b || Less(b, a)
    ensures !(Less(a, b) && Less(b, a)) && !Less(a, a)
  {
    if a != "" && b != "" && a[0] == b[0] {
      LessTotal(a[1..], b[1..]);
      assert a == [a[0]] + a[1..] && b == [b[0]] + b[1..];
    }
    if a != "" {
      LessTotal(a[1..], a[1..]);
    }
  }

  lemma {:induction false} LessTransitive(a: string, b: string, c: string)
    requires Less(a, b) && Less(b, c)
    ensures Less(a, c)
  {
    if a != "" && a[0] == b[0] == c[0] {
      LessTransitive(a[1..], b[1..], c[1..]);
    }
  }

  lemma {:induction false} InsertMembers(f: Field, fs: seq<Field>, g: Field)
    ensures Has(InsertField(f, fs), g) <==> g == f || Has(fs, g)
  {
    var r := InsertField(f, fs);
    if fs != [] && Less(fs[0].key, f.key) {
      InsertMembers(f, fs[1..], g);
      HasCons(fs[0], InsertField(f, fs[1..]), g);
      HasCons(fs[0], fs[1..], g);
      assert fs == [fs[0]] + fs[1..];
    } else {
      HasCons(f, fs, g);
      assert [f] + [] == [f];
    }
  }

  lemma HasCons(f: Field, fs: seq<Field>, g: Field)
    ensures Has([f] + fs, g) <==> g == f || Has(fs, g)
  {
    var r := [f] + fs;
    assert r[0] == f;
    if i :| 0 <= i < |fs| && fs[i] == g {
      assert r[i + 1] == g;
    }
    if i :| 0 <= i < |r| && r[i] == g && i > 0 {
      assert fs[i - 1] == g;
    }
  }

  lemma {:induction false} InsertSorted(f: Field, fs: seq<Field>)
    requires Sorted(fs) && forall i :: 0 <= i < |fs| ==> fs[i].key != f.key
    ensures Sorted(InsertField(f, fs))
  {
    if fs == [] {
    } else if Less(fs[0].key, f.key) {
      var r := InsertField(f, fs[1..]);
      InsertSorted(f, fs[1..]);
      forall j | 0 <= j < |r|
        ensures Less(fs[0].key, r[j].key)
      {
        InsertMembers(f, fs[1..], r[j]);
        assert Has(r, r[j]);
        if r[j] != f {
          var i :| 0 <= i < |fs[1..]| && fs[1..][i] == r[j];
          assert Less(fs[0].key, fs[i + 1].key);
        }
      }
    } else {
      LessTotal(fs[0].key, f.key);
      forall j | 0 <= j < |fs|
        ensures Less(f.key, fs[j].key)
      {
        if j > 0 {
          LessTransitive(f.key, fs[0].key, fs[j].key);
        }
      }
    }
  }

  /** Sorting keeps the fields and puts distinct keys in strict order. */
  lemma {:induction false} SortSorts(fs: seq<Field>)
    requires DistinctKeys(fs)
    ensures Sorted(SortFields(fs))
    ensures forall g :: Has(SortFields(fs), g) <==> Has(fs, g)
  {
    if fs != [] {
      var rest := SortFields(fs[1..]);
      SortSorts(fs[1..]);
      forall i | 0 <= i < |rest|
        ensures rest[i].key != fs[0].key
      {
        assert Has(rest, rest[i]);
        var j :| 0 <= j < |fs[1..]| && fs[1..][j] == rest[i];
        assert fs[j + 1] == rest[i];
      }
      InsertSorted(fs[0], rest);
      forall g ensures Has(SortFields(fs), g) <==> Has(fs, g) {
        InsertMembers(fs[0], rest, g);
        HasCons(fs[0], fs[1..], g);
        assert fs == [fs[0]] + fs[1..];
      }
    }
  }

  /** A strictly sorted list is determined by its members. */
  lemma {:induction false} SortedUnique(u: seq<Field>, v: seq<Field>)
    requires Sorted(u) && Sorted(v) && forall g :: Has(u, g) <==> Has(v, g)
    ensures u == v
  {
    if u == [] {
      if v != [] {
        assert Has(v, v[0]);
      }
    } else {
      assert Has(u, u[0]);
      assert v != [];
      assert Has(v, v[0]);
      SameHead(u, v);
      forall g ensures Has(u[1..], g) <==> Has(v[1..], g) {
        TailMembers(u, g);
        TailMembers(v, g);
      }
      SortedUnique(u[1..], v[1..]);
      assert u == [u[0]] + u[1..] && v == [v[0]] + v[1..];
    }
  }

  lemma SameHead(u: seq<Field>, v: seq<Field>)
    requires Sorted(u) && Sorted(v) && u != [] && v != []
    requires Has(u, v[0]) && Has(v, u[0])
    ensures u[0] == v[0]
  {
    var i :| 0 <= i < |u| && u[i] == v[0];
    var j :| 0 <= j < |v| && v[j] == u[0];
    if i > 0 && j > 0 {
      LessTotal(u[0].key, v[0].key);
    }
  }

  lemma TailMembers(u: seq<Field>, g: Field)
    requires Sorted(u) && u != []
    ensures Has(u[1..], g) <==> Has(u, g) && g != u[0]
  {
    HasCons(u[0], u[1..], g);
    assert u == [u[0]] + u[1..];
    if i :| 0 <= i < |u[1..]| && u[1..][i] == u[0] {
      assert Less(u[0].key, u[i + 1].key);
      LessTotal(u[0].key, u[0].key);
    }
  }

  // --- equal canonical forms are equal values -------------------------------------------

  lemma {:induction false} CanonIffSame(a: Value, b: Value)
    requires IsDict(a) && IsDict(b)
    ensures Canon(a) == Canon(b) <==> SameValue(a, b)
    decreases a
  {
    match a
    case Arr(xs) =>
      if b.Arr? {
        var r, s := CanonItems(xs), CanonItems(b.items);
        forall i | 0 <= i < |xs| && i < |b.items|
          ensures r[i] == s[i] <==> SameValue(xs[i], b.items[i])
        {
          CanonIffSame(xs[i], b.items[i]);
        }
        if SameValue(a, b) {
          assert r == s;
        }
      }
    case Obj(fs) =>
      if b.Obj? {
        forall i, j | 0 <= i < |fs| && 0 <= j < |b.fields|
          ensures Canon(fs[i].value) == Canon(b.fields[j].value) <==> SameValue(fs[i].value, b.fields[j].value)
        {
          CanonIffSame(fs[i].value, b.fields[j].value);
        }
        ObjIffSame(fs, b.fields);
      }
    case _ =>
  }

  /** Every field of `u` is in `v`, and every key of `v` is in `u`. */
  ghost predicate Covered(u: seq<Field>, v: seq<Field>) {
    && (forall i :: 0 <= i < |u| ==> Has(v, u[i]))
    && (forall k :: HasKey(v, k) ==> HasKey(u, k))
  }

  lemma CoveredMembers(u: seq<Field>, v: seq<Field>)
    requires DistinctKeys(v)
    ensures Covered(u, v) <==> forall g :: Has(u, g) <==> Has(v, g)
  {
    if Covered(u, v) {
      forall g ensures Has(u, g) <==> Has(v, g) {
        if j :| 0 <= j < |v| && v[j] == g {
          assert HasKey(v, g.key);
          var i :| 0 <= i < |u| && u[i].key == g.key;
          var k :| 0 <= k < |v| && v[k] == u[i];
          assert k == j;
        }
      }
    }
    if forall g :: Has(u, g) <==> Has(v, g) {
      forall i | 0 <= i < |u| ensures Has(v, u[i]) {
        assert Has(u, u[i]);
      }
      forall k | HasKey(v, k) ensures HasKey(u, k) {
        var j :| 0 <= j < |v| && v[j].key == k;
        assert Has(v, v[j]) && Has(u, v[j]);
        var i :| 0 <= i < |u| && u[i] == v[j];
      }
    }
  }

  lemma ObjIffSame(fs: seq<Field>, gs: seq<Field>)
    requires DistinctKeys(fs) && DistinctKeys(gs)
    requires forall i, j :: 0 <= i < |fs| && 0 <= j < |gs| ==>
               (Canon(fs[i].value) == Canon(gs[j].value) <==> SameValue(fs[i].value, gs[j].value))
    ensures SortFields(CanonFields(fs)) == SortFields(CanonFields(gs)) <==> SameFields(fs, gs)
  {
    var u, v := CanonFields(fs), CanonFields(gs);
    Transfer(fs, gs, u, v, (f, g) => SameField(f, g));
    CoveredMembers(u, v);
    SortSorts(u);
    SortSorts(v);
    if forall g :: Has(u, g) <==> Has(v, g) {
      SortedUnique(SortFields(u), SortFields(v));
    }
  }

  /** `InFields` and `SameFields` for an arbitrary notion of equal fields. */
  ghost predicate Matched(f: Field, gs: seq<Field>, same: (Field, Field) -> bool) {
    exists j :: 0 <= j < |gs| && same(f, gs[j])
  }

  ghost predicate Related(fs: seq<Field>, gs: seq<Field>, same: (Field, Field) -> bool) {
    && (forall i :: 0 <= i < |fs| ==> Matched(fs[i], gs, same))
    && (forall k :: HasKey(gs, k) ==> HasKey(fs, k))
  }

  lemma Transfer(fs: seq<Field>, gs: seq<Field>, u: seq<Field>, v: seq<Field>, same: (Field, Field) -> bool)
    requires |u| == |fs| && |v| == |gs|
    requires forall i :: 0 <= i < |fs| ==> u[i].key == fs[i].key
    requires forall j :: 0 <= j < |gs| ==> v[j].key == gs[j].key
    requires forall i, j :: 0 <= i < |fs| && 0 <= j < |gs| ==> (same(fs[i], gs[j]) <==> u[i] == v[j])
    ensures Covered(u, v) <==> Related(fs, gs, same)
  {
    forall i | 0 <= i < |fs|
      ensures Has(v, u[i]) <==> Matched(fs[i], gs, same)
    {
      if j :| 0 <= j < |gs| && same(fs[i], gs[j]) {
        assert v[j] == u[i];
      }
      if j :| 0 <= j < |v| && v[j] == u[i] {
        assert same(fs[i], gs[j]);
      }
    }
    SameKeys(fs, u);
    SameKeys(gs, v);
    assert forall i :: 0 <= i < |fs| ==> (Has(v, u[i]) <==> Matched(fs[i], gs, same));
  }

  lemma SameKeys(fs: seq<Field>, u: seq<Field>)
    requires |u| == |fs| && forall i :: 0 <= i < |fs| ==> u[i].key == fs[i].key
    ensures forall k :: HasKey(u, k) <==> HasKey(fs, k)
  {
    forall k ensures HasKey(u, k) <==> HasKey(fs, k) {
      if i :| 0 <= i < |u| && u[i].key == k {
        assert fs[i].key == k;
      }
      if i :| 0 <= i < |fs| && fs[i].key == k {
        assert u[i].key == k;
      }
    }
  }

  /**
   * Equal canonical bytes mean equal values and nothing else: the encoding is injective, and it
   * does not depend on the order in which dictionaries were built.
   */
  lemma CanonicalExact(a: Value, b: Value)
    requires IsDict(a) && IsDict(b)
    ensures CanonicalBytes(a) == CanonicalBytes(b) <==> SameValue(a, b)
  {
    CanonIffSame(a, b);
    if CanonicalBytes(a) == CanonicalBytes(b) {
      Utf8Injective(Text(Canon(a)), Text(Canon(b)));
      assert Text(Canon(a)) + "" == Text(Canon(a)) && Text(Canon(b)) + "" == Text(Canon(b));
      TextDecode(Canon(a), Canon(b), "", "");
    }
  }
}
