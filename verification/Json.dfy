/**
 * The canonical JSON encoder of canonical.py: compact separators, sorted keys, string escaping.
 * The text is uniquely decodable, so two values with the same bytes are the same value, and values
 * that differ only in the order of object keys have the same bytes.
 */
module Json {
  import opened Bytes

  /** The values that are signed or hashed. An object lists its fields in insertion order. */
  datatype Value =
    | Null
    | Bool(b: bool)
    | Int(n: int)
    | Str(s: string)
    | Arr(items: seq<Value>)
    | Obj(fields: seq<Field>)

  datatype Field = Field(key: string, value: Value)

  /** Python truth of a value. */
  predicate Truthy(v: Value) {
    match v
    case Null => false
    case Bool(b) => b
    case Int(n) => n != 0
    case Str(s) => s != ""
    case Arr(items) => items != []
    case Obj(fields) => fields != []
  }

  /** Exactly the empty values, zero, `false` and `null` are false. */
  lemma TruthyExactly(v: Value)
    ensures !Truthy(v) <==> v == Null || v == Bool(false) || v == Int(0) || v == Str("") || v == Arr([]) || v == Obj([])
  {
  }

  // --- text ------------------------------------------------------------------------

  predicate IsDigit(c: char) {
    '0' <= c <= '9'
  }

  function Digit(d: nat): (c: char)
    requires d < 10
    ensures IsDigit(c)
  {
    '0' + d as char
  }

  function Digits(n: nat): (s: string)
    ensures |s| > 0 && forall c :: c in s ==> IsDigit(c)
  {
    if n < 10 then [Digit(n)] else Digits(n / 10) + [Digit(n % 10)]
  }

  function Number(n: int): (s: string)
    ensures |s| > 0 && (IsDigit(s[0]) || s[0] == '-')
  {
    if n < 0 then "-" + Digits(-n) else Digits(n)
  }

  /** One character inside a string literal, with ASCII escaping switched off. */
  function Escape(c: char): (s: string)
    ensures |s| > 0 && (s[0] == '\\' || s == [c])
    ensures s[0] != '"'
  {
    if c == '"' then "\\\""
    else if c == '\\' then "\\\\"
    else if c == '\n' then "\\n"
    else if c == '\r' then "\\r"
    else if c == '\t' then "\\t"
    else if c == 8 as char then "\\b"
    else if c == 12 as char then "\\f"
    else if c < ' ' then ['\\', 'u', '0', '0', HexDigit(c as int / 16), HexDigit(c as int % 16)]
    else [c]
  }

  /** The escaped characters and the closing quote. */
  function Literal(s: string): (t: string)
    ensures |t| > 0
  {
    if s == "" then "\"" else Escape(s[0]) + Literal(s[1..])
  }

  function Quote(s: string): string {
    "\"" + Literal(s)
  }

  function Text(v: Value): (t: string)
    ensures |t| > 0
    decreases v
  {
    match v
    case Null => "null"
    case Bool(b) => if b then "true" else "false"
    case Int(n) => Number(n)
    case Str(s) => Quote(s)
    case Arr(items) => "[" + (if items == [] then "]" else Text(items[0]) + MoreItems(items[1..]))
    case Obj(fields) =>
      "{" + (if fields == [] then "}" else FieldText(fields[0]) + MoreFields(fields[1..]))
  }

  function FieldText(f: Field): (t: string)
    ensures |t| > 0
    decreases f
  {
    Quote(f.key) + (":" + Text(f.value))
  }

  function MoreItems(vs: seq<Value>): (t: string)
    ensures |t| > 0 && !IsDigit(t[0])
    decreases vs
  {
    if vs == [] then "]" else "," + (Text(vs[0]) + MoreItems(vs[1..]))
  }

  function MoreFields(fs: seq<Field>): (t: string)
    ensures |t| > 0 && !IsDigit(t[0])
    decreases fs
  {
    if fs == [] then "}" else "," + (FieldText(fs[0]) + MoreFields(fs[1..]))
  }

  // --- unique decodability of the text -------------------------------------------------

  lemma SamePrefix(a: string, x: string, b: string, y: string)
    requires a + x == b + y && |a| == |b|
    ensures a == b && x == y
  {
    assert (a + x)[..|a|] == a && (b + y)[..|b|] == b;
    assert (a + x)[|a|..] == x && (b + y)[|b|..] == y;
  }

  lemma Assoc(a: string, b: string, c: string)
    ensures (a + b) + c == a + (b + c)
  {
  }

  /** Strip one opening character and regroup. */
  lemma Shift(c: string, a: string, p: string, x: string, b: string, q: string, y: string)
    requires |c| == 1 && c + (a + p) + x == c + (b + q) + y
    ensures a + (p + x) == b + (q + y)
  {
    assert c + (a + p) + x == c + (a + (p + x));
    assert c + (b + q) + y == c + (b + (q + y));
    SamePrefix(c, a + (p + x), c, b + (q + y));
  }

  /** What follows a number does not continue it. */
  predicate Ends(x: string) {
    x == "" || !IsDigit(x[0])
  }

  lemma {:induction false} DigitsInjective(m: nat, n: nat)
    requires Digits(m) == Digits(n)
    ensures m == n
    decreases m
  {
    var s, t := Digits(m), Digits(n);
    assert s[|s| - 1] == Digit(m % 10) && t[|t| - 1] == Digit(n % 10);
    assert m % 10 == n % 10;
    if m >= 10 && n >= 10 {
      assert s[..|s| - 1] == Digits(m / 10) && t[..|t| - 1] == Digits(n / 10);
      DigitsInjective(m / 10, n / 10);
    }
  }

  lemma DigitsDecode(m: nat, n: nat, x: string, y: string)
    requires Digits(m) + x == Digits(n) + y && Ends(x) && Ends(y)
    ensures m == n && x == y
  {
    Longest(m, n, x, y);
    Longest(n, m, y, x);
    SamePrefix(Digits(m), x, Digits(n), y);
    DigitsInjective(m, n);
  }

  lemma Longest(m: nat, n: nat, x: string, y: string)
    requires Digits(m) + x == Digits(n) + y && Ends(x)
    ensures |Digits(n)| <= |Digits(m)|
  {
    assert (Digits(m) + x)[..|Digits(m)|] == Digits(m);
  }

  lemma NumberDecode(m: int, n: int, x: string, y: string)
    requires Number(m) + x == Number(n) + y && Ends(x) && Ends(y)
    ensures m == n && x == y
  {
    SignShows(m, x);
    SignShows(n, y);
    if m < 0 {
      Assoc("-", Digits(-m), x);
      Assoc("-", Digits(-n), y);
      SamePrefix("-", Digits(-m) + x, "-", Digits(-n) + y);
      DigitsDecode(-m, -n, x, y);
    } else {
      DigitsDecode(m, n, x, y);
    }
  }

  lemma SignShows(m: int, x: string)
    ensures (Number(m) + x)[0] == '-' <==> m < 0
  {
    assert (Number(m) + x)[0] == Number(m)[0];
    if m >= 0 {
      assert Digits(m)[0] in Digits(m);
    }
  }

  /** Two hexadecimal digits determine a control character. */
  lemma SameControl(c: char, d: char)
    requires c < ' ' && d < ' '
    requires HexDigit(c as int / 16) == HexDigit(d as int / 16) && HexDigit(c as int % 16) == HexDigit(d as int % 16)
    ensures c == d
  {
    assert c as int == 16 * (c as int / 16) + c as int % 16;
    assert d as int == 16 * (d as int / 16) + d as int % 16;
  }

  lemma EscapeDecode(c: char, d: char, x: string, y: string)
    requires Escape(c) + x == Escape(d) + y
    ensures c == d && x == y
  {
    var a, b := Escape(c), Escape(d);
    assert (a + x)[0] == a[0] && (b + y)[0] == b[0];
    if a[0] == '\\' {
      assert (a + x)[1] == a[1] && (b + y)[1] == b[1];
      if a[1] == 'u' {
        assert (a + x)[4] == a[4] && (b + y)[4] == b[4] && (a + x)[5] == a[5] && (b + y)[5] == b[5];
        SameControl(c, d);
      }
    }
    SamePrefix(a, x, b, y);
  }

  lemma {:induction false} LiteralDecode(s: string, t: string, x: string, y: string)
    requires Literal(s) + x == Literal(t) + y
    ensures s == t && x == y
  {
    assert (Literal(s) + x)[0] == Literal(s)[0] && (Literal(t) + y)[0] == Literal(t)[0];
    if s == "" || t == "" {
      SamePrefix("\"", x, "\"", y);
    } else {
      Assoc(Escape(s[0]), Literal(s[1..]), x);
      Assoc(Escape(t[0]), Literal(t[1..]), y);
      EscapeDecode(s[0], t[0], Literal(s[1..]) + x, Literal(t[1..]) + y);
      LiteralDecode(s[1..], t[1..], x, y);
      assert s == [s[0]] + s[1..] && t == [t[0]] + t[1..];
    }
  }

  lemma QuoteDecode(s: string, t: string, x: string, y: string)
    requires Quote(s) + x == Quote(t) + y
    ensures s == t && x == y
  {
    Assoc("\"", Literal(s), x);
    Assoc("\"", Literal(t), y);
    SamePrefix("\"", Literal(s) + x, "\"", Literal(t) + y);
    LiteralDecode(s, t, x, y);
  }

  /** The kind of a value shows in the first character of its text. */
  function Kind(c: char): nat {
    if c == 'n' then 0 else if c == 't' then 1 else if c == 'f' then 2 else if c == '"' then 3
    else if c == '[' then 4 else if c == '{' then 5 else 6
  }

  lemma FirstCharacter(v: Value, x: string)
    ensures (Text(v) + x)[0] == Text(v)[0]
    ensures Kind(Text(v)[0]) == match v
                                case Null => 0
                                case Bool(b) => if b then 1 else 2
                                case Int(_) => 6
                                case Str(_) => 3
                                case Arr(_) => 4
                                case Obj(_) => 5
  {
  }

  /** A text followed by anything that does not extend it determines the value and what follows. */
  lemma {:induction false} TextDecode(v: Value, w: Value, x: string, y: string)
    requires Text(v) + x == Text(w) + y && Ends(x) && Ends(y)
    ensures v == w && x == y
    decreases v
  {
    FirstCharacter(v, x);
    FirstCharacter(w, y);
    match v
    case Null => SamePrefix("null", x, "null", y);
    case Bool(b) => SamePrefix(Text(v), x, Text(w), y);
    case Int(n) => NumberDecode(n, w.n, x, y);
    case Str(s) => QuoteDecode(s, w.s, x, y);
    case Arr(items) => ArrDecode(v, w, x, y);
    case Obj(fields) => ObjDecode(v, w, x, y);
  }

  lemma {:induction false} ArrDecode(v: Value, w: Value, x: string, y: string)
    requires v.Arr? && w.Arr? && Text(v) + x == Text(w) + y && Ends(x) && Ends(y)
    ensures v == w && x == y
    decreases v, 0
  {
    var vs, ws := v.items, w.items;
    if vs == [] || ws == [] {
      EmptyList(v, w, x, y);
    } else {
      var p, q := MoreItems(vs[1..]), MoreItems(ws[1..]);
      Shift("[", Text(vs[0]), p, x, Text(ws[0]), q, y);
      TextDecode(vs[0], ws[0], p + x, q + y);
      ItemsDecode(vs[1..], ws[1..], x, y);
      assert vs == [vs[0]] + vs[1..] && ws == [ws[0]] + ws[1..];
    }
  }

  lemma EmptyList(v: Value, w: Value, x: string, y: string)
    requires v.Arr? && w.Arr? && Text(v) + x == Text(w) + y && (v.items == [] || w.items == [])
    ensures v == w && x == y
  {
    assert (Text(v) + x)[1] == Text(v)[1] && (Text(w) + y)[1] == Text(w)[1];
    SecondCharacter(v);
    SecondCharacter(w);
    SamePrefix(Text(v), x, Text(w), y);
  }

  lemma SecondCharacter(v: Value)
    requires v.Arr?
    ensures |Text(v)| > 1 && (Text(v)[1] == ']' <==> v.items == [])
  {
    if v.items != [] {
      assert Text(v)[1] == Text(v.items[0])[0];
      FirstCharacter(v.items[0], "");
    }
  }

  lemma {:induction false} ItemsDecode(vs: seq<Value>, ws: seq<Value>, x: string, y: string)
    requires MoreItems(vs) + x == MoreItems(ws) + y
    ensures vs == ws && x == y
    decreases vs
  {
    assert (MoreItems(vs) + x)[0] == MoreItems(vs)[0] && (MoreItems(ws) + y)[0] == MoreItems(ws)[0];
    if vs == [] {
      SamePrefix("]", x, "]", y);
    } else {
      var p, q := MoreItems(vs[1..]), MoreItems(ws[1..]);
      Shift(",", Text(vs[0]), p, x, Text(ws[0]), q, y);
      TextDecode(vs[0], ws[0], p + x, q + y);
      ItemsDecode(vs[1..], ws[1..], x, y);
      assert vs == [vs[0]] + vs[1..] && ws == [ws[0]] + ws[1..];
    }
  }

  lemma {:induction false} ObjDecode(v: Value, w: Value, x: string, y: string)
    requires v.Obj? && w.Obj? && Text(v) + x == Text(w) + y && Ends(x) && Ends(y)
    ensures v == w && x == y
    decreases v, 0
  {
    var fs, gs := v.fields, w.fields;
    if fs == [] || gs == [] {
      assert (Text(v) + x)[1] == Text(v)[1] && (Text(w) + y)[1] == Text(w)[1];
      SamePrefix(Text(v), x, Text(w), y);
    } else {
      var p, q := MoreFields(fs[1..]), MoreFields(gs[1..]);
      Shift("{", FieldText(fs[0]), p, x, FieldText(gs[0]), q, y);
      FieldDecode(fs[0], gs[0], p + x, q + y);
      FieldsDecode(fs[1..], gs[1..], x, y);
      assert fs == [fs[0]] + fs[1..] && gs == [gs[0]] + gs[1..];
    }
  }

  lemma {:induction false} FieldDecode(f: Field, g: Field, p: string, q: string)
    requires FieldText(f) + p == FieldText(g) + q && Ends(p) && Ends(q)
    ensures f == g && p == q
    decreases f, 0
  {
    Assoc(Quote(f.key), ":" + Text(f.value), p);
    Assoc(Quote(g.key), ":" + Text(g.value), q);
    Assoc(":", Text(f.value), p);
    Assoc(":", Text(g.value), q);
    QuoteDecode(f.key, g.key, ":" + (Text(f.value) + p), ":" + (Text(g.value) + q));
    SamePrefix(":", Text(f.value) + p, ":", Text(g.value) + q);
    TextDecode(f.value, g.value, p, q);
  }

  lemma {:induction false} FieldsDecode(fs: seq<Field>, gs: seq<Field>, x: string, y: string)
    requires MoreFields(fs) + x == MoreFields(gs) + y
    ensures fs == gs && x == y
    decreases fs
  {
    assert (MoreFields(fs) + x)[0] == MoreFields(fs)[0] && (MoreFields(gs) + y)[0] == MoreFields(gs)[0];
    if fs == [] {
      SamePrefix("}", x, "}", y);
    } else {
      var p, q := MoreFields(fs[1..]), MoreFields(gs[1..]);
      Shift(",", FieldText(fs[0]), p, x, FieldText(gs[0]), q, y);
      FieldDecode(fs[0], gs[0], p + x, q + y);
      FieldsDecode(fs[1..], gs[1..], x, y);
      assert fs == [fs[0]] + fs[1..] && gs == [gs[0]] + gs[1..];
    }
  }
}
