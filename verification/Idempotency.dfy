/** The canonical JSON text behind every fingerprint, and the saga's command keys
    (shared/src/idempotency.ts). Texts are sequences of UTF-16 code units, as in the language. */
module Idempotency {
  import opened Contracts
  import opened Identifiers

  /** Validated values. Numbers are integers; a field may be present with the value undefined. */
  datatype Json =
    | Null | Bool(value: bool) | Number(n: int) | String(text: Text)
    | Array(elements: seq<Json>) | Object(fields: seq<Field>) | Undefined

  datatype Field = Field(key: Text, value: Json)

  /** Undefined occurs as a field's value only, and a key occurs once. */
  predicate Valid(v: Json) {
    match v
    case Array(elements) => forall i :: 0 <= i < |elements| ==> Valid(elements[i])
    case Object(fields) =>
      && (forall i :: 0 <= i < |fields| ==> fields[i].value.Undefined? || Valid(fields[i].value))
      && (forall i, j :: 0 <= i < j < |fields| ==> fields[i].key != fields[j].key)
    case Undefined => false
    case _ => true
  }

  /** Equal up to the order of keys and dropped undefined fields. */
  ghost predicate Same(a: Json, b: Json)
    decreases a, 2
  {
    match a
    case Array(es) => b.Array? && |b.elements| == |es| && forall i :: 0 <= i < |es| ==> Same(es[i], b.elements[i])
    case Object(fs) =>
      && b.Object?
      && (forall i :: 0 <= i < |fs| && !fs[i].value.Undefined? ==> exists j :: 0 <= j < |b.fields| && Alike(a, b, i, j))
      && (forall j :: 0 <= j < |b.fields| && !b.fields[j].value.Undefined? ==>
          exists i :: 0 <= i < |fs| && Alike(a, b, i, j))
    case _ => a == b
  }

  ghost predicate Alike(a: Json, b: Json, i: nat, j: nat)
    requires a.Object? && b.Object? && i < |a.fields| && j < |b.fields|
    decreases a, 1
  {
    && !a.fields[i].value.Undefined? && !b.fields[j].value.Undefined?
    && a.fields[i].key == b.fields[j].key
    && Same(a.fields[i].value, b.fields[j].value)
  }

  // ---------- Strings (section 7 of RFC 8259, with well-formed JSON.stringify) ----------

  const QUOTE: Unit := 0x22
  const BACKSLASH: Unit := 0x5C
  const COMMA: Unit := 0x2C
  const COLON: Unit := 0x3A
  const OPEN_BRACKET: Unit := 0x5B
  const CLOSE_BRACKET: Unit := 0x5D
  const OPEN_BRACE: Unit := 0x7B
  const CLOSE_BRACE: Unit := 0x7D
  const MINUS: Unit := 0x2D

  predicate IsHigh(u: Unit) { 0xD800 <= u <= 0xDBFF }

  predicate IsLow(u: Unit) { 0xDC00 <= u <= 0xDFFF }

  function HexDigit(d: nat): Unit
    requires d < 16
  {
    if d < 10 then 0x30 + d else 0x61 + d - 10
  }

  function Hex4(u: Unit): Text {
    [HexDigit(u / 4096), HexDigit(u / 256 % 16), HexDigit(u / 16 % 16), HexDigit(u % 16)]
  }

  /** The letter of a two-character escape. */
  function Short(u: Unit): Option<Unit> {
    if u == 0x08 then Some(0x62)
    else if u == 0x09 then Some(0x74)
    else if u == 0x0A then Some(0x6E)
    else if u == 0x0C then Some(0x66)
    else if u == 0x0D then Some(0x72)
    else if u == QUOTE then Some(QUOTE)
    else if u == BACKSLASH then Some(BACKSLASH)
    else None
  }

  function EscapeUnit(u: Unit): Text {
    if Short(u).Some? then [BACKSLASH, Short(u).value]
    else if u < 0x20 || IsHigh(u) || IsLow(u) then [BACKSLASH, 0x75] + Hex4(u)
    else [u]
  }

  predicate StartsPair(s: Text) { |s| >= 2 && IsHigh(s[0]) && IsLow(s[1]) }

  /** A surrogate pair is written as it is, a lone surrogate as an escape. */
  function Escape(s: Text): Text {
    if s == [] then []
    else if StartsPair(s) then s[..2] + Escape(s[2..])
    else EscapeUnit(s[0]) + Escape(s[1..])
  }

  function Quote(s: Text): Text {
    [QUOTE] + Escape(s) + [QUOTE]
  }

  lemma HexDigitTells(d: nat, e: nat)
    requires d < 16 && e < 16 && HexDigit(d) == HexDigit(e)
    ensures d == e
  {
  }

  lemma Nibbles(u: Unit)
    ensures u == 16 * (u / 16) + u % 16
    ensures u / 16 == 16 * (u / 256) + u / 16 % 16
    ensures u / 256 == 16 * (u / 4096) + u / 256 % 16
  {
    assert u / 16 / 16 == u / 256;
    assert u / 256 / 16 == u / 4096;
  }

  lemma HexTells(u: Unit, v: Unit)
    requires Hex4(u) == Hex4(v)
    ensures u == v
  {
    var a, b := Hex4(u), Hex4(v);
    assert a[0] == b[0] && a[1] == b[1] && a[2] == b[2] && a[3] == b[3];
    HexDigitTells(u / 4096, v / 4096);
    HexDigitTells(u / 256 % 16, v / 256 % 16);
    HexDigitTells(u / 16 % 16, v / 16 % 16);
    HexDigitTells(u % 16, v % 16);
    Nibbles(u);
    Nibbles(v);
  }

  /** The code that starts a text tells the unit it escapes, and where the code ends. */
  lemma EscapesTell(u: Unit, v: Unit, x: Text, y: Text)
    requires EscapeUnit(u) + x == EscapeUnit(v) + y
    ensures u == v && x == y
  {
    var a, b := EscapeUnit(u), EscapeUnit(v);
    var t := a + x;
    assert t[0] == a[0] && t[0] == b[0];
    if a[0] == BACKSLASH {
      assert t[1] == a[1] && t[1] == b[1];
      if a[1] == 0x75 {
        assert t[2..6] == Hex4(u) && t[2..6] == Hex4(v);
        HexTells(u, v);
      }
    }
    assert a == b;
    assert x == t[|a|..] && y == t[|b|..];
  }

  lemma CodesStart(u: Unit)
    ensures EscapeUnit(u) != [] && EscapeUnit(u)[0] != QUOTE && !IsHigh(EscapeUnit(u)[0])
  {
  }

  lemma Regroup(a: Text, b: Text, c: Text)
    ensures a + b + c == a + (b + c)
    ensures a != [] ==> (a + (b + c))[0] == a[0]
  {
  }

  /** What follows the first unit or pair of a string that is not empty. */
  lemma EscapeStarts(s: Text, x: Text)
    requires s != []
    ensures StartsPair(s) ==> Escape(s) + x == s[..2] + (Escape(s[2..]) + x)
    ensures !StartsPair(s) ==> Escape(s) + x == EscapeUnit(s[0]) + (Escape(s[1..]) + x)
    ensures Escape(s) + x != [] && (Escape(s) + x)[0] != QUOTE && (IsHigh((Escape(s) + x)[0]) <==> StartsPair(s))
  {
    hide EscapeUnit;
    CodesStart(s[0]);
    if StartsPair(s) {
      Regroup(s[..2], Escape(s[2..]), x);
    } else {
      Regroup(EscapeUnit(s[0]), Escape(s[1..]), x);
    }
  }

  /** A quoted string ends where it says, and tells its content. */
  lemma {:induction false} QuotesTell(s: Text, t: Text, x: Text, y: Text)
    requires Escape(s) + ([QUOTE] + x) == Escape(t) + ([QUOTE] + y)
    ensures s == t && x == y
    decreases |s| + |t|
  {
    var all := Escape(s) + ([QUOTE] + x);
    if s == [] || t == [] {
      if s != [] { EscapeStarts(s, [QUOTE] + x); }
      if t != [] { EscapeStarts(t, [QUOTE] + y); }
      assert all[0] == QUOTE;
      assert x == all[1..] && y == all[1..];
    } else {
      EscapeStarts(s, [QUOTE] + x);
      EscapeStarts(t, [QUOTE] + y);
      if StartsPair(s) {
        PairsTell(s, t, Escape(s[2..]) + ([QUOTE] + x), Escape(t[2..]) + ([QUOTE] + y));
        QuotesTell(s[2..], t[2..], x, y);
        assert s == s[..2] + s[2..] && t == t[..2] + t[2..];
      } else {
        EscapesTell(s[0], t[0], Escape(s[1..]) + ([QUOTE] + x), Escape(t[1..]) + ([QUOTE] + y));
        QuotesTell(s[1..], t[1..], x, y);
        assert s == [s[0]] + s[1..] && t == [t[0]] + t[1..];
      }
    }
  }

  lemma PairsTell(s: Text, t: Text, x: Text, y: Text)
    requires |s| >= 2 && |t| >= 2 && s[..2] + x == t[..2] + y
    ensures s[..2] == t[..2] && x == y
  {
    var all := s[..2] + x;
    assert s[..2] == all[..2] && t[..2] == all[..2];
    assert x == all[2..] && y == all[2..];
  }

  // ---------- Numbers ----------

  predicate IsDigit(u: Unit) { 0x30 <= u <= 0x39 }

  function Decimal(n: nat): (r: Text)
    ensures r != [] && forall i :: 0 <= i < |r| ==> IsDigit(r[i])
  {
    if n < 10 then [0x30 + n] else Decimal(n / 10) + [0x30 + n % 10]
  }

  function Integer(n: int): Text {
    if n < 0 then [MINUS] + Decimal(-n) else Decimal(n)
  }

  function Read(digits: Text): nat
    requires forall i :: 0 <= i < |digits| ==> IsDigit(digits[i])
  {
    if digits == [] then 0
    else
      var last := digits[|digits| - 1];
      assert IsDigit(last);
      10 * Read(digits[..|digits| - 1]) + (last - 0x30)
  }

  lemma {:induction false} ReadsBack(n: nat)
    ensures Read(Decimal(n)) == n
  {
    if n >= 10 {
      ReadsBack(n / 10);
      assert Decimal(n)[..|Decimal(n)| - 1] == Decimal(n / 10);
    } else {
      assert Decimal(n)[..0] == [];
    }
  }

  /** What may follow a value: the end of the text, or a delimiter. */
  predicate Ends(x: Text) { x == [] || x[0] in {COMMA, CLOSE_BRACKET, CLOSE_BRACE} }

  lemma DelimiterFollows(a: Text, x: Text)
    requires Ends(x)
    ensures |a| < |a + x| ==> !IsDigit((a + x)[|a|])
  {
  }

  lemma DigitsLead(b: Text, y: Text)
    requires forall i :: 0 <= i < |b| ==> IsDigit(b[i])
    ensures forall i :: 0 <= i < |b| ==> i < |b + y| && IsDigit((b + y)[i])
  {
  }

  lemma NoLonger(a: Text, b: Text, x: Text, y: Text)
    requires forall i :: 0 <= i < |b| ==> IsDigit(b[i])
    requires Ends(x) && a + x == b + y
    ensures |b| <= |a|
  {
    DelimiterFollows(a, x);
    DigitsLead(b, y);
  }

  lemma DigitsTell(a: Text, b: Text, x: Text, y: Text)
    requires forall i :: 0 <= i < |a| ==> IsDigit(a[i])
    requires forall i :: 0 <= i < |b| ==> IsDigit(b[i])
    requires Ends(x) && Ends(y) && a + x == b + y
    ensures a == b && x == y
  {
    NoLonger(a, b, x, y);
    NoLonger(b, a, y, x);
    SplitAlike(a, b, x, y);
  }

  lemma SplitAlike(a: Text, b: Text, x: Text, y: Text)
    requires |a| == |b| && a + x == b + y
    ensures a == b && x == y
  {
    assert a == (a + x)[..|a|] && b == (b + y)[..|b|];
    assert x == (a + x)[|a|..] && y == (b + y)[|b|..];
  }

  lemma NaturalsTell(m: nat, n: nat, x: Text, y: Text)
    requires Ends(x) && Ends(y) && Decimal(m) + x == Decimal(n) + y
    ensures m == n && x == y
  {
    DigitsTell(Decimal(m), Decimal(n), x, y);
    ReadsBack(m);
    ReadsBack(n);
  }

  lemma SignTells(n: int, x: Text)
    ensures (Integer(n) + x)[0] == MINUS <==> n < 0
    ensures n < 0 ==> (Integer(n) + x)[1..] == Decimal(-n) + x
  {
    if n < 0 {
      assert Integer(n) + x == [MINUS] + (Decimal(-n) + x);
    } else {
      assert IsDigit(Decimal(n)[0]);
    }
  }

  lemma NumbersTell(m: int, n: int, x: Text, y: Text)
    requires Ends(x) && Ends(y) && Integer(m) + x == Integer(n) + y
    ensures m == n && x == y
  {
    hide Decimal, Ends;
    SignTells(m, x);
    SignTells(n, y);
    if m < 0 {
      NaturalsTell(-m, -n, x, y);
    } else {
      NaturalsTell(m, n, x, y);
    }
  }

  // ---------- Values in normal form ----------

  /** Lexicographic order of code units, as the sort of `canonical` compares keys. */
  predicate Before(a: Text, b: Text) {
    if b == [] then false
    else if a == [] then true
    else a[0] < b[0] || (a[0] == b[0] && Before(a[1..], b[1..]))
  }

  /** No undefined fields, and keys in strictly increasing order. */
  predicate Normal(v: Json) {
    match v
    case Array(elements) => forall i :: 0 <= i < |elements| ==> Normal(elements[i])
    case Object(fields) =>
      && (forall i :: 0 <= i < |fields| ==> Normal(fields[i].value))
      && (forall i, j :: 0 <= i < j < |fields| ==> Before(fields[i].key, fields[j].key))
    case Undefined => false
    case _ => true
  }

  const NULL: Text := [0x6E, 0x75, 0x6C, 0x6C]
  const TRUE: Text := [0x74, 0x72, 0x75, 0x65]
  const FALSE: Text := [0x66, 0x61, 0x6C, 0x73, 0x65]

  function Encode(v: Json): Text {
    match v
    case Null => NULL
    case Bool(b) => if b then TRUE else FALSE
    case Number(n) => Integer(n)
    case String(text) => Quote(text)
    case Array(elements) => [OPEN_BRACKET] + (Elements(elements, true) + [CLOSE_BRACKET])
    case Object(fields) => [OPEN_BRACE] + (Fields(fields, true) + [CLOSE_BRACE])
    case Undefined => []
  }

  /** Elements joined by commas; what is not the first is preceded by one. */
  function Elements(elements: seq<Json>, first: bool): Text {
    if elements == [] then []
    else (if first then [] else [COMMA]) + (Encode(elements[0]) + Elements(elements[1..], false))
  }

  function Fields(fields: seq<Field>, first: bool): Text {
    if fields == [] then []
    else (if first then [] else [COMMA]) + (Quote(fields[0].key)
                                            + ([COLON] + (Encode(fields[0].value) + Fields(fields[1..], false))))
  }

  /** The first unit of a value's text tells what kind of value it is. */
  predicate Announces(u: Unit, v: Json) {
    match v
    case Null => u == 0x6E
    case Bool(b) => u == if b then 0x74 else 0x66
    case Number(_) => u == MINUS || IsDigit(u)
    case String(_) => u == QUOTE
    case Array(_) => u == OPEN_BRACKET
    case Object(_) => u == OPEN_BRACE
    case Undefined => false
  }

  lemma EncodeStarts(v: Json, x: Text)
    requires Normal(v)
    ensures Encode(v) + x != [] && Announces((Encode(v) + x)[0], v)
  {
    if v.Number? { SignTells(v.n, x); assert IsDigit(Decimal(if v.n < 0 then -v.n else v.n)[0]); }
  }

  /** A value is told by its text, whatever delimiter follows. */
  lemma {:induction false} EncodeTells(a: Json, b: Json, x: Text, y: Text)
    requires Normal(a) && Normal(b) && Ends(x) && Ends(y) && Encode(a) + x == Encode(b) + y
    ensures a == b && x == y
    decreases a, 1
  {
    EncodeStarts(a, x);
    EncodeStarts(b, y);
    match a {
      case Null => SplitAlike(NULL, NULL, x, y);
      case Bool(v) => SplitAlike(Encode(a), Encode(b), x, y);
      case Number(n) => NumbersTell(n, b.n, x, y);
      case String(s) => StringsTell(s, b.text, x, y);
      case Array(es) =>
        Unwrap(OPEN_BRACKET, Elements(es, true), CLOSE_BRACKET, x, Elements(b.elements, true), y);
        ElementsTell(es, b.elements, true, x, y);
      case Object(fs) =>
        Unwrap(OPEN_BRACE, Fields(fs, true), CLOSE_BRACE, x, Fields(b.fields, true), y);
        FieldsTell(fs, b.fields, true, x, y);
    }
  }

  lemma StringsTell(s: Text, t: Text, x: Text, y: Text)
    requires Quote(s) + x == Quote(t) + y
    ensures s == t && x == y
  {
    Unwrap(QUOTE, Escape(s), QUOTE, x, Escape(t), y);
    QuotesTell(s, t, x, y);
  }

  lemma Unwrap(open: Unit, a: Text, close: Unit, x: Text, b: Text, y: Text)
    requires [open] + (a + [close]) + x == [open] + (b + [close]) + y
      || [open] + a + [close] + x == [open] + b + [close] + y
    ensures a + ([close] + x) == b + ([close] + y)
  {
    assert [open] + (a + [close]) + x == [open] + a + [close] + x;
    assert [open] + (b + [close]) + y == [open] + b + [close] + y;
    assert a + ([close] + x) == ([open] + a + [close] + x)[1..];
    assert b + ([close] + y) == ([open] + b + [close] + y)[1..];
  }

  /** How a list of elements begins: with a comma, with a value, or with the end. */
  lemma ElementsStart(es: seq<Json>, first: bool, x: Text)
    requires forall i :: 0 <= i < |es| ==> Normal(es[i])
    ensures var t := Elements(es, first) + ([CLOSE_BRACKET] + x);
      && t != []
      && (t[0] == CLOSE_BRACKET <==> es == [])
      && (es != [] && !first ==> t[0] == COMMA)
      && (es != [] ==>
            var rest := Elements(es[1..], false) + ([CLOSE_BRACKET] + x);
            Ends(rest) && t == (if first then [] else [COMMA]) + (Encode(es[0]) + rest))
  {
    if es != [] {
      var tail := Elements(es[1..], false);
      var head := if first then [] else [COMMA];
      EncodeStarts(es[0], tail + ([CLOSE_BRACKET] + x));
      assert head + (Encode(es[0]) + tail) + ([CLOSE_BRACKET] + x) == head
        + (Encode(es[0]) + (tail + ([CLOSE_BRACKET] + x)));
    }
  }

  lemma {:induction false} ElementsTell(es: seq<Json>, fs: seq<Json>, first: bool, x: Text, y: Text)
    requires forall i :: 0 <= i < |es| ==> Normal(es[i])
    requires forall i :: 0 <= i < |fs| ==> Normal(fs[i])
    requires Elements(es, first) + ([CLOSE_BRACKET] + x) == Elements(fs, first) + ([CLOSE_BRACKET] + y)
    ensures es == fs && x == y
    decreases es, 0
  {
    ElementsStart(es, first, x);
    ElementsStart(fs, first, y);
    if es == [] {
      Regroup([], [CLOSE_BRACKET], x);
      Regroup([], [CLOSE_BRACKET], y);
      SplitAlike([] + [CLOSE_BRACKET], [] + [CLOSE_BRACKET], x, y);
    } else {
      var head: Text := if first then [] else [COMMA];
      var xs := Elements(es[1..], false) + ([CLOSE_BRACKET] + x);
      var ys := Elements(fs[1..], false) + ([CLOSE_BRACKET] + y);
      SplitAlike(head, head, Encode(es[0]) + xs, Encode(fs[0]) + ys);
      EncodeTells(es[0], fs[0], xs, ys);
      ElementsTell(es[1..], fs[1..], false, x, y);
      assert es == [es[0]] + es[1..] && fs == [fs[0]] + fs[1..];
    }
  }

  lemma FieldsStart(fs: seq<Field>, first: bool, x: Text)
    requires forall i :: 0 <= i < |fs| ==> Normal(fs[i].value)
    ensures var t := Fields(fs, first) + ([CLOSE_BRACE] + x);
      && t != []
      && (t[0] == CLOSE_BRACE <==> fs == [])
      && (fs != [] && !first ==> t[0] == COMMA)
      && (fs != [] ==>
            var rest := Fields(fs[1..], false) + ([CLOSE_BRACE] + x);
            Ends(rest) && t == (if first then [] else [COMMA])
              + (Quote(fs[0].key) + ([COLON] + (Encode(fs[0].value) + rest))))
  {
    if fs != [] {
      var tail := Fields(fs[1..], false);
      var head := if first then [] else [COMMA];
      var key, value, end := Quote(fs[0].key), Encode(fs[0].value), [CLOSE_BRACE] + x;
      assert head + (key + ([COLON] + (value + tail))) + end == head + (key + ([COLON] + (value + (tail + end))));
    }
  }

  lemma {:induction false} FieldsTell(fs: seq<Field>, gs: seq<Field>, first: bool, x: Text, y: Text)
    requires forall i :: 0 <= i < |fs| ==> Normal(fs[i].value)
    requires forall i :: 0 <= i < |gs| ==> Normal(gs[i].value)
    requires Fields(fs, first) + ([CLOSE_BRACE] + x) == Fields(gs, first) + ([CLOSE_BRACE] + y)
    ensures fs == gs && x == y
    decreases fs, 0
  {
    hide Encode, Quote, Normal, Ends;
    FieldsStart(fs, first, x);
    FieldsStart(gs, first, y);
    if fs == [] {
      Regroup([], [CLOSE_BRACE], x);
      Regroup([], [CLOSE_BRACE], y);
      SplitAlike([] + [CLOSE_BRACE], [] + [CLOSE_BRACE], x, y);
    } else {
      var head: Text := if first then [] else [COMMA];
      var xs := Fields(fs[1..], false) + ([CLOSE_BRACE] + x);
      var ys := Fields(gs[1..], false) + ([CLOSE_BRACE] + y);
      var v, w := [COLON] + (Encode(fs[0].value) + xs), [COLON] + (Encode(gs[0].value) + ys);
      SplitAlike(head, head, Quote(fs[0].key) + v, Quote(gs[0].key) + w);
      StringsTell(fs[0].key, gs[0].key, v, w);
      SplitAlike([COLON], [COLON], Encode(fs[0].value) + xs, Encode(gs[0].value) + ys);
      EncodeTells(fs[0].value, gs[0].value, xs, ys);
      FieldsTell(fs[1..], gs[1..], false, x, y);
      assert fs == [fs[0]] + fs[1..] && gs == [gs[0]] + gs[1..];
    }
  }

  // ---------- Dropping and sorting ----------

  function Insert(f: Field, sorted: seq<Field>): seq<Field> {
    if sorted == [] || Before(f.key, sorted[0].key) then [f] + sorted else [sorted[0]] + Insert(f, sorted[1..])
  }

  function Sort(fields: seq<Field>): seq<Field> {
    if fields == [] then [] else Insert(fields[0], Sort(fields[1..]))
  }

  /** The values of live fields, normalised in their turn. */
  function NormalFields(fields: seq<Field>): (r: seq<Field>)
    decreases fields
  {
    if fields == [] then []
    else if fields[0].value.Undefined? then NormalFields(fields[1..])
    else [Field(fields[0].key, Normalize(fields[0].value))] + NormalFields(fields[1..])
  }

  function NormalElements(elements: seq<Json>): (r: seq<Json>)
    ensures |r| == |elements|
    decreases elements
  {
    if elements == [] then [] else [Normalize(elements[0])] + NormalElements(elements[1..])
  }

  /** What `canonical` prints: undefined fields dropped and the rest sorted by key, at every level. */
  function Normalize(v: Json): Json
    decreases v
  {
    match v
    case Array(elements) => Array(NormalElements(elements))
    case Object(fields) => Object(Sort(NormalFields(fields)))
    case _ => v
  }

  function Canonical(v: Json): Text { Encode(Normalize(v)) }

  // ---------- The order of keys ----------

  lemma {:induction false} BeforeIsTotal(a: Text, b: Text)
    ensures a == b || Before(a, b) || Before(b, a)
  {
    if a != [] && b != [] && a[0] == b[0] {
      BeforeIsTotal(a[1..], b[1..]);
      assert a == [a[0]] + a[1..] && b == [b[0]] + b[1..];
    }
  }

  lemma {:induction false} BeforeIsStrict(a: Text, b: Text)
    ensures !(Before(a, b) && Before(b, a)) && !Before(a, a)
  {
    if a != [] {
      BeforeIsStrict(a[1..], if b == [] then [] else b[1..]);
    }
  }

  lemma {:induction false} BeforeChains(a: Text, b: Text, c: Text)
    requires Before(a, b) && Before(b, c)
    ensures Before(a, c)
  {
    if a != [] && a[0] == b[0] && b[0] == c[0] {
      BeforeChains(a[1..], b[1..], c[1..]);
    }
  }

  predicate Increasing(fields: seq<Field>) {
    forall i, j :: 0 <= i < j < |fields| ==> Before(fields[i].key, fields[j].key)
  }

  predicate FreshKey(key: Text, fields: seq<Field>) {
    forall i :: 0 <= i < |fields| ==> fields[i].key != key
  }

  predicate UniqueKeys(fields: seq<Field>) {
    forall i, j :: 0 <= i < j < |fields| ==> fields[i].key != fields[j].key
  }

  lemma {:induction false} InsertAdds(f: Field, sorted: seq<Field>)
    ensures forall g :: g in Insert(f, sorted) <==> g == f || g in sorted
  {
    if sorted != [] && !Before(f.key, sorted[0].key) {
      InsertAdds(f, sorted[1..]);
      assert sorted == [sorted[0]] + sorted[1..];
    }
  }

  lemma IncreasingFrom(head: Field, rest: seq<Field>)
    requires Increasing(rest) && forall g :: g in rest ==> Before(head.key, g.key)
    ensures Increasing([head] + rest)
  {
    var all := [head] + rest;
    forall i, j | 0 <= i < j < |all| ensures Before(all[i].key, all[j].key) {
      assert all[j] == rest[j - 1];
    }
  }

  lemma {:induction false} InsertKeepsIncreasing(f: Field, sorted: seq<Field>)
    requires Increasing(sorted) && FreshKey(f.key, sorted)
    ensures Increasing(Insert(f, sorted))
  {
    if sorted == [] {
    } else if Before(f.key, sorted[0].key) {
      forall g | g in sorted ensures Before(f.key, g.key) {
        var i :| 0 <= i < |sorted| && sorted[i] == g;
        if i > 0 { BeforeChains(f.key, sorted[0].key, g.key); }
      }
      IncreasingFrom(f, sorted);
    } else {
      BeforeIsTotal(f.key, sorted[0].key);
      InsertKeepsIncreasing(f, sorted[1..]);
      InsertAdds(f, sorted[1..]);
      IncreasingFrom(sorted[0], Insert(f, sorted[1..]));
    }
  }

  lemma {:induction false} SortSorts(fields: seq<Field>)
    ensures forall g :: g in Sort(fields) <==> g in fields
    ensures UniqueKeys(fields) ==> Increasing(Sort(fields))
  {
    if fields != [] {
      SortSorts(fields[1..]);
      InsertAdds(fields[0], Sort(fields[1..]));
      assert fields == [fields[0]] + fields[1..];
      if UniqueKeys(fields) {
        assert FreshKey(fields[0].key, Sort(fields[1..])) by {
          forall i | 0 <= i < |Sort(fields[1..])| ensures Sort(fields[1..])[i].key != fields[0].key {
            assert Sort(fields[1..])[i] in fields[1..];
          }
        }
        InsertKeepsIncreasing(fields[0], Sort(fields[1..]));
      }
    }
  }

  lemma FirstsMeet(a: seq<Field>, b: seq<Field>)
    requires Increasing(a) && Increasing(b) && a != [] && b != []
    requires forall g :: g in a <==> g in b
    ensures a[0] == b[0]
  {
    assert a[0] in b && b[0] in a;
    var i :| 0 <= i < |b| && b[i] == a[0];
    var j :| 0 <= j < |a| && a[j] == b[0];
    BeforeIsStrict(a[0].key, b[0].key);
  }

  lemma TailMembers(a: seq<Field>)
    requires Increasing(a) && a != []
    ensures forall g :: g in a[1..] <==> g in a && g != a[0]
  {
    assert a == [a[0]] + a[1..];
    forall g | g in a[1..] ensures g != a[0] {
      var i :| 0 <= i < |a[1..]| && a[1..][i] == g;
      assert a[i + 1] == g;
      BeforeIsStrict(a[0].key, g.key);
    }
  }

  lemma RestsMeet(a: seq<Field>, b: seq<Field>)
    requires Increasing(a) && Increasing(b) && a != [] && b != [] && a[0] == b[0]
    requires forall g :: g in a <==> g in b
    ensures forall g :: g in a[1..] <==> g in b[1..]
  {
    TailMembers(a);
    TailMembers(b);
  }

  /** Sorted objects with the same fields are the same. */
  lemma {:induction false} IncreasingIsUnique(a: seq<Field>, b: seq<Field>)
    requires Increasing(a) && Increasing(b)
    requires forall g :: g in a <==> g in b
    ensures a == b
  {
    assert forall i :: 0 <= i < |b| ==> b[i] in a;
    assert forall i :: 0 <= i < |a| ==> a[i] in b;
    if a != [] {
      assert a[0] in b;
      FirstsMeet(a, b);
      RestsMeet(a, b);
      IncreasingIsUnique(a[1..], b[1..]);
      assert a == [a[0]] + a[1..] && b == [b[0]] + b[1..];
    }
  }

  // ---------- Normal forms ----------

  /** The live fields of an object, one by one. */
  lemma {:induction false} NormalFieldsAre(fields: seq<Field>)
    ensures forall i :: 0 <= i < |fields| && !fields[i].value.Undefined? ==>
      Field(fields[i].key, Normalize(fields[i].value)) in NormalFields(fields)
    ensures forall g :: g in NormalFields(fields) ==>
      exists i :: 0 <= i < |fields| && !fields[i].value.Undefined?
        && g == Field(fields[i].key, Normalize(fields[i].value))
  {
    if fields != [] {
      NormalFieldsAre(fields[1..]);
      var rest := NormalFields(fields[1..]);
      forall i | 0 <= i < |fields| && !fields[i].value.Undefined?
        ensures Field(fields[i].key, Normalize(fields[i].value)) in NormalFields(fields)
      {
        if i > 0 { assert fields[i] == fields[1..][i - 1]; }
      }
      forall g | g in NormalFields(fields)
        ensures exists i ::
          0 <= i < |fields| && !fields[i].value.Undefined? && g == Field(fields[i].key, Normalize(fields[i].value))
      {
        if g in rest {
          var i :| 0 <= i < |fields[1..]| && !fields[1..][i].value.Undefined?
            && g == Field(fields[1..][i].key, Normalize(fields[1..][i].value));
          assert fields[i + 1] == fields[1..][i];
        }
      }
    }
  }

  lemma UniqueFrom(head: Field, rest: seq<Field>)
    requires UniqueKeys(rest) && forall g :: g in rest ==> g.key != head.key
    ensures UniqueKeys([head] + rest)
  {
    var all := [head] + rest;
    forall i, j | 0 <= i < j < |all| ensures all[i].key != all[j].key {
      assert all[j] == rest[j - 1];
    }
  }

  lemma {:induction false} NormalKeysAreUnique(fields: seq<Field>)
    requires UniqueKeys(fields)
    ensures UniqueKeys(NormalFields(fields))
  {
    if fields != [] {
      NormalKeysAreUnique(fields[1..]);
      NormalFieldsAre(fields[1..]);
      var rest := NormalFields(fields[1..]);
      forall g | g in rest ensures g.key != fields[0].key {
        var i :| 0 <= i < |fields[1..]| && g.key == fields[1..][i].key;
        assert fields[i + 1] == fields[1..][i];
      }
      UniqueFrom(Field(fields[0].key, Normalize(fields[0].value)), rest);
    }
  }

  lemma {:induction false} ElementsAreNormal(elements: seq<Json>)
    requires forall i :: 0 <= i < |elements| ==> Valid(elements[i])
    ensures forall i :: 0 <= i < |elements| ==>
      Normal(NormalElements(elements)[i]) && NormalElements(elements)[i] == Normalize(elements[i])
    decreases elements, 0
  {
    if elements != [] {
      NormalizeIsNormal(elements[0]);
      ElementsAreNormal(elements[1..]);
    }
  }

  lemma {:induction false} NormalizeIsNormal(v: Json)
    requires Valid(v)
    ensures Normal(Normalize(v))
    decreases v, 1
  {
    match v {
      case Array(elements) => ElementsAreNormal(elements);
      case Object(fields) =>
        var live := NormalFields(fields);
        NormalFieldsAre(fields);
        NormalKeysAreUnique(fields);
        SortSorts(live);
        forall i | 0 <= i < |Sort(live)| ensures Normal(Sort(live)[i].value) {
          assert Sort(live)[i] in live;
          var k :| 0 <= k < |fields| && !fields[k].value.Undefined?
            && Sort(live)[i] == Field(fields[k].key, Normalize(fields[k].value));
          NormalizeIsNormal(fields[k].value);
        }
      case _ =>
    }
  }

  // ---------- The theorem ----------

  ghost predicate LiveAt(v: Json, i: nat)
    requires v.Object?
  {
    i < |v.fields| && !v.fields[i].value.Undefined?
  }

  /** What the induction provides for two objects: their fields are compared rightly. */
  ghost predicate FieldsCompared(a: Json, b: Json)
    requires a.Object? && b.Object?
  {
    forall i: nat, j: nat | LiveAt(a, i) && LiveAt(b, j) ::
      Normalize(a.fields[i].value) == Normalize(b.fields[j].value) <==> Same(a.fields[i].value, b.fields[j].value)
  }

  lemma SameObjectsMeet(a: Json, b: Json)
    requires a.Object? && b.Object? && Valid(a) && Valid(b) && FieldsCompared(a, b) && Same(a, b)
    ensures Normalize(a) == Normalize(b)
  {
    hide Normalize;
    var m, n := NormalFields(a.fields), NormalFields(b.fields);
    NormalFieldsAre(a.fields);
    NormalFieldsAre(b.fields);
    forall g | g in m ensures g in n {
      var i :| 0 <= i < |a.fields| && LiveAt(a, i) && g == Field(a.fields[i].key, Normalize(a.fields[i].value));
      var j :| 0 <= j < |b.fields| && Alike(a, b, i, j);
      assert LiveAt(b, j);
    }
    forall g | g in n ensures g in m {
      var j :| 0 <= j < |b.fields| && LiveAt(b, j) && g == Field(b.fields[j].key, Normalize(b.fields[j].value));
      var i :| 0 <= i < |a.fields| && Alike(a, b, i, j);
      assert LiveAt(a, i);
    }
    ObjectsMeet(a, b);
  }

  lemma ObjectsMeet(a: Json, b: Json)
    requires a.Object? && b.Object? && Valid(a) && Valid(b)
    ensures Normalize(a) == Normalize(b) <==> forall g :: g in NormalFields(a.fields) <==> g in NormalFields(b.fields)
  {
    var m, n := NormalFields(a.fields), NormalFields(b.fields);
    SortSorts(m);
    SortSorts(n);
    NormalKeysAreUnique(a.fields);
    NormalKeysAreUnique(b.fields);
    assert Normalize(a) == Object(Sort(m)) && Normalize(b) == Object(Sort(n));
    if Sort(m) == Sort(n) {
      forall g ensures g in m <==> g in n {
        assert g in m <==> g in Sort(m);
        assert g in n <==> g in Sort(n);
      }
    } else if forall g :: g in m <==> g in n {
      assert forall g :: g in Sort(m) <==> g in Sort(n);
      IncreasingIsUnique(Sort(m), Sort(n));
    }
  }

  lemma MeetingObjectsAreSame(a: Json, b: Json)
    requires a.Object? && b.Object? && Valid(a) && Valid(b) && FieldsCompared(a, b) && Normalize(a) == Normalize(b)
    ensures Same(a, b)
  {
    ObjectsMeet(a, b);
    hide Normalize;
    NormalFieldsAre(a.fields);
    NormalFieldsAre(b.fields);
    forall i | 0 <= i < |a.fields| && !a.fields[i].value.Undefined?
      ensures exists j :: 0 <= j < |b.fields| && Alike(a, b, i, j) {
      assert LiveAt(a, i);
      assert Field(a.fields[i].key, Normalize(a.fields[i].value)) in NormalFields(b.fields);
      var j :| 0 <= j < |b.fields| && LiveAt(b, j)
        && Field(a.fields[i].key, Normalize(a.fields[i].value)) == Field(b.fields[j].key, Normalize(b.fields[j].value));
      assert Alike(a, b, i, j);
    }
    forall j | 0 <= j < |b.fields| && !b.fields[j].value.Undefined?
      ensures exists i :: 0 <= i < |a.fields| && Alike(a, b, i, j) {
      assert LiveAt(b, j);
      assert Field(b.fields[j].key, Normalize(b.fields[j].value)) in NormalFields(a.fields);
      var i :| 0 <= i < |a.fields| && LiveAt(a, i)
        && Field(b.fields[j].key, Normalize(b.fields[j].value)) == Field(a.fields[i].key, Normalize(a.fields[i].value));
      assert Alike(a, b, i, j);
    }
  }

  lemma {:induction false} NormalizeTells(a: Json, b: Json)
    requires Valid(a) && Valid(b)
    ensures Normalize(a) == Normalize(b) <==> Same(a, b)
    decreases a
  {
    if a.Array? && b.Array? && |a.elements| == |b.elements| {
      ElementsAreNormal(a.elements);
      ElementsAreNormal(b.elements);
      forall i | 0 <= i < |a.elements|
        ensures Normalize(a.elements[i]) == Normalize(b.elements[i]) <==> Same(a.elements[i], b.elements[i])
      {
        NormalizeTells(a.elements[i], b.elements[i]);
      }
      ArraysTell(a, b);
    } else if a.Object? && b.Object? {
      assert FieldsCompared(a, b) by {
        forall i: nat, j: nat | LiveAt(a, i) && LiveAt(b, j)
          ensures Normalize(a.fields[i].value) == Normalize(b.fields[j].value) <==>
            Same(a.fields[i].value, b.fields[j].value)
        {
          NormalizeTells(a.fields[i].value, b.fields[j].value);
        }
      }
      if Same(a, b) { SameObjectsMeet(a, b); }
      if Normalize(a) == Normalize(b) { MeetingObjectsAreSame(a, b); }
    }
  }

  lemma ArraysTell(a: Json, b: Json)
    requires a.Array? && b.Array? && |a.elements| == |b.elements| && Valid(a) && Valid(b)
    requires forall i :: 0 <= i < |a.elements| ==>
      (Normalize(a.elements[i]) == Normalize(b.elements[i]) <==> Same(a.elements[i], b.elements[i]))
    ensures Normalize(a) == Normalize(b) <==> Same(a, b)
  {
    ElementsAreNormal(a.elements);
    ElementsAreNormal(b.elements);
    var m, n := NormalElements(a.elements), NormalElements(b.elements);
    assert m == n <==> forall i :: 0 <= i < |m| ==> m[i] == n[i];
  }

  /** The canonical encoder is injective up to the order of keys and dropped undefined fields: two
      validated values have the same text exactly when they are the same in that sense. */
  lemma CanonicalTells(a: Json, b: Json)
    requires Valid(a) && Valid(b)
    ensures Canonical(a) == Canonical(b) <==> Same(a, b)
  {
    hide Normalize, Encode, Normal, Valid, Same;
    NormalizeTells(a, b);
    NormalizeIsNormal(a);
    NormalizeIsNormal(b);
    if Canonical(a) == Canonical(b) {
      assert Encode(Normalize(a)) + [] == Encode(Normalize(b)) + [];
      EncodeTells(Normalize(a), Normalize(b), [], []);
    }
  }

  // ---------- Command keys ----------

  function Name(op: Operation): string {
    match op
    case ChargePayment => "CHARGE_PAYMENT"
    case RefundPayment => "REFUND_PAYMENT"
    case ReserveInventory => "RESERVE_INVENTORY"
    case ReleaseInventory => "RELEASE_INVENTORY"
    case FinalizeInventory => "FINALIZE_INVENTORY"
    case CreateShipment => "CREATE_SHIPMENT"
    case CancelShipment => "CANCEL_SHIPMENT"
  }

  function CommandKey(sagaId: string, op: Operation): string {
    "saga:" + Lower(sagaId) + ":" + Name(op)
  }

  predicate KeyChars(s: string) {
    forall i :: 0 <= i < |s| ==> 'A' <= s[i] <= 'Z' || 'a' <= s[i] <= 'z' || '0' <= s[i] <= '9' || s[i] in ":_-"
  }

  /** IdempotencyKeySchema */
  predicate IsKey(key: string) {
    1 <= |key| <= 255 && KeyChars(key)
  }

  lemma NamesTell(p: Operation, q: Operation)
    ensures Name(p) == Name(q) ==> p == q
  {
    assert Name(p) == Name(q) ==> |Name(p)| == |Name(q)| && Name(p)[2] == Name(q)[2] && Name(p)[0] == Name(q)[0];
  }

  /** The parts of a key stand at fixed places. */
  lemma KeyParts(sagaId: string, op: Operation)
    requires IsUuid(sagaId)
    ensures
      var k := CommandKey(sagaId, op);
      && |k| >= 42 && k[..5] == "saga:" && k[5..41] == Lower(sagaId) && k[41] == ':' && k[42..] == Name(op)
  {
    hide Name, Lower;
    var id, name := Lower(sagaId), Name(op);
    assert "saga:" + id + ":" + name == "saga:" + (id + (":" + name));
  }

  /** A command key names exactly one saga and one operation, whatever the case of the id. */
  lemma KeysTell(a: string, p: Operation, b: string, q: Operation)
    requires IsUuid(a) && IsUuid(b)
    ensures CommandKey(a, p) == CommandKey(b, q) <==> Value(a) == Value(b) && p == q
  {
    hide Name, Lower, IsUuid;
    ValueIdentifies(a, b);
    KeyParts(a, p);
    KeyParts(b, q);
    NamesTell(p, q);
  }

  lemma JoinedChars(a: string, b: string)
    requires KeyChars(a) && KeyChars(b)
    ensures KeyChars(a + b)
  {
  }

  lemma IdChars(id: string)
    requires IsUuid(id)
    ensures KeyChars(id)
  {
    forall i | 0 <= i < |id| ensures 'A' <= id[i] <= 'Z' || 'a' <= id[i] <= 'z' || '0' <= id[i] <= '9'
      || id[i] in ":_-" {
      assert if IsHyphen(i) then id[i] == '-' else IsHex(id[i]);
    }
  }

  /** Every command key passes the schema of idempotency keys. */
  lemma KeysAreValid(sagaId: string, op: Operation)
    requires IsUuid(sagaId)
    ensures IsKey(CommandKey(sagaId, op))
  {
    LowerIsUuid(sagaId);
    IdChars(Lower(sagaId));
    assert KeyChars(Name(op)) && |Name(op)| <= 18;
    assert KeyChars("saga:") && KeyChars(":");
    hide KeyChars, Name, Lower;
    JoinedChars("saga:", Lower(sagaId));
    JoinedChars("saga:" + Lower(sagaId), ":");
    JoinedChars("saga:" + Lower(sagaId) + ":", Name(op));
  }
}
