/** A reader of JSON texts (RFC 8259, without the optional white space), and what it makes of the
    canonical text: the value that was written, with its live fields in order of their keys. */
module JsonReader {
  import opened Contracts
  import opened Idempotency

  /** What was read, and the text after it. */
  datatype Parsed<+T> = Parsed(value: T, rest: Text)

  // ---------- Strings (section 7) ----------

  function HexValue(u: Unit): Option<nat> {
    if '0' as int <= u <= '9' as int then Some(u - '0' as int)
    else if 'a' as int <= u <= 'f' as int then Some(u - 'a' as int + 10)
    else if 'A' as int <= u <= 'F' as int then Some(u - 'A' as int + 10)
    else None
  }

  /** Four hexadecimal digits. */
  function ReadHex(t: Text): (r: Option<Unit>)
    requires |t| == 4
  {
    var a, b, c, d := HexValue(t[0]), HexValue(t[1]), HexValue(t[2]), HexValue(t[3]);
    if a.None? || b.None? || c.None? || d.None? then None
    else
      var u := 4096 * a.value + 256 * b.value + 16 * c.value + d.value;
      if u < 0x10000 then Some(u) else None
  }

  /** The unit that a letter after a backslash stands for. */
  function Unescaped(letter: Unit): Option<Unit> {
    if letter == '"' as int || letter == '\\' as int || letter == '/' as int then Some(letter)
    else if letter == 'b' as int then Some(8)
    else if letter == 'f' as int then Some(12)
    else if letter == 'n' as int then Some(10)
    else if letter == 'r' as int then Some(13)
    else if letter == 't' as int then Some(9)
    else None
  }

  /** The next unit of a string, escaped or as it is; control characters must be escaped. */
  function ReadUnit(t: Text): (r: Option<Parsed<Unit>>)
    ensures r.Some? ==> |r.value.rest| < |t|
  {
    if t == [] || t[0] == '"' as int || t[0] < 0x20 then None
    else if t[0] != '\\' as int then Some(Parsed(t[0], t[1..]))
    else if |t| >= 6 && t[1] == 'u' as int then
      var u := ReadHex(t[2..6]);
      if u.Some? then Some(Parsed(u.value, t[6..])) else None
    else if |t| >= 2 && Unescaped(t[1]).Some? then Some(Parsed(Unescaped(t[1]).value, t[2..]))
    else None
  }

  /** The rest of a string, up to its closing quotation mark. */
  function ReadString(t: Text): (r: Option<Parsed<Text>>)
    ensures r.Some? ==> |r.value.rest| < |t|
    decreases |t|
  {
    if t != [] && t[0] == '"' as int then Some(Parsed([], t[1..]))
    else
      var u := ReadUnit(t);
      if u.None? then None
      else
        var s := ReadString(u.value.rest);
        if s.None? then None else Some(Parsed([u.value.value] + s.value.value, s.value.rest))
  }

  // ---------- Numbers (section 6, integers) ----------

  /** The digits a text starts with. */
  function Digits(t: Text): (r: Text)
    ensures r <= t && forall i :: 0 <= i < |r| ==> IsDigit(r[i])
  {
    if t != [] && IsDigit(t[0]) then [t[0]] + Digits(t[1..]) else []
  }

  /** A number has no superfluous zeros in front. */
  function ReadNatural(t: Text): (r: Option<Parsed<nat>>)
    ensures r.Some? ==> |r.value.rest| < |t|
  {
    var digits := Digits(t);
    if digits == [] || (digits[0] == '0' as int && |digits| > 1) then None
    else Some(Parsed(Read(digits), t[|digits|..]))
  }

  function ReadInteger(t: Text): (r: Option<Parsed<int>>)
    ensures r.Some? ==> |r.value.rest| < |t|
  {
    if t != [] && t[0] == '-' as int then
      var n := ReadNatural(t[1..]);
      if n.None? then None
      else
        var value: int := n.value.value;
        Some(Parsed(-value, n.value.rest))
    else
      var n := ReadNatural(t);
      if n.None? then None else Some(Parsed(n.value.value, n.value.rest))
  }

  // ---------- Values (sections 3 to 5) ----------

  function AsText(s: string): Text
    requires forall i :: 0 <= i < |s| ==> s[i] as int < 0x80
  {
    seq(|s|, i requires 0 <= i < |s| => s[i] as int)
  }

  function ReadValue(t: Text): (r: Option<Parsed<Json>>)
    ensures r.Some? ==> |r.value.rest| < |t|
    decreases |t|, 0
  {
    if t == [] then None
    else if t[0] == '[' as int then
      if |t| > 1 && t[1] == ']' as int then Some(Parsed(Array([]), t[2..]))
      else
        var r := ReadElements(t[1..]);
        if r.None? then None else Some(Parsed(Array(r.value.value), r.value.rest))
    else if t[0] == '{' as int then
      if |t| > 1 && t[1] == '}' as int then Some(Parsed(Object([]), t[2..]))
      else
        var r := ReadFields(t[1..]);
        if r.None? then None else Some(Parsed(Object(r.value.value), r.value.rest))
    else if t[0] == '"' as int then
      var r := ReadString(t[1..]);
      if r.None? then None else Some(Parsed(String(r.value.value), r.value.rest))
    else if AsText("null") <= t then Some(Parsed(Null, t[4..]))
    else if AsText("true") <= t then Some(Parsed(Bool(true), t[4..]))
    else if AsText("false") <= t then Some(Parsed(Bool(false), t[5..]))
    else
      var r := ReadInteger(t);
      if r.None? then None else Some(Parsed(Number(r.value.value), r.value.rest))
  }

  /** Values separated by commas, up to the closing bracket. */
  function ReadElements(t: Text): (r: Option<Parsed<seq<Json>>>)
    ensures r.Some? ==> |r.value.rest| < |t|
    decreases |t|, 1
  {
    var v := ReadValue(t);
    if v.None? || v.value.rest == [] then None
    else
      var next := v.value.rest[1..];
      if v.value.rest[0] == ']' as int then Some(Parsed([v.value.value], next))
      else if v.value.rest[0] != ',' as int then None
      else
        var more := ReadElements(next);
        if more.None? then None else Some(Parsed([v.value.value] + more.value.value, more.value.rest))
  }

  /** Fields separated by commas, up to the closing brace. */
  function ReadFields(t: Text): (r: Option<Parsed<seq<Field>>>)
    ensures r.Some? ==> |r.value.rest| < |t|
    decreases |t|, 1
  {
    if t == [] || t[0] != '"' as int then None
    else
      var key := ReadString(t[1..]);
      if key.None? || key.value.rest == [] || key.value.rest[0] != ':' as int then None
      else
        var v := ReadValue(key.value.rest[1..]);
        if v.None? || v.value.rest == [] then None
        else
          var f := Field(key.value.value, v.value.value);
          var next := v.value.rest[1..];
          if v.value.rest[0] == '}' as int then Some(Parsed([f], next))
          else if v.value.rest[0] != ',' as int then None
          else
            var more := ReadFields(next);
            if more.None? then None else Some(Parsed([f] + more.value.value, more.value.rest))
  }

  // ---------- What was written is read back ----------

  lemma HexReads(u: Unit)
    ensures |Hex4(u)| == 4 && ReadHex(Hex4(u)) == Some(u)
  {
    Nibbles(u);
    assert u / 4096 < 16;
  }

  lemma UnitReads(u: Unit, x: Text)
    ensures ReadUnit(EscapeUnit(u) + x) == Some(Parsed(u, x))
  {
    var t := EscapeUnit(u) + x;
    if Short(u).Some? {
      assert t == [BACKSLASH, Short(u).value] + x;
      assert t[2..] == x;
    } else if u < 0x20 || IsHigh(u) || IsLow(u) {
      HexReads(u);
      assert t[2..6] == Hex4(u) && t[6..] == x;
    } else {
      assert t[1..] == x;
    }
  }

  lemma PlainReads(u: Unit, x: Text)
    requires IsHigh(u) || IsLow(u)
    ensures ReadUnit([u] + x) == Some(Parsed(u, x))
  {
    assert ([u] + x)[1..] == x;
  }

  lemma UnitThenString(t: Text, u: Unit, x: Text)
    requires ReadUnit(t) == Some(Parsed(u, x))
    ensures ReadString(t) == match ReadString(x) case None => None case Some(s) => Some(Parsed([u] + s.value, s.rest))
  {
  }

  /** A quoted string is read back, whatever follows it. */
  lemma {:induction false} StringReads(s: Text, x: Text)
    ensures ReadString(Escape(s) + ([QUOTE] + x)) == Some(Parsed(s, x))
    decreases |s|
  {
    var y := [QUOTE] + x;
    if s == [] {
      assert Escape(s) + y == y && y[1..] == x;
    } else if StartsPair(s) {
      var rest := Escape(s[2..]) + y;
      EscapeStarts(s, y);
      StringReads(s[2..], x);
      assert s[..2] + rest == [s[0]] + ([s[1]] + rest);
      PlainReads(s[0], [s[1]] + rest);
      PlainReads(s[1], rest);
      UnitThenString([s[0]] + ([s[1]] + rest), s[0], [s[1]] + rest);
      UnitThenString([s[1]] + rest, s[1], rest);
      assert [s[0]] + ([s[1]] + s[2..]) == s;
    } else {
      var rest := Escape(s[1..]) + y;
      EscapeStarts(s, y);
      StringReads(s[1..], x);
      UnitReads(s[0], rest);
      UnitThenString(EscapeUnit(s[0]) + rest, s[0], rest);
      assert [s[0]] + s[1..] == s;
    }
  }

  lemma {:induction false} DigitsRead(d: Text, x: Text)
    requires (forall i :: 0 <= i < |d| ==> IsDigit(d[i])) && Ends(x)
    ensures Digits(d + x) == d
  {
    if d == [] {
      assert d + x == x;
    } else {
      assert (d + x)[1..] == d[1..] + x;
      DigitsRead(d[1..], x);
    }
  }

  lemma {:induction false} NoZeroInFront(n: nat)
    ensures Decimal(n)[0] == 0x30 ==> n == 0
    ensures n < 10 ==> |Decimal(n)| == 1
  {
    if n >= 10 { NoZeroInFront(n / 10); }
  }

  lemma NaturalReads(n: nat, x: Text)
    requires Ends(x)
    ensures ReadNatural(Decimal(n) + x) == Some(Parsed(n, x))
  {
    var d := Decimal(n);
    DigitsRead(d, x);
    NoZeroInFront(n);
    ReadsBack(n);
    assert (d + x)[|d|..] == x;
  }

  lemma IntegerReads(n: int, x: Text)
    requires Ends(x)
    ensures ReadInteger(Integer(n) + x) == Some(Parsed(n, x))
  {
    hide Decimal, ReadNatural, Ends;
    SignTells(n, x);
    if n < 0 {
      assert Integer(n) + x == [MINUS] + (Decimal(-n) + x);
      NaturalReads(-n, x);
    } else {
      NaturalReads(n, x);
    }
  }

  lemma ConstantsRead(x: Text)
    ensures ReadValue(NULL + x) == Some(Parsed(Null, x))
    ensures ReadValue(TRUE + x) == Some(Parsed(Bool(true), x))
    ensures ReadValue(FALSE + x) == Some(Parsed(Bool(false), x))
  {
    var n, t, f := NULL + x, TRUE + x, FALSE + x;
    assert n[..4] == AsText("null") && n[4..] == x;
    assert t[..4] == AsText("true") && t[4..] == x;
    assert f[..5] == AsText("false") && f[5..] == x;
    assert AsText("null")[0] == 0x6E && AsText("true")[0] == 0x74;
  }

  lemma NumberIsRead(n: int, x: Text)
    requires Ends(x)
    ensures ReadValue(Integer(n) + x) == Some(Parsed(Number(n), x))
  {
    hide ReadInteger, Ends, AsText;
    IntegerReads(n, x);
    EncodeStarts(Number(n), x);
    hide Integer;
    NotAWord(Integer(n) + x);
  }

  lemma NotAWord(t: Text)
    requires t != [] && (t[0] == MINUS || IsDigit(t[0]))
    ensures !(AsText("null") <= t) && !(AsText("true") <= t) && !(AsText("false") <= t)
  {
    assert AsText("null")[0] == 0x6E && AsText("true")[0] == 0x74 && AsText("false")[0] == 0x66;
  }

  lemma StringIsRead(s: Text, x: Text)
    ensures ReadValue(Quote(s) + x) == Some(Parsed(String(s), x))
    ensures (Quote(s) + x)[0] == QUOTE && (Quote(s) + x)[1..] == Escape(s) + ([QUOTE] + x)
  {
    assert (Quote(s) + x)[1..] == Escape(s) + ([QUOTE] + x);
    StringReads(s, x);
    hide ReadString, Escape;
  }

  /** What is written in normal form is read back, whatever delimiter follows. */
  lemma {:induction false} ValueReads(v: Json, x: Text)
    requires Normal(v) && Ends(x)
    ensures ReadValue(Encode(v) + x) == Some(Parsed(v, x))
    decreases v, 1
  {
    hide ReadValue, ReadElements, ReadFields, Integer, Quote, Ends;
    match v {
      case Null => ConstantsRead(x);
      case Bool(_) => ConstantsRead(x);
      case Number(n) => NumberIsRead(n, x);
      case String(s) => StringIsRead(s, x);
      case Array(es) =>
        var inner := Elements(es, true) + ([CLOSE_BRACKET] + x);
        assert Encode(v) + x == [OPEN_BRACKET] + inner;
        ElementsStart(es, true, x);
        if es != [] { ElementsRead(es, x); }
        BracketsRead(es, inner, x);
      case Object(fs) =>
        var inner := Fields(fs, true) + ([CLOSE_BRACE] + x);
        assert Encode(v) + x == [OPEN_BRACE] + inner;
        FieldsStart(fs, true, x);
        if fs != [] { FieldsRead(fs, x); }
        BracesRead(fs, inner, x);
    }
  }

  lemma BracketsRead(es: seq<Json>, inner: Text, x: Text)
    requires inner != [] && (inner[0] == CLOSE_BRACKET <==> es == [])
    requires es == [] ==> inner == [CLOSE_BRACKET] + x
    requires es != [] ==> ReadElements(inner) == Some(Parsed(es, x))
    ensures ReadValue([OPEN_BRACKET] + inner) == Some(Parsed(Array(es), x))
  {
    hide ReadElements;
    assert ([OPEN_BRACKET] + inner)[1..] == inner;
    if es == [] { assert ([OPEN_BRACKET] + inner)[2..] == x; }
  }

  lemma BracesRead(fs: seq<Field>, inner: Text, x: Text)
    requires inner != [] && (inner[0] == CLOSE_BRACE <==> fs == [])
    requires fs == [] ==> inner == [CLOSE_BRACE] + x
    requires fs != [] ==> ReadFields(inner) == Some(Parsed(fs, x))
    ensures ReadValue([OPEN_BRACE] + inner) == Some(Parsed(Object(fs), x))
  {
    hide ReadFields;
    assert ([OPEN_BRACE] + inner)[1..] == inner;
    if fs == [] { assert ([OPEN_BRACE] + inner)[2..] == x; }
  }

  lemma {:induction false} ElementsRead(es: seq<Json>, x: Text)
    requires es != [] && forall i :: 0 <= i < |es| ==> Normal(es[i])
    ensures ReadElements(Elements(es, true) + ([CLOSE_BRACKET] + x)) == Some(Parsed(es, x))
    decreases es, 0
  {
    hide Encode, Normal, ReadValue;
    var t := Elements(es, true) + ([CLOSE_BRACKET] + x);
    var rest := Elements(es[1..], false) + ([CLOSE_BRACKET] + x);
    ElementsStart(es, true, x);
    assert t == Encode(es[0]) + rest;
    ValueReads(es[0], rest);
    ElementsStart(es[1..], false, x);
    if es[1..] == [] {
      assert rest[1..] == x && es == [es[0]];
    } else {
      AfterComma(es[1..], x);
      ElementsRead(es[1..], x);
      assert es == [es[0]] + es[1..];
    }
  }

  lemma AfterComma(es: seq<Json>, x: Text)
    requires es != []
    ensures var t := Elements(es, false) + ([CLOSE_BRACKET] + x);
      t != [] && t[0] == COMMA && t[1..] == Elements(es, true) + ([CLOSE_BRACKET] + x)
  {
    assert Elements(es, false) == [COMMA] + Elements(es, true);
    var t := Elements(es, false) + ([CLOSE_BRACKET] + x);
    assert t == [COMMA] + (Elements(es, true) + ([CLOSE_BRACKET] + x));
  }

  lemma {:induction false} FieldsRead(fs: seq<Field>, x: Text)
    requires fs != [] && forall i :: 0 <= i < |fs| ==> Normal(fs[i].value)
    ensures ReadFields(Fields(fs, true) + ([CLOSE_BRACE] + x)) == Some(Parsed(fs, x))
    decreases fs, 0
  {
    hide Encode, Normal, ReadValue, ReadString, Quote, Ends, ReadInteger, Escape;
    var t := Fields(fs, true) + ([CLOSE_BRACE] + x);
    var rest := Fields(fs[1..], false) + ([CLOSE_BRACE] + x);
    FieldsStart(fs, true, x);
    var value := [COLON] + (Encode(fs[0].value) + rest);
    assert t == Quote(fs[0].key) + value;
    StringIsRead(fs[0].key, value);
    StringReads(fs[0].key, value);
    assert value[1..] == Encode(fs[0].value) + rest;
    ValueReads(fs[0].value, rest);
    FieldsStart(fs[1..], false, x);
    if fs[1..] == [] {
      assert rest[1..] == x && fs == [fs[0]];
    } else {
      AfterFieldComma(fs[1..], x);
      FieldsRead(fs[1..], x);
      assert fs == [fs[0]] + fs[1..];
    }
  }

  lemma AfterFieldComma(fs: seq<Field>, x: Text)
    requires fs != []
    ensures var t := Fields(fs, false) + ([CLOSE_BRACE] + x);
      t != [] && t[0] == COMMA && t[1..] == Fields(fs, true) + ([CLOSE_BRACE] + x)
  {
    hide Encode, Quote;
    assert Fields(fs, false) == [COMMA] + Fields(fs, true);
    var t := Fields(fs, false) + ([CLOSE_BRACE] + x);
    assert t == [COMMA] + (Fields(fs, true) + ([CLOSE_BRACE] + x));
  }

  // ---------- The canonical text ----------

  /** Sorting what is sorted changes nothing. */
  lemma SortedStays(fields: seq<Field>)
    requires Increasing(fields)
    ensures Idempotency.Sort(fields) == fields
  {
    assert UniqueKeys(fields) by {
      forall i, j | 0 <= i < j < |fields| ensures fields[i].key != fields[j].key {
        BeforeIsStrict(fields[i].key, fields[j].key);
      }
    }
    SortSorts(fields);
    IncreasingIsUnique(Idempotency.Sort(fields), fields);
  }

  lemma {:induction false} NormalStays(v: Json)
    requires Normal(v)
    ensures Normalize(v) == v
    decreases v, 1
  {
    match v {
      case Array(es) => NormalElementsStay(es);
      case Object(fs) =>
        NormalFieldsStay(fs);
        SortedStays(fs);
      case _ =>
    }
  }

  lemma {:induction false} NormalElementsStay(es: seq<Json>)
    requires forall i :: 0 <= i < |es| ==> Normal(es[i])
    ensures NormalElements(es) == es
    decreases es, 0
  {
    if es != [] {
      NormalStays(es[0]);
      NormalElementsStay(es[1..]);
    }
  }

  lemma {:induction false} NormalFieldsStay(fs: seq<Field>)
    requires forall i :: 0 <= i < |fs| ==> Normal(fs[i].value)
    ensures NormalFields(fs) == fs
    decreases fs, 0
  {
    if fs != [] {
      NormalStays(fs[0].value);
      NormalFieldsStay(fs[1..]);
    }
  }

  lemma {:induction false} NormalIsValid(v: Json)
    requires Normal(v)
    ensures Valid(v)
  {
    match v {
      case Array(es) => forall i | 0 <= i < |es| { NormalIsValid(es[i]); }
      case Object(fs) =>
        forall i | 0 <= i < |fs| { NormalIsValid(fs[i].value); }
        forall i, j | 0 <= i < j < |fs| ensures fs[i].key != fs[j].key { BeforeIsStrict(fs[i].key, fs[j].key); }
      case _ =>
    }
  }

  /** The canonical text is JSON: read back, it is a value that is the same as the one written up to
      the order of keys and dropped undefined fields, and whose keys are in order at every level. */
  lemma CanonicalReads(v: Json)
    requires Valid(v)
    ensures ReadValue(Canonical(v)).Some?
    ensures
      var read := ReadValue(Canonical(v)).value;
      read.rest == [] && Normal(read.value) && Same(v, read.value)
  {
    hide Normalize, Encode, Normal, Valid, Same, ReadValue;
    var n := Normalize(v);
    NormalizeIsNormal(v);
    ValueReads(n, []);
    assert Encode(n) + [] == Encode(n);
    NormalIsValid(n);
    NormalStays(n);
    NormalizeTells(v, n);
  }

  /** At this place the first key ends, or has the smaller code unit; before it the keys agree. */
  predicate SmallerAt(a: Text, b: Text, p: nat) {
    p <= |a| && p < |b| && a[..p] == b[..p] && (p == |a| || a[p] < b[p])
  }

  lemma FirstUnits(a: Text, b: Text, p: nat)
    requires SmallerAt(a, b, p)
    ensures p > 0 ==> a[0] == b[0] && SmallerAt(a[1..], b[1..], p - 1)
  {
    if p > 0 {
      assert a[..p][0] == b[..p][0];
      assert a[1..][..p - 1] == a[..p][1..] && b[1..][..p - 1] == b[..p][1..];
    }
  }

  lemma NextUnits(a: Text, b: Text, p: nat)
    requires a != [] && b != [] && a[0] == b[0] && SmallerAt(a[1..], b[1..], p)
    ensures SmallerAt(a, b, p + 1)
  {
    assert a[..p + 1] == [a[0]] + a[1..][..p] && b[..p + 1] == [b[0]] + b[1..][..p];
  }

  /** The keys are sorted as the language compares strings, by code units. */
  lemma {:induction false} BeforeIsLexicographic(a: Text, b: Text)
    ensures Before(a, b) <==> exists p: nat :: SmallerAt(a, b, p)
  {
    forall p: nat | SmallerAt(a, b, p) ensures p > 0 ==> a[0] == b[0] && SmallerAt(a[1..], b[1..], p - 1) {
      FirstUnits(a, b, p);
    }
    if a != [] && b != [] && a[0] == b[0] {
      BeforeIsLexicographic(a[1..], b[1..]);
      forall p: nat | SmallerAt(a[1..], b[1..], p) ensures SmallerAt(a, b, p + 1) {
        NextUnits(a, b, p);
      }
    } else if b != [] && (a == [] || a[0] < b[0]) {
      assert SmallerAt(a, b, 0);
    }
  }
}
