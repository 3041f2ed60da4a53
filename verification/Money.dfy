/** Amounts as text: the exact decimal parser and printer of the checkout form
    (apps/web/src/lib/checkout/form.ts). */
module Money {
  import opened Contracts

  const MAX_MINOR := 9_999_999_999

  predicate IsDigit(c: char) { '0' <= c <= '9' }

  predicate Digits(s: string) { forall i :: 0 <= i < |s| ==> IsDigit(s[i]) }

  /** The white space `trim` removes. */
  predicate IsSpace(c: char) {
    || c in {'\t', '\n', '\U{000B}', '\U{000C}', '\r', ' ', '\U{00A0}', '\U{1680}', '\U{2028}', '\U{2029}', '\U{202F}',
             '\U{205F}', '\U{3000}', '\U{FEFF}'}
    || '\U{2000}' <= c <= '\U{200A}'
  }

  function TrimStart(s: string): string {
    if s != [] && IsSpace(s[0]) then TrimStart(s[1..]) else s
  }

  function TrimEnd(s: string): string {
    if s != [] && IsSpace(s[|s| - 1]) then TrimEnd(s[..|s| - 1]) else s
  }

  function Trim(s: string): string { TrimEnd(TrimStart(s)) }

  /** Number, on digits. */
  function Read(s: string): nat
    requires Digits(s)
  {
    if s == [] then 0
    else
      var last := s[|s| - 1];
      assert IsDigit(last);
      10 * Read(s[..|s| - 1]) + (last as int - '0' as int)
  }

  /** Where the first dot is, or the end. */
  function Dot(s: string): (i: nat)
    ensures i <= |s| && '.' !in s[..i] && (i < |s| ==> s[i] == '.')
  {
    if s == [] || s[0] == '.' then 0
    else
      assert s[..Dot(s[1..]) + 1] == [s[0]] + s[1..][..Dot(s[1..])];
      Dot(s[1..]) + 1
  }

  function PadEnd(s: string, width: nat): (r: string)
    ensures s <= r && |r| == if |s| < width then width else |s|
    ensures Digits(s) ==> Digits(r)
    decreases width - |s|
  {
    if |s| >= width then s else PadEnd(s + "0", width)
  }

  function PadStart(s: string, width: nat): (r: string)
    ensures |r| == if |s| < width then width else |s|
    ensures Digits(s) ==> Digits(r)
    decreases width - |s|
  {
    if |s| >= width then s else PadStart("0" + s, width)
  }

  /** The pattern: one to eight digits, and one or two more after a dot. */
  predicate Matches(s: string) {
    var i := Dot(s);
    && 1 <= i <= 8 && Digits(s[..i])
    && (i < |s| ==> 1 <= |s| - i - 1 <= 2 && Digits(s[i + 1..]))
  }

  function Fraction(s: string): string {
    var i := Dot(s);
    if i < |s| then s[i + 1..] else ""
  }

  function ParseAmountMinor(input: string): Option<nat> {
    var s := Trim(input);
    if !Matches(s) then None
    else
      var minor := Read(s[..Dot(s)]) * 100 + Read(PadEnd(Fraction(s), 2));
      if 1 <= minor <= MAX_MINOR then Some(minor) else None
  }

  function Decimal(n: nat): (s: string)
    ensures s != "" && Digits(s)
  {
    if n < 10 then [('0' as int + n) as char] else Decimal(n / 10) + [('0' as int + n % 10) as char]
  }

  function FormatMinor(minor: nat): string {
    Decimal(minor / 100) + "." + PadStart(Decimal(minor % 100), 2)
  }

  // ---------- What a text denotes ----------

  /** The texts a person may write for an amount, and the number they denote. */
  datatype Amount = Amount(whole: string, fraction: string)

  predicate Written(s: string, a: Amount) {
    && 1 <= |a.whole| <= 8 && Digits(a.whole) && |a.fraction| <= 2 && Digits(a.fraction)
    && s == if a.fraction == "" then a.whole else a.whole + "." + a.fraction
  }

  function Value(a: Amount): real
    requires Digits(a.whole) && Digits(a.fraction)
  {
    Read(a.whole) as real
      + match |a.fraction|
        case 0 => 0.0
        case 1 => Read(a.fraction) as real / 10.0
        case _ => Read(a.fraction) as real / 100.0
  }

  lemma NoDot(s: string)
    requires Digits(s)
    ensures '.' !in s
  {
  }

  lemma {:induction false} DotIsFirst(w: string, rest: string)
    requires '.' !in w
    ensures Dot(w + rest) == |w| + Dot(rest)
  {
    if w == "" {
      assert w + rest == rest;
    } else {
      assert w[0] != '.';
      assert (w + rest)[1..] == w[1..] + rest;
      DotIsFirst(w[1..], rest);
    }
  }

  lemma WrittenMatches(s: string, a: Amount)
    requires Written(s, a)
    ensures Matches(s) && s[..Dot(s)] == a.whole && Fraction(s) == a.fraction
  {
    NoDot(a.whole);
    if a.fraction == "" {
      DotIsFirst(a.whole, "");
      assert s + "" == s && s[..|s|] == s;
    } else {
      var rest := "." + a.fraction;
      assert s == a.whole + rest;
      DotIsFirst(a.whole, rest);
      assert s[..|a.whole|] == a.whole && s[|a.whole| + 1..] == a.fraction;
    }
  }

  lemma MatchesWritten(s: string) returns (a: Amount)
    requires Matches(s)
    ensures Written(s, a) && a == Amount(s[..Dot(s)], Fraction(s))
  {
    var i := Dot(s);
    a := Amount(s[..i], Fraction(s));
    if i < |s| {
      assert s == s[..i] + [s[i]] + s[i + 1..];
    } else {
      assert s[..i] == s;
    }
  }

  lemma ReadGrows(s: string, c: char)
    requires Digits(s) && IsDigit(c)
    ensures Digits(s + [c]) && Read(s + [c]) == 10 * Read(s) + (c as int - '0' as int)
  {
    assert (s + [c])[..|s|] == s;
  }

  lemma PadReads(f: string)
    requires Digits(f) && |f| <= 2
    ensures Read(PadEnd(f, 2)) == match |f| case 0 => 0 case 1 => 10 * Read(f) case _ => Read(f)
  {
    hide Read;
    if |f| == 0 {
      ReadNothing(f);
      ReadGrows(f, '0');
      ReadGrows(f + "0", '0');
      assert PadEnd(f, 2) == f + "0" + "0";
    } else if |f| == 1 {
      ReadGrows(f, '0');
      assert PadEnd(f, 2) == f + "0";
    }
  }

  lemma ReadNothing(f: string)
    requires f == ""
    ensures Read(f) == 0
  {
  }

  /** Every accepted text denotes exactly the returned number of minor units, and a text is
      accepted exactly when it is a well-written amount in range, spaces around it aside. */
  lemma ParsesExactly(input: string, minor: nat)
    ensures ParseAmountMinor(input) == Some(minor) <==>
      1 <= minor <= MAX_MINOR && exists a :: Written(Trim(input), a) && Value(a) * 100.0 == minor as real
  {
    var s := Trim(input);
    if Matches(s) {
      var a := MatchesWritten(s);
      ScaledValue(a);
      forall b | Written(s, b) ensures b == a { WrittenMatches(s, b); }
      assert Written(s, a);
    } else {
      forall b ensures !Written(s, b) { if Written(s, b) { WrittenMatches(s, b); } }
    }
  }

  lemma ScaledValue(a: Amount)
    requires Digits(a.whole) && Digits(a.fraction) && |a.fraction| <= 2
    ensures Value(a) * 100.0 == (Read(a.whole) * 100 + Read(PadEnd(a.fraction, 2))) as real
  {
    PadReads(a.fraction);
  }

  // ---------- Round trip ----------

  lemma {:induction false} ReadsBack(n: nat)
    ensures Read(Decimal(n)) == n
  {
    if n < 10 {
      assert Decimal(n)[..0] == "";
    } else {
      ReadsBack(n / 10);
      assert Decimal(n)[..|Decimal(n)| - 1] == Decimal(n / 10);
    }
  }

  lemma {:induction false} ShortDecimals(n: nat, width: nat, bound: nat)
    requires n < bound && width >= 1 && bound == Power10(width)
    ensures |Decimal(n)| <= width
  {
    assert Power10(0) == 1;
    if n >= 10 {
      ShortDecimals(n / 10, width - 1, Power10(width - 1));
    }
  }

  function Power10(n: nat): nat { if n == 0 then 1 else 10 * Power10(n - 1) }

  lemma CentsPad(cents: nat)
    requires cents < 100
    ensures var f := PadStart(Decimal(cents), 2); |f| == 2 && Digits(f) && Read(f) == cents
  {
    ReadsBack(cents);
    if cents < 10 {
      var d := Decimal(cents);
      assert PadStart(d, 2) == "0" + d;
      ReadNothing("");
      ReadGrows("", '0');
      ReadGrows("" + "0", d[0]);
      ReadGrows("", d[0]);
      assert "" + "0" + [d[0]] == "0" + d && "" + [d[0]] == d;
    } else {
      assert Decimal(cents / 10)[..0] == "";
    }
  }

  lemma NothingToTrim(s: string)
    requires s != "" && IsDigit(s[0]) && IsDigit(s[|s| - 1])
    ensures Trim(s) == s
  {
  }

  lemma EightDigits(n: nat)
    requires n < 100_000_000
    ensures |Decimal(n)| <= 8
  {
    assert Power10(1) == 10 && Power10(2) == 100 && Power10(3) == 1000 && Power10(4) == 10_000;
    assert Power10(5) == 100_000 && Power10(6) == 1_000_000 && Power10(7) == 10_000_000;
    ShortDecimals(n, 8, 100_000_000);
  }

  lemma ParsesWritten(s: string, whole: string, cents: string)
    requires Written(s, Amount(whole, cents)) && |cents| == 2
    requires 1 <= Read(whole) * 100 + Read(cents) <= MAX_MINOR
    ensures ParseAmountMinor(s) == Some(Read(whole) * 100 + Read(cents))
  {
    hide Read, TrimStart, TrimEnd, PadEnd;
    assert s == whole + "." + cents;
    assert s[0] == whole[0] && s[|s| - 1] == cents[1];
    NothingToTrim(s);
    WrittenMatches(s, Amount(whole, cents));
    PadReads(cents);
  }

  /** Parsing a printed amount gives it back. */
  lemma RoundTrip(minor: nat)
    requires 1 <= minor <= MAX_MINOR
    ensures ParseAmountMinor(FormatMinor(minor)) == Some(minor)
  {
    hide Decimal, PadStart, Read, ParseAmountMinor;
    var whole, cents := Decimal(minor / 100), PadStart(Decimal(minor % 100), 2);
    CentsPad(minor % 100);
    ReadsBack(minor / 100);
    EightDigits(minor / 100);
    assert Written(FormatMinor(minor), Amount(whole, cents));
    ParsesWritten(FormatMinor(minor), whole, cents);
  }

  /** Printing is injective, beyond the range the parser accepts as well. */
  lemma PrintingTells(m: nat, n: nat)
    requires FormatMinor(m) == FormatMinor(n)
    ensures m == n
  {
    var s := FormatMinor(m);
    CentsPad(m % 100);
    CentsPad(n % 100);
    assert s[..|s| - 3] == Decimal(m / 100) && s[..|s| - 3] == Decimal(n / 100);
    assert s[|s| - 2..] == PadStart(Decimal(m % 100), 2) && s[|s| - 2..] == PadStart(Decimal(n % 100), 2);
    ReadsBack(m / 100);
    ReadsBack(n / 100);
  }
}
