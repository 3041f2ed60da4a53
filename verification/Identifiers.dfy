/** UUID texts. The services compare them after lower-casing; elsewhere in this project a UUID is
    the number its hexadecimal digits spell, which is the same thing. */
module Identifiers {
  import opened Contracts

  function LowerChar(c: char): char {
    if 'A' <= c <= 'Z' then (c as int + 32) as char else c
  }

  /** toLowerCase, on the ASCII range UUIDs are made of. */
  function Lower(text: string): (r: string)
    ensures |r| == |text|
    ensures forall i :: 0 <= i < |text| ==> r[i] == LowerChar(text[i])
  {
    seq(|text|, i requires 0 <= i < |text| => LowerChar(text[i]))
  }

  predicate IsHex(c: char) { '0' <= c <= '9' || 'a' <= c <= 'f' || 'A' <= c <= 'F' }

  function Digit(c: char): (d: nat)
    requires IsHex(c)
    ensures d < 16
  {
    if c <= '9' then c as int - '0' as int
    else if c <= 'F' then c as int - 'A' as int + 10
    else c as int - 'a' as int + 10
  }

  predicate IsHyphen(i: nat) { i in {8, 13, 18, 23} }

  /** Eight, four, four, four and twelve hexadecimal digits in either case. */
  predicate IsUuid(text: string) {
    |text| == 36 && forall i :: 0 <= i < 36 ==> if IsHyphen(i) then text[i] == '-' else IsHex(text[i])
  }

  /** The number spelled by the first `n` characters, hyphens aside. */
  function Spelled(text: string, n: nat): nat
    requires IsUuid(text) && n <= 36
  {
    if n == 0 then 0
    else if IsHyphen(n - 1) then Spelled(text, n - 1)
    else 16 * Spelled(text, n - 1) + Digit(text[n - 1])
  }

  function Value(text: string): Uuid
    requires IsUuid(text)
  {
    Spelled(text, 36)
  }

  lemma SameDigitSameLower(c: char, d: char)
    requires IsHex(c) && IsHex(d)
    ensures Digit(c) == Digit(d) <==> LowerChar(c) == LowerChar(d)
  {
  }

  lemma {:induction false} SpelledAlike(a: string, b: string, n: nat)
    requires IsUuid(a) && IsUuid(b) && n <= 36
    ensures Spelled(a, n) == Spelled(b, n) <==> forall i :: 0 <= i < n ==> LowerChar(a[i]) == LowerChar(b[i])
  {
    if n > 0 {
      SpelledAlike(a, b, n - 1);
      if !IsHyphen(n - 1) {
        SameDigitSameLower(a[n - 1], b[n - 1]);
      }
    }
  }

  /** Two UUID texts are the same up to case exactly when they spell the same number. */
  lemma ValueIdentifies(a: string, b: string)
    requires IsUuid(a) && IsUuid(b)
    ensures Lower(a) == Lower(b) <==> Value(a) == Value(b)
  {
    SpelledAlike(a, b, 36);
    if Value(a) == Value(b) {
      assert Lower(a) == Lower(b);
    } else {
      var i :| 0 <= i < 36 && LowerChar(a[i]) != LowerChar(b[i]);
      assert Lower(a)[i] != Lower(b)[i];
    }
  }

  lemma LowerIsUuid(text: string)
    requires IsUuid(text)
    ensures IsUuid(Lower(text)) && Lower(Lower(text)) == Lower(text) && Value(Lower(text)) == Value(text)
  {
    ValueIdentifies(Lower(text), text);
  }

  // ---------- The text of a number ----------

  /** How many numbers `n` characters can spell. */
  function Room(n: nat): (r: nat)
    ensures r > 0
  {
    if n == 0 then 1 else if IsHyphen(n - 1) then Room(n - 1) else 16 * Room(n - 1)
  }

  /** The number of UUIDs, 2 to the 128th. */
  const UUIDS: nat := 0x1_0000_0000_0000_0000_0000_0000_0000_0000

  /** Four digits in a row. */
  lemma RoomForFour(n: nat)
    requires forall i :: n <= i < n + 4 ==> !IsHyphen(i)
    ensures Room(n + 4) == 0x1_0000 * Room(n)
  {
    assert !IsHyphen(n) && !IsHyphen(n + 1) && !IsHyphen(n + 2) && !IsHyphen(n + 3);
    assert Room(n + 1) == 16 * Room(n);
    assert Room(n + 2) == 16 * Room(n + 1);
    assert Room(n + 3) == 16 * Room(n + 2);
    assert Room(n + 4) == 16 * Room(n + 3);
  }

  lemma RoomForHyphen(n: nat)
    requires IsHyphen(n)
    ensures Room(n + 1) == Room(n)
  {
  }

  lemma RoomForUuids()
    ensures Room(36) == UUIDS
  {
    assert Room(0) == 1;
    hide Room;
    RoomForFour(0);
    RoomForFour(4);
    RoomForHyphen(8);
    RoomForFour(9);
    RoomForHyphen(13);
    RoomForFour(14);
    RoomForHyphen(18);
    RoomForFour(19);
    RoomForHyphen(23);
    RoomForFour(24);
    RoomForFour(28);
    RoomForFour(32);
  }

  function HexChar(d: nat): (c: char)
    requires d < 16
    ensures IsHex(c) && Digit(c) == d && LowerChar(c) == c
  {
    if d < 10 then (d + '0' as int) as char else (d - 10 + 'a' as int) as char
  }

  function Written(u: nat, n: nat): (text: string)
    requires u < Room(n) && n <= 36
    ensures |text| == n
    ensures forall i :: 0 <= i < n ==>
      if IsHyphen(i) then text[i] == '-' else IsHex(text[i]) && LowerChar(text[i]) == text[i]
  {
    if n == 0 then ""
    else if IsHyphen(n - 1) then Written(u, n - 1) + "-"
    else Written(u / 16, n - 1) + [HexChar(u % 16)]
  }

  /** The lower-case text of a UUID. */
  function TextOf(u: Uuid): (text: string)
    requires u < UUIDS
    ensures IsUuid(text) && Lower(text) == text
  {
    RoomForUuids();
    var text := Written(u, 36);
    assert Lower(text) == text;
    text
  }

  lemma {:induction false} SpelledInRoom(text: string, n: nat)
    requires IsUuid(text) && n <= 36
    ensures Spelled(text, n) < Room(n)
  {
    if n > 0 {
      SpelledInRoom(text, n - 1);
    }
  }

  lemma {:induction false} WrittenSpells(u: nat, n: nat, text: string)
    requires IsUuid(text) && n <= 36 && u < Room(n) && text[..n] == Written(u, n)
    ensures Spelled(text, n) == u
  {
    if n > 0 {
      var front := if IsHyphen(n - 1) then u else u / 16;
      LastWritten(u, n, text);
      hide Written;
      WrittenSpells(front, n - 1, text);
    }
  }

  lemma LastWritten(u: nat, n: nat, text: string)
    requires IsUuid(text) && 0 < n <= 36 && u < Room(n) && text[..n] == Written(u, n)
    ensures
      var front := if IsHyphen(n - 1) then u else u / 16;
      front < Room(n - 1) && text[..n - 1] == Written(front, n - 1)
    ensures !IsHyphen(n - 1) ==> IsHex(text[n - 1]) && Digit(text[n - 1]) == u % 16
  {
    assert text[..n - 1] == text[..n][..n - 1];
    assert text[n - 1] == text[..n][n - 1];
  }

  /** Numbers below 2 to the 128th and lower-case UUID texts are the same thing. */
  lemma TextsAreNumbers(u: Uuid, text: string)
    requires u < UUIDS && IsUuid(text)
    ensures Value(TextOf(u)) == u
    ensures Value(text) < UUIDS && TextOf(Value(text)) == Lower(text)
  {
    WrittenAll(u);
    RoomForUuids();
    SpelledInRoom(text, 36);
    WrittenAll(Value(text));
    ValueIdentifies(TextOf(Value(text)), text);
  }

  lemma WrittenAll(u: Uuid)
    requires u < UUIDS
    ensures Value(TextOf(u)) == u
  {
    RoomForUuids();
    assert TextOf(u)[..36] == Written(u, 36);
    WrittenSpells(u, 36, TextOf(u));
  }
}
