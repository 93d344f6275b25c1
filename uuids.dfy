/**
 * The textual forms of a UUID that the service relies on: `Uuid::try_parse`
 * (identifier parsing in the admin routes) and the hyphenated lower-case
 * `to_string` (the transaction id). A UUID is its 32 hexadecimal digits.
 */
module Uuids {
  import opened Wrappers
  import opened Text

  type Nibble = x: int | 0 <= x < 16

  type Uuid = s: seq<Nibble> | |s| == 32 witness seq(32, _ => 0)

  /** Lower-case hexadecimal digit, as the hyphenated form prints it. */
  function HexDigit(n: Nibble): (c: char)
  {
    if n < 10 then ('0' as int + n) as char else ('a' as int + n - 10) as char
  }

  /** Value of a hexadecimal digit of either case; `None` for any other character. */
  function HexValue(c: char): (r: Option<Nibble>)
    ensures r.Some? <==> IsDigit(c) || 'a' <= c <= 'f' || 'A' <= c <= 'F'
  {
    if IsDigit(c) then Some(c as int - '0' as int)
    else if 'a' <= c <= 'f' then Some(c as int - 'a' as int + 10)
    else if 'A' <= c <= 'F' then Some(c as int - 'A' as int + 10)
    else None
  }

  predicate IsHex(c: char) { HexValue(c).Some? }

  lemma HexValueOfDigit(n: Nibble)
    ensures HexValue(HexDigit(n)) == Some(n)
    ensures IsDigit(HexDigit(n)) || 'a' <= HexDigit(n) <= 'f'
  {
  }

  /** Positions of the four hyphens in the 36-character hyphenated form 8-4-4-4-12. */
  predicate IsHyphenPos(j: int) { j == 8 || j == 13 || j == 18 || j == 23 }

  /** Position in the hyphenated form of the i-th hexadecimal digit. */
  function CharIndex(i: nat): (j: nat)
    requires i < 32
    ensures j < 36 && !IsHyphenPos(j)
  {
    if i < 8 then i else if i < 12 then i + 1 else if i < 16 then i + 2 else if i < 20 then i + 3 else i + 4
  }

  /** Which hexadecimal digit stands at a non-hyphen position of the hyphenated form. */
  function NibbleIndex(j: nat): (i: nat)
    requires j < 36 && !IsHyphenPos(j)
    ensures i < 32 && CharIndex(i) == j
  {
    if j < 8 then j else if j < 13 then j - 1 else if j < 18 then j - 2 else if j < 23 then j - 3 else j - 4
  }

  /** `Uuid::to_string`: the hyphenated, lower-case form. */
  function Hyphenated(u: Uuid): (s: string)
    ensures |s| == 36
    ensures forall j :: 0 <= j < 36 && IsHyphenPos(j) ==> s[j] == '-'
    ensures forall i :: 0 <= i < 32 ==> s[CharIndex(i)] == HexDigit(u[i])
  {
    seq(36, j requires 0 <= j < 36 => if IsHyphenPos(j) then '-' else HexDigit(u[NibbleIndex(j)]))
  }

  /** The 32-digit form without hyphens. */
  function ParseSimple(s: string): (r: Option<Uuid>)
    requires |s| == 32
  {
    if forall i :: 0 <= i < 32 ==> IsHex(s[i])
    then Some(seq(32, i requires 0 <= i < 32 => HexValue(s[i]).value))
    else None
  }

  /** The 36-character form with hyphens after digits 8, 12, 16 and 20. */
  function ParseHyphenated(s: string): (r: Option<Uuid>)
    requires |s| == 36
  {
    if s[8] == '-' && s[13] == '-' && s[18] == '-' && s[23] == '-'
       && forall i :: 0 <= i < 32 ==> IsHex(s[CharIndex(i)])
    then Some(seq(32, i requires 0 <= i < 32 => HexValue(s[CharIndex(i)]).value))
    else None
  }

  /**
   * `Uuid::try_parse`: the simple form, the hyphenated form, the hyphenated
   * form in braces, or the hyphenated form after `urn:uuid:`.
   */
  function TryParse(s: string): (r: Option<Uuid>)
    ensures r.Some? ==> |s| in {32, 36, 38, 45}
  {
    if |s| == 32 then ParseSimple(s)
    else if |s| == 36 then ParseHyphenated(s)
    else if |s| == 38 && s[0] == '{' && s[37] == '}' then ParseHyphenated(s[1..37])
    else if |s| == 45 && s[..9] == "urn:uuid:" then ParseHyphenated(s[9..])
    else None
  }

  /** Parsing the printed form of a UUID gives that UUID back. */
  lemma {:induction false} ParseHyphenatedForm(u: Uuid)
    ensures TryParse(Hyphenated(u)) == Some(u)
  {
    var s := Hyphenated(u);
    forall i | 0 <= i < 32
      ensures HexValue(s[CharIndex(i)]) == Some(u[i])
    {
      HexValueOfDigit(u[i]);
    }
    var v: seq<Nibble> := seq(32, i requires 0 <= i < 32 => HexValue(s[CharIndex(i)]).value);
    assert v == u;
  }

  /** Every character of the printed form other than the four hyphens is a lower-case hexadecimal digit. */
  lemma HyphenatedIsLowerHex(u: Uuid, j: nat)
    requires j < 36 && !IsHyphenPos(j)
    ensures IsDigit(Hyphenated(u)[j]) || 'a' <= Hyphenated(u)[j] <= 'f'
  {
    HexValueOfDigit(u[NibbleIndex(j)]);
  }
}
