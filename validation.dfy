/**
 * The input validators of the request handlers. Each regular expression is
 * restated as a predicate on characters: `.` is any character but a line
 * feed, `\s` is Unicode white space, `$` is the end of the text, and counts
 * like `{3,15}` count characters.
 */
module Validation {
  import opened Wrappers
  import opened Text
  import opened Uuids
  import opened Errors
  import opened Models

  /** The class `[a-z-A-Z-0-9-_]`: the `-` between ranges is a literal, so letters, digits, `-` and `_`. */
  predicate UsernameChar(c: char) { IsAlnum(c) || c == '-' || c == '_' }

  /** `^[a-z-A-Z-0-9-_]{3,15}$`. */
  predicate UsernamePattern(s: string)
  {
    3 <= |s| <= 15 && forall i :: 0 <= i < |s| ==> UsernameChar(s[i])
  }

  function ValidateUsername(s: string): (r: Result<bool, Error>)
    ensures r.Ok? ==> r.value
    ensures r.Err? ==> r.error == CredsFormat
  {
    if UsernamePattern(s) then Ok(true) else Err(CredsFormat)
  }

  /** A valid username is ASCII, so its length in bytes is its length in characters. */
  lemma UsernameIsAscii(s: string)
    requires ValidateUsername(s).Ok?
    ensures Utf8Len(s) == |s| && 3 <= |s| <= 15
  {
    Utf8LenBounds(s);
  }

  /** No string that parses as a UUID is a valid username: every UUID form is longer than 15 characters. */
  lemma UuidIsNeverUsername(s: string)
    requires TryParse(s).Some?
    ensures ValidateUsername(s) == Err(CredsFormat)
  {
  }

  predicate HasDigit(s: string) { exists i :: 0 <= i < |s| && IsDigit(s[i]) }
  predicate HasUpper(s: string) { exists i :: 0 <= i < |s| && IsUpper(s[i]) }
  predicate HasLower(s: string) { exists i :: 0 <= i < |s| && IsLower(s[i]) }
  predicate AllAlnum(s: string) { forall i :: 0 <= i < |s| ==> IsAlnum(s[i]) }

  /** `.{0,9}`: at most nine characters, none a line feed. */
  predicate ShortLine(s: string) { |s| <= 9 && forall i :: 0 <= i < |s| ==> s[i] != '\n' }

  /** `^(.{0,9}|[^0-9]*|[^A-Z]*|[^a-z]*|[a-zA-Z0-9]*)$`: the pattern of a weak password. */
  predicate WeakPasswordPattern(s: string)
  {
    ShortLine(s) || !HasDigit(s) || !HasUpper(s) || !HasLower(s) || AllAlnum(s)
  }

  /** A password is accepted when it does not match the weak pattern and has at most 30 bytes. */
  function ValidatePassword(s: string): (r: Result<bool, Error>)
    ensures r.Ok? ==> r.value
    ensures r.Err? ==> r.error == CredsFormat
  {
    if !WeakPasswordPattern(s) && Utf8Len(s) <= 30 then Ok(true) else Err(CredsFormat)
  }

  /** An accepted password has a digit, an upper-case and a lower-case letter, a character outside `[a-zA-Z0-9]`, and at most 30 bytes. */
  lemma AcceptedPasswordIsStrong(s: string)
    requires ValidatePassword(s).Ok?
    ensures HasDigit(s) && HasUpper(s) && HasLower(s) && !AllAlnum(s) && Utf8Len(s) <= 30
  {
  }

  /** A password of at most nine characters without a line feed is refused. */
  lemma ShortPasswordRejected(s: string)
    requires |s| <= 9 && forall i :: 0 <= i < |s| ==> s[i] != '\n'
    ensures ValidatePassword(s) == Err(CredsFormat)
  {
  }

  /** An accepted password has between 4 and 30 characters, and at least 10 when it holds no line feed. */
  lemma AcceptedPasswordLength(s: string)
    requires ValidatePassword(s).Ok?
    ensures 4 <= |s| <= 30
    ensures (forall i :: 0 <= i < |s| ==> s[i] != '\n') ==> |s| >= 10
  {
    Utf8LenBounds(s);
    var d :| 0 <= d < |s| && IsDigit(s[d]);
    var u :| 0 <= u < |s| && IsUpper(s[u]);
    var l :| 0 <= l < |s| && IsLower(s[l]);
    var o :| 0 <= o < |s| && !IsAlnum(s[o]);
    assert d != u && d != l && d != o && u != l && u != o && l != o;
    assert d >= 3 || u >= 3 || l >= 3 || o >= 3;
  }

  /** The "10 to 30 characters" bound is not what the pattern enforces: a line feed lets a four-character password through. */
  lemma NewlinePasswordAccepted()
    ensures ValidatePassword("aA1\n") == Ok(true)
  {
    var s := "aA1\n";
    assert IsDigit(s[2]) && IsUpper(s[1]) && IsLower(s[0]) && !IsAlnum(s[3]);
    assert !ShortLine(s);
    assert Utf8Len(s) == 4 by {
      assert s[1..][1..][1..][1..] == [];
    }
  }

  /** `get_identifier`: a string that parses as a UUID names that id; otherwise it must be a valid username. */
  function GetIdentifier(s: string): (r: Result<Identifier, Error>)
    ensures TryParse(s).Some? ==> r == Ok(ByUuid(TryParse(s).value))
    ensures TryParse(s).None? && ValidateUsername(s).Ok? ==> r == Ok(ByUsername(s))
    ensures r.Err? <==> TryParse(s).None? && ValidateUsername(s).Err?
    ensures r.Err? ==> r.error == CredsFormat
  {
    match TryParse(s)
    case Some(u) => Ok(ByUuid(u))
    case None =>
      match ValidateUsername(s)
      case Err(e) => Err(e)
      case Ok(_) => Ok(ByUsername(s))
  }

  /** The printed form of an id identifies that id. */
  lemma IdentifierOfPrintedUuid(u: Uuid)
    ensures GetIdentifier(Hyphenated(u)) == Ok(ByUuid(u))
  {
    ParseHyphenatedForm(u);
  }

  /** A valid username identifies itself: it can never be mistaken for an id. */
  lemma IdentifierOfUsername(s: string)
    requires ValidateUsername(s).Ok?
    ensures GetIdentifier(s) == Ok(ByUsername(s))
  {
    if TryParse(s).Some? {
      UuidIsNeverUsername(s);
    }
  }

  /** `^[a-z-A-Z]{1,50}$`: letters and `-`, 1 to 50 characters. */
  predicate NameOk(s: string)
  {
    1 <= |s| <= 50 && forall i :: 0 <= i < |s| ==> IsLetter(s[i]) || s[i] == '-'
  }

  /** `^[a-z-A-Z-0-9-,-.-\s]{1,125}$`: letters, digits, white space, `,`, `-` and `.` (the range `,-.`), 1 to 125 characters. */
  predicate AddressOk(s: string)
  {
    1 <= |s| <= 125
    && forall i :: 0 <= i < |s| ==> IsAlnum(s[i]) || IsWhiteSpace(s[i]) || s[i] == ',' || s[i] == '-' || s[i] == '.'
  }

  /** `^[0-9]{13,16}$`. */
  predicate CardNumberOk(s: string) { 13 <= |s| <= 16 && AllDigits(s) }

  /** `^[0-9]{3,4}$`. */
  predicate CvcOk(s: string) { 3 <= |s| <= 4 && AllDigits(s) }

  /** `(^1[0-2]$|^0[1-9]|^[1-9])$`: each alternative starts at the beginning and the match ends at the end. */
  predicate ExpMonthOk(s: string)
  {
    (|s| == 2 && s[0] == '1' && '0' <= s[1] <= '2')
    || (|s| == 2 && s[0] == '0' && '1' <= s[1] <= '9')
    || (|s| == 1 && '1' <= s[0] <= '9')
  }

  /** `^[0-9]{2}$`. */
  predicate ExpYearOk(s: string) { |s| == 2 && AllDigits(s) }

  /** Every field of the payment matches its pattern. */
  predicate Compliant(p: Payment)
  {
    NameOk(p.firstName) && NameOk(p.lastName) && AddressOk(p.address) && CardNumberOk(p.cardNumber)
    && CvcOk(p.cvc) && ExpMonthOk(p.expMonth) && ExpYearOk(p.expYear)
  }

  lemma DecimalOfOneDigit(s: string)
    requires |s| == 1 && AllDigits(s)
    ensures DecimalValue(s) == DigitValue(s[0])
  {
    assert s[..0] == [];
  }

  lemma DecimalOfTwoDigits(s: string)
    requires |s| == 2 && AllDigits(s)
    ensures DecimalValue(s) == DigitValue(s[0]) * 10 + DigitValue(s[1])
  {
    assert s[..1] == [s[0]];
    DecimalOfOneDigit(s[..1]);
  }

  /** The month pattern accepts exactly the one- or two-digit numerals of 1 to 12 ("1" to "9", "01" to "09", "10" to "12"). */
  lemma ExpMonthIsMonthNumeral(s: string)
    ensures ExpMonthOk(s) <==> 1 <= |s| <= 2 && AllDigits(s) && 1 <= DecimalValue(s) <= 12
  {
    if |s| == 2 && AllDigits(s) {
      DecimalOfTwoDigits(s);
    } else if |s| == 1 && AllDigits(s) {
      DecimalOfOneDigit(s);
    }
  }

  /** The name pattern admits a hyphen, so double-barrelled names pass (as does a lone "-"). */
  lemma NameAdmitsHyphen()
    ensures NameOk("Mary-Jane") && NameOk("-")
  {
  }
}
