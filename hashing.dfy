/**
 * Password hashing. The Argon2 derivation is a deterministic function of the
 * password and the salt, taken as a parameter; the stored form of a hash is
 * the concatenation of the decimal forms of its bytes.
 */
module Hashing {
  import opened Text

  type Byte = x: int | 0 <= x < 256

  /** The raw hash of a password under a salt, with the service's fixed cost parameters. */
  type Argon = (string, string) -> seq<Byte>

  /** The textual form stored in the users table: each byte printed in decimal, with no separator. */
  function DbForm(hash: seq<Byte>): (s: string)
    ensures AllDigits(s)
    ensures |hash| <= |s| <= 3 * |hash|
  {
    if hash == [] then ""
    else
      var head := NatToString(hash[0]);
      NatToStringLength(hash[0], if hash[0] < 10 then 1 else if hash[0] < 100 then 2 else 3);
      head + DbForm(hash[1..])
  }

  /**
   * `create_hash` with its random salt given: the stored form of the hash of
   * the password under that salt, and the salt. The pair always verifies
   * against the password it was made from.
   */
  function CreateHash(argon: Argon, password: string, salt: string): (r: (string, string))
    ensures r.1 == salt
    ensures MatchHash(argon, password, r.0, r.1)
  {
    (DbForm(argon(password, salt)), salt)
  }

  /**
   * `match_hash`: recompute with the stored salt and compare the stored
   * forms. Only a decimal string of one to three digits per derived byte can
   * verify.
   */
  function MatchHash(argon: Argon, supplied: string, dbPassword: string, salt: string): (m: bool)
    ensures m ==> AllDigits(dbPassword) && |argon(supplied, salt)| <= |dbPassword| <= 3 * |argon(supplied, salt)|
  {
    DbForm(argon(supplied, salt)) == dbPassword
  }

  /**
   * The stored form forgets byte boundaries: two different raw hashes can
   * have the same stored form, and then either one verifies.
   */
  lemma DbFormNotInjective()
    ensures [1, 23] != [12, 3] && DbForm([1, 23]) == DbForm([12, 3]) == "123"
  {
    assert NatToString(23) == NatToString(2) + ['3'];
    assert NatToString(12) == NatToString(1) + ['2'];
  }
}
