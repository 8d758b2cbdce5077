/** `generate_passwd_pair`: one password and the truncated digest of that same password. */
module Pair {
  import opened Random
  import opened Generator
  import opened Hasher

  /**
   * `generate_passwd_pair(with_chars, with_special_chars, passwd_length)`: one flag enables both
   * letter cases; the password drawn is returned together with `hash_passwd` of it at the default
   * hash length, the salt being the next `uuid4` value.
   */
  method GeneratePasswdPair(rng: Source, sha1: Sha1, cur: Cursor, withChars: bool, withSpecial: bool,
                            passwdLength: int) returns (passwd: string, hashed: string, next: Cursor)
    ensures passwd == Password(rng, cur.draws, withChars, withChars, withSpecial, passwdLength)
    ensures hashed == HashPasswd(sha1, rng.uuid4(cur.salts), passwd, DefaultHashLength)
    ensures |hashed| == 16
    ensures next == Cursor(cur.draws + |passwd|, cur.salts + 1)
  {
    var draws;
    passwd, draws := GeneratePasswd(rng, cur.draws, withChars, withChars, withSpecial, passwdLength);
    var salt := rng.uuid4(cur.salts);
    hashed := HashPasswd(sha1, salt, passwd, DefaultHashLength);
    next := Cursor(draws, cur.salts + 1);
  }
}
