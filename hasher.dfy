/**
 * `hash_passwd`: the SHA-1 digest of salt and password, hex-encoded, upper-cased and cut
 * down to `hash_length` characters. The digest primitive is a parameter.
 */
module Hasher {
  import opened Chars
  import opened Random

  /** `DEFAULT_HASH_LENGTH`. */
  const DefaultHashLength: int := 16

  /** `hexdigest()` of a SHA-1 digest: 40 lower-case hexadecimal characters. */
  type HexDigest = s: string | IsLowerHexString(s, 40)
    witness "0000000000000000000000000000000000000000"

  /** The SHA-1 primitive, from the bytes hashed to their hex digest. */
  type Sha1 = string -> HexDigest

  function Min(a: int, b: int): int { if a < b then a else b }
  function Max(a: int, b: int): int { if a < b then b else a }

  /**
   * Python's `s[:n]`: the first `n` characters (all of them when `n` is at least `|s|`);
   * a negative `n` drops the last `-n` characters instead.
   */
  function Head(s: string, n: int): (r: string)
    ensures |r| == if 0 <= n then Min(n, |s|) else Max(|s| + n, 0)
    ensures r == s[..|r|]
  {
    if |s| <= n then s
    else if 0 <= n then s[..n]
    else if 0 <= |s| + n then s[..|s| + n]
    else ""
  }

  /** `str.upper` on ASCII text. */
  function ToUpper(s: string): string {
    seq(|s|, i requires 0 <= i < |s| => UpperChar(s[i]))
  }

  /** `str.lower` on ASCII text. */
  function ToLower(s: string): string {
    seq(|s|, i requires 0 <= i < |s| => LowerChar(s[i]))
  }

  /** Upper-casing a hex digest gives upper-case hex digits, and lower-casing undoes it. */
  lemma UpperHexDigest(d: HexDigest)
    ensures forall c | c in ToUpper(d) :: IsUpperHex(c)
    ensures ToLower(ToUpper(d)) == d
  {
    forall i | 0 <= i < |d| ensures IsUpperHex(ToUpper(d)[i]) && LowerChar(ToUpper(d)[i]) == d[i] {
      UpperLowerHex(d[i]);
    }
  }

  /**
   * `hash_passwd(passwd, hash_length)` once `uuid.uuid4().hex` has produced `salt`: the digest of
   * salt followed by password, upper-cased, first `hash_length` characters (all 40 when it is
   * larger; a negative length drops characters from the end instead).
   */
  function HashPasswd(sha1: Sha1, salt: Salt, passwd: string, hashLength: int): (hashed: string)
    ensures |hashed| == if 0 <= hashLength then Min(hashLength, 40) else Max(40 + hashLength, 0)
  {
    Head(ToUpper(sha1(salt + passwd)), hashLength)
  }

  /**
   * The truncated digest is a prefix of the upper-cased hex digest, made of upper-case hex digits
   * only, and lower-casing it gives back the same prefix of the digest itself.
   */
  lemma HashPasswdDigest(sha1: Sha1, salt: Salt, passwd: string, hashLength: int)
    ensures var hashed := HashPasswd(sha1, salt, passwd, hashLength);
      && hashed == ToUpper(sha1(salt + passwd))[..|hashed|]
      && (forall c | c in hashed :: IsUpperHex(c))
      && ToLower(hashed) == sha1(salt + passwd)[..|hashed|]
  {
    var digest := sha1(salt + passwd);
    UpperHexDigest(digest);
    var hashed := HashPasswd(sha1, salt, passwd, hashLength);
    assert ToLower(hashed) == ToLower(ToUpper(digest))[..|hashed|];
  }
}
