/** The character sets a password sheet draws from, and the character classes they stand for. */
module Chars {

  /** `string.digits`: the alphabet every password starts from. */
  const Digits: string := "0123456789"
  /** `UPPER_CHARS`, that is `string.ascii_uppercase`. */
  const UpperChars: string := "ABCDEFGHIJKLMNOPQRSTUVWXYZ"
  /** `LOWER_CHARS`, that is `string.ascii_lowercase`. */
  const LowerChars: string := "abcdefghijklmnopqrstuvwxyz"
  /** `SPECIAL_CHARS`. */
  const SpecialChars: string := "!@#$%^&*"

  predicate IsDigit(c: char) { '0' <= c <= '9' }
  predicate IsUpperLetter(c: char) { 'A' <= c <= 'Z' }
  predicate IsLowerLetter(c: char) { 'a' <= c <= 'z' }
  predicate IsSpecial(c: char) {
    c == '!' || c == '@' || c == '#' || c == '$' || c == '%' || c == '^' || c == '&' || c == '*'
  }

  /** A character of a hexadecimal digest as `hexdigest()` writes it. */
  predicate IsLowerHex(c: char) { IsDigit(c) || 'a' <= c <= 'f' }
  /** `s` has `n` characters, each a lower-case hexadecimal digit. */
  predicate IsLowerHexString(s: string, n: nat) {
    |s| == n && forall i | 0 <= i < |s| :: IsLowerHex(s[i])
  }

  /** A character of a hexadecimal digest after `upper()`. */
  predicate IsUpperHex(c: char) { IsDigit(c) || 'A' <= c <= 'F' }

  /** `str.upper` on one ASCII character: lower-case letters move to upper case, all else stays. */
  function UpperChar(c: char): char {
    if IsLowerLetter(c) then (c as int - 32) as char else c
  }

  /** `str.lower` on one ASCII character, the inverse of `UpperChar` on hexadecimal digits. */
  function LowerChar(c: char): char {
    if IsUpperLetter(c) then (c as int + 32) as char else c
  }

  /** Upper-casing maps a lower-case hex digit to the upper-case hex digit of the same value. */
  lemma UpperLowerHex(c: char)
    requires IsLowerHex(c)
    ensures IsUpperHex(UpperChar(c))
    ensures LowerChar(UpperChar(c)) == c
  {
  }

  predicate NoDuplicates(s: string) {
    forall i, j | 0 <= i < j < |s| :: s[i] != s[j]
  }

  /** Every character of `s` is smaller than the next one. */
  predicate Ascending(s: string) {
    forall i | 0 <= i < |s| - 1 :: s[i] < s[i + 1]
  }

  /** A string whose neighbours ascend is strictly increasing throughout, so it repeats nothing. */
  lemma {:induction false} AscendingNoDuplicates(s: string)
    requires Ascending(s)
    ensures forall i, j | 0 <= i < j < |s| :: s[i] < s[j]
    ensures NoDuplicates(s)
  {
    if |s| > 1 {
      var init := s[..|s| - 1];
      assert Ascending(init);
      AscendingNoDuplicates(init);
      forall i, j | 0 <= i < j < |s| ensures s[i] < s[j] {
        if j < |s| - 1 {
          assert init[i] < init[j];
        } else if i < j - 1 {
          assert init[i] < init[j - 1];
        }
      }
    }
  }

  /** Two duplicate-free strings with no character in common concatenate to a duplicate-free string. */
  lemma DisjointConcat(a: string, b: string)
    requires NoDuplicates(a) && NoDuplicates(b)
    requires forall c | c in a :: c !in b
    ensures NoDuplicates(a + b)
  {
    forall i, j | 0 <= i < j < |a + b| ensures (a + b)[i] != (a + b)[j] {
      if i < |a| && |a| <= j {
        assert (a + b)[i] in a && (a + b)[j] in b;
      }
    }
  }

  /** Each of the four character sets is exactly its character class. */
  lemma CharacterSets(c: char)
    ensures c in Digits <==> IsDigit(c)
    ensures c in UpperChars <==> IsUpperLetter(c)
    ensures c in LowerChars <==> IsLowerLetter(c)
    ensures c in SpecialChars <==> IsSpecial(c)
  {
    UpperCharsClass(c);
    LowerCharsClass(c);
  }

  lemma UpperCharsClass(c: char)
    ensures c in UpperChars <==> IsUpperLetter(c)
  {
  }

  lemma LowerCharsClass(c: char)
    ensures c in LowerChars <==> IsLowerLetter(c)
  {
  }

  /** None of the four character sets repeats a character. */
  lemma CharacterSetsDistinct()
    ensures NoDuplicates(Digits) && NoDuplicates(UpperChars)
    ensures NoDuplicates(LowerChars) && NoDuplicates(SpecialChars)
  {
    assert Ascending(Digits);
    AscendingNoDuplicates(Digits);
    assert Ascending(UpperChars);
    AscendingNoDuplicates(UpperChars);
    assert Ascending(LowerChars);
    AscendingNoDuplicates(LowerChars);
  }
}
