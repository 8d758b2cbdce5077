/**
 * `generate_passwd`: build an alphabet from the digits and the enabled character classes,
 * then draw `passwd_length` characters from it with `random.choice`.
 */
module Generator {
  import opened Chars
  import opened Random

  /** `DEFAULT_PASSWD_LENGTH`. */
  const DefaultPasswdLength: int := 6

  /** The number of iterations of `range(n)`: none when `n` is negative. */
  function RangeSize(n: int): nat {
    if n < 0 then 0 else n
  }

  /** The alphabet `generate_passwd` builds: the digits, then each enabled class, in this order. */
  function Alphabet(withUpper: bool, withLower: bool, withSpecial: bool): (chars: string)
    ensures |chars| == 10 + (if withUpper then 26 else 0) + (if withLower then 26 else 0)
                          + (if withSpecial then 8 else 0)
  {
    Digits + (if withUpper then UpperChars else "") + (if withLower then LowerChars else "")
      + (if withSpecial then SpecialChars else "")
  }

  /** The alphabet is laid out as the digits, then the upper-case, lower-case and special characters that are enabled. */
  lemma AlphabetLayout(withUpper: bool, withLower: bool, withSpecial: bool)
    ensures var chars := Alphabet(withUpper, withLower, withSpecial);
      && chars[..10] == Digits
      && (withUpper ==> chars[10..36] == UpperChars)
      && (withLower ==> var from := if withUpper then 36 else 10; chars[from..from + 26] == LowerChars)
      && (withSpecial ==> chars[|chars| - 8..] == SpecialChars)
  {
    var upper := Digits + (if withUpper then UpperChars else "");
    var lower := upper + (if withLower then LowerChars else "");
    var chars := lower + (if withSpecial then SpecialChars else "");
    assert chars == Alphabet(withUpper, withLower, withSpecial);
    assert chars[..|lower|] == lower && lower[..|upper|] == upper;
    assert upper[10..] == if withUpper then UpperChars else "";
    assert lower[|upper|..] == if withLower then LowerChars else "";
  }

  /**
   * The password `generate_passwd` returns when the random module's choices from position `at`
   * on are those of `rng`: `passwd_length` characters (none when it is negative, as `range` gives
   * no iterations then), the j-th picked from the alphabet by the choice at `at + j`.
   */
  function Password(rng: Source, at: nat, withUpper: bool, withLower: bool, withSpecial: bool,
                    passwdLength: int): (passwd: string)
    ensures |passwd| == RangeSize(passwdLength)
  {
    var chars := Alphabet(withUpper, withLower, withSpecial);
    seq(RangeSize(passwdLength),
        j requires 0 <= j => chars[rng.choice(at + j) % |chars|])
  }

  /**
   * `generate_passwd(with_upper_chars, with_lower_chars, with_special_chars, passwd_length)`,
   * consuming the random choices from position `at`; `next` is the position after the last one used.
   */
  method GeneratePasswd(rng: Source, at: nat, withUpper: bool, withLower: bool, withSpecial: bool,
                        passwdLength: int) returns (passwd: string, next: nat)
    ensures passwd == Password(rng, at, withUpper, withLower, withSpecial, passwdLength)
    ensures next == at + |passwd|
  {
    var chars := Digits;
    if withUpper {
      chars := chars + UpperChars;
    }
    if withLower {
      chars := chars + LowerChars;
    }
    if withSpecial {
      chars := chars + SpecialChars;
    }
    assert chars == Alphabet(withUpper, withLower, withSpecial);

    passwd := "";
    var i := 0;
    while i < passwdLength
      invariant 0 <= i <= RangeSize(passwdLength)
      invariant |passwd| == i
      invariant forall j | 0 <= j < i :: passwd[j] == chars[rng.choice(at + j) % |chars|]
    {
      passwd := passwd + [chars[rng.choice(at + i) % |chars|]];
      i := i + 1;
    }
    assert |passwd| == |Password(rng, at, withUpper, withLower, withSpecial, passwdLength)|;
    next := at + i;
  }

  /** Every character of a password is drawn from the alphabet its flags select. */
  lemma PasswordInAlphabet(rng: Source, at: nat, withUpper: bool, withLower: bool, withSpecial: bool,
                           passwdLength: int)
    ensures forall c | c in Password(rng, at, withUpper, withLower, withSpecial, passwdLength)
      :: c in Alphabet(withUpper, withLower, withSpecial)
  {
  }

  /**
   * A character is in the alphabet exactly when it is a digit or belongs to an enabled class,
   * and the alphabet never lists a character twice.
   */
  lemma AlphabetClasses(withUpper: bool, withLower: bool, withSpecial: bool)
    ensures forall c :: c in Alphabet(withUpper, withLower, withSpecial) <==>
      IsDigit(c) || (withUpper && IsUpperLetter(c)) || (withLower && IsLowerLetter(c))
        || (withSpecial && IsSpecial(c))
    ensures NoDuplicates(Alphabet(withUpper, withLower, withSpecial))
  {
    var upper := if withUpper then UpperChars else "";
    var lower := if withLower then LowerChars else "";
    var special := if withSpecial then SpecialChars else "";
    forall c ensures (c in Digits <==> IsDigit(c)) && (c in UpperChars <==> IsUpperLetter(c))
      && (c in LowerChars <==> IsLowerLetter(c)) && (c in SpecialChars <==> IsSpecial(c))
    {
      CharacterSets(c);
    }
    CharacterSetsDistinct();
    DisjointConcat(Digits, upper);
    DisjointConcat(Digits + upper, lower);
    DisjointConcat(Digits + upper + lower, special);
  }

  /** With every flag off the alphabet is `0123456789` and the password holds digits only. */
  lemma DigitsOnly(rng: Source, at: nat, passwdLength: int)
    ensures Alphabet(false, false, false) == "0123456789"
    ensures forall c | c in Password(rng, at, false, false, false, passwdLength) :: IsDigit(c)
  {
    AlphabetClasses(false, false, false);
    PasswordInAlphabet(rng, at, false, false, false, passwdLength);
  }

  /** The digits are always drawable, whatever the flags. */
  lemma DigitsAlwaysIncluded(withUpper: bool, withLower: bool, withSpecial: bool, c: char)
    requires IsDigit(c)
    ensures c in Alphabet(withUpper, withLower, withSpecial)
  {
    AlphabetClasses(withUpper, withLower, withSpecial);
  }

  /** No alphabet holds a space, so a password never starts with one. */
  lemma NoLeadingSpace(rng: Source, at: nat, withUpper: bool, withLower: bool, withSpecial: bool,
                       passwdLength: int)
    ensures var passwd := Password(rng, at, withUpper, withLower, withSpecial, passwdLength);
      |passwd| == 0 || passwd[0] != ' '
  {
    var passwd := Password(rng, at, withUpper, withLower, withSpecial, passwdLength);
    if |passwd| > 0 {
      PasswordInAlphabet(rng, at, withUpper, withLower, withSpecial, passwdLength);
      AlphabetClasses(withUpper, withLower, withSpecial);
      assert passwd[0] in Alphabet(withUpper, withLower, withSpecial);
    }
  }

  /** `generate_passwd()` with every default: six characters, each a digit. */
  lemma DefaultPassword(rng: Source, at: nat)
    ensures |Password(rng, at, false, false, false, DefaultPasswdLength)| == 6
    ensures forall c | c in Password(rng, at, false, false, false, DefaultPasswdLength) :: IsDigit(c)
  {
    DigitsOnly(rng, at, DefaultPasswdLength);
  }
}
