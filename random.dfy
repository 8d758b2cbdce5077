/**
 * The two sources of randomness a password sheet consumes, as oracles: the k-th value the
 * `random` module hands to `random.choice`, and the k-th `uuid.uuid4().hex`. A `Cursor`
 * counts how many of each have been consumed, so that successive calls see fresh values.
 */
module Random {
  import opened Chars

  /** `uuid.uuid4().hex`: 32 lower-case hexadecimal characters. */
  type Salt = s: string | IsLowerHexString(s, 32)
    witness "00000000000000000000000000000000"

  /**
   * `choice(k)` decides the k-th `random.choice`: it picks the character at index
   * `choice(k)` modulo the size of the alphabet. `uuid4(k)` is the k-th salt.
   */
  datatype Source = Source(choice: nat -> nat, uuid4: nat -> Salt)

  /** How many choices and how many salts have been drawn so far. */
  datatype Cursor = Cursor(draws: nat, salts: nat)
}
