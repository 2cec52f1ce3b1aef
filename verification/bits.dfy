/** Bit strings and the integers they denote, as the bit dispenser of
xorshift_rng.h hands them out: a served bit string is read most significant bit
first, either as an unsigned number or in two's complement.
 */
module Bits {

  /** The C types of the interface: `uint8_t` and `int8_t`. */
  type uint8 = x: int | 0 <= x < 0x100
  type int8 = x: int | -0x80 <= x < 0x80

  function Pow2(n: nat): (p: int)
    ensures p > 0
  {
    if n == 0 then 1 else 2 * Pow2(n - 1)
  }

  /** Powers of two grow with the exponent. */
  lemma {:induction false} Pow2Monotone(m: nat, n: nat)
    requires m <= n
    ensures Pow2(m) <= Pow2(n)
    decreases n
  {
    if m < n {
      Pow2Monotone(m, n - 1);
    }
  }

  function BitValue(b: bool): nat
  {
    if b then 1 else 0
  }

  /** Bit i (0 = least significant) of a byte. */
  function BitOf(b: bv8, i: nat): bool
    requires i < 8
  {
    (b >> i) & 1 == 1
  }

  /** Unsigned value of a bit string whose first bit is the most significant:
      bit k carries weight 2^(|bits| - 1 - k). */
  ghost function Value(bits: seq<bool>): (v: nat)
    ensures v < Pow2(|bits|)
  {
    if |bits| == 0 then 0
    else (if bits[0] then Pow2(|bits| - 1) else 0) + Value(bits[1..])
  }

  /** Shifting a value left by one place and putting a bit in the freed low
      place appends that bit to the string the value denotes. */
  lemma {:induction false} ValueAppend(bits: seq<bool>, b: bool)
    ensures Value(bits + [b]) == 2 * Value(bits) + BitValue(b)
    decreases |bits|
  {
    if |bits| > 0 {
      assert (bits + [b])[1..] == bits[1..] + [b];
      ValueAppend(bits[1..], b);
    }
  }

  /** The first bit of a string is set exactly when its value reaches the
      upper half of the range. */
  lemma LeadingBit(bits: seq<bool>)
    requires |bits| > 0
    ensures bits[0] <==> Value(bits) >= Pow2(|bits| - 1)
  {
  }

  /** Subtracting the modulus does not change a residue. */
  lemma Wrap(u: int, m: int)
    requires 0 <= u < m
    ensures u % m == u && (u - m) % m == u
  {
    assert u - m == -1 * m + u;
  }

  /** Two's complement value of a non-empty bit string: the first bit is the
      sign and carries weight -2^(|bits| - 1). */
  ghost function TwosComplement(bits: seq<bool>): (v: int)
    requires |bits| > 0
    ensures -Pow2(|bits| - 1) <= v < Pow2(|bits| - 1)
    ensures v < 0 <==> bits[0]
  {
    LeadingBit(bits);
    if bits[0] then Value(bits) - Pow2(|bits|) else Value(bits)
  }

  /** Reading the bits in two's complement and reducing modulo 2^|bits|
      gives back their unsigned reading: the two readings are the same bit
      pattern. */
  lemma TwosComplementPattern(bits: seq<bool>)
    requires |bits| > 0
    ensures TwosComplement(bits) % Pow2(|bits|) == Value(bits)
  {
    Wrap(Value(bits), Pow2(|bits|));
  }

  /** The bits of a byte in the order the dispenser serves them: least
      significant first. */
  function ByteBits(b: bv8): (bits: seq<bool>)
    ensures |bits| == 8
    ensures forall i :: 0 <= i < 8 ==> bits[i] == BitOf(b, i)
  {
    seq(8, i requires 0 <= i < 8 => BitOf(b, i))
  }
}
