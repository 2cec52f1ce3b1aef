/** The bit dispenser of xorshift_rng.h: `xorshift8_uint(n)` and
`xorshift8_int(n)` serve n and n + 1 bits from the buffer they share, pulling
a fresh byte from `xorshift8` whenever the buffer runs empty.

Bits are taken from the buffer least significant first and each one is
shifted into the low end of the result, so the first bit served becomes the
most significant bit of the value returned; for `xorshift8_int` that first bit
is the sign.
 */
module Dispenser {
  import opened Xorshift
  import opened Bits
  import opened Generator

  /** Moving the next byte of the stream into an empty buffer does not change
      the stream. */
  function Refill(g: Rng): (h: Rng)
    requires Valid(g) && g.count == 0
    ensures Valid(h) && h.count == 8
    ensures forall i: nat :: Ahead(h, i) == Ahead(g, i)
  {
    var (b, g') := Xorshift8(g);
    var h := g'.(buffer := b, count := 8);
    assert forall i: nat :: Ahead(h, i) == Ahead(g, i) by {
      forall i: nat ensures Ahead(h, i) == Ahead(g, i) {
        if i >= 8 {
          StreamShift(g.state, i - 8);
        }
      }
    }
    h
  }

  /** Shifting a byte right by one moves each bit one place down. */
  lemma ShiftDown(b: bv8, i: nat)
    requires i < 7
    ensures BitOf(b >> 1, i) == BitOf(b, i + 1)
  {
    match i
    case 0 => case 1 => case 2 => case 3 => case 4 => case 5 => case 6 =>
  }

  /** Serve one bit: refill the buffer with a `xorshift8` output when it is
      empty, then hand out its lowest unserved bit. */
  function TakeBit(g: Rng): (r: (bool, Rng))
    requires Valid(g)
    ensures Valid(r.1)
    ensures r.0 == Ahead(g, 0)
    ensures forall i: nat :: Ahead(r.1, i) == Ahead(g, i + 1)
    ensures r.1.state == if g.count == 0 then Next(g.state) else g.state
    ensures r.1.count == if g.count == 0 then 7 else g.count - 1
  {
    var h := if g.count == 0 then Refill(g) else g;
    var h' := h.(buffer := h.buffer >> 1, count := h.count - 1);
    assert forall i: nat :: Ahead(h', i) == Ahead(h, i + 1) by {
      forall i: nat ensures Ahead(h', i) == Ahead(h, i + 1) {
        if i < h'.count {
          ShiftDown(h.buffer, i);
        }
      }
    }
    (h.buffer & 1 == 1, h')
  }

  /** Serve n bits one after another, each shifted into the low end of the
      value: the value of the next n bits of the stream, first bit most
      significant. */
  function TakeBits(g: Rng, n: nat): (r: (nat, Rng))
    requires Valid(g)
    ensures Valid(r.1)
    ensures r.0 == Value(Upcoming(g, 0, n))
    ensures forall i: nat :: Ahead(r.1, i) == Ahead(g, n + i)
    decreases n
  {
    if n == 0 then (0, g)
    else
      var (v, h) := TakeBits(g, n - 1);
      var (b, h') := TakeBit(h);
      ValueAppend(Upcoming(g, 0, n - 1), b);
      assert Upcoming(g, 0, n) == Upcoming(g, 0, n - 1) + [b];
      (2 * v + BitValue(b), h')
  }

  /** `xorshift8_uint(n)`: for n in 1..8, the next n bits of the shared stream
      as an unsigned number in the low bits of the byte; any other n returns 0
      and leaves the generator as it was. */
  function Uint(g: Rng, n: uint8): (r: (uint8, Rng))
    requires Valid(g)
    ensures Valid(r.1)
    ensures 1 <= n <= 8 ==>
              && r.0 < Pow2(n)
              && r.0 == Value(Upcoming(g, 0, n))
              && forall i: nat :: Ahead(r.1, i) == Ahead(g, n + i)
    ensures !(1 <= n <= 8) ==> r.0 == 0 && r.1 == g
  {
    if 1 <= n <= 8 then
      var (v, h) := TakeBits(g, n);
      Pow2Monotone(n, 8);
      (v, h)
    else
      (0, g)
  }

  /** `xorshift8_int(n)`: for n in 1..7, the next n + 1 bits of the shared
      stream read in two's complement, a number in -(2^n) .. 2^n - 1; any
      other n returns 0 and leaves the generator as it was. */
  function Int(g: Rng, n: uint8): (r: (int8, Rng))
    requires Valid(g)
    ensures Valid(r.1)
    ensures 1 <= n <= 7 ==>
              && -Pow2(n) <= r.0 < Pow2(n)
              && r.0 == TwosComplement(Upcoming(g, 0, n + 1))
              && forall i: nat :: Ahead(r.1, i) == Ahead(g, n + 1 + i)
    ensures !(1 <= n <= 7) ==> r.0 == 0 && r.1 == g
  {
    if 1 <= n <= 7 then
      var (v, h) := TakeBits(g, n + 1);
      LeadingBit(Upcoming(g, 0, n + 1));
      Pow2Monotone(n, 7);
      (if v >= Pow2(n) then v - Pow2(n + 1) else v, h)
    else
      (0, g)
  }
}
