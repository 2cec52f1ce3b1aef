/** The generator of xorshift_rng.h as one explicit value instead of the
unit's process-wide globals: the xorshift state word plus the bit buffer that
`xorshift8_uint` and `xorshift8_int` share. `xorshift8` and the bit requests
are pure functions from a generator to their result and the generator after
the call; seeding, which returns nothing, maps a generator to the seeded
generator.

The abstraction used throughout is the bit stream the dispenser will serve:
first the bits still in the buffer, then the bits of each later `xorshift8`
output, each byte least significant bit first.
 */
module Generator {
  import opened Xorshift
  import opened Bits
  import Cycle

  /** state: the xorshift state word; buffer: the byte bits are served from,
      already shifted so that its lowest bit is the next to serve; count: how
      many of the buffer's bits are still unserved. */
  datatype Rng = Rng(state: bv8, buffer: bv8, count: nat)

  /** What the unit maintains: the state is never zero (the seed must be
      non-zero) and the buffer never claims more than its 8 bits. */
  predicate Valid(g: Rng)
  {
    g.state != 0 && g.count <= 8
  }

  /** Bit i of the concatenated outputs of the `xorshift8` calls that follow
      state s, each output least significant bit first. */
  ghost function StreamBit(s: bv8, i: nat): bool
  {
    BitOf(Iter(s, i / 8 + 1), i % 8)
  }

  /** One byte further into the stream is the stream of the next state. */
  lemma StreamShift(s: bv8, i: nat)
    ensures StreamBit(s, i + 8) == StreamBit(Next(s), i)
  {
    assert (i + 8) / 8 + 1 == i / 8 + 2;
  }

  /** Quotient and remainder by 8 are the unique q, r with a == 8q + r. */
  lemma DivMod8(a: nat, q: nat, r: nat)
    requires r < 8 && a == 8 * q + r
    ensures a / 8 == q && a % 8 == r
  {
  }

  /** Moving 8k bits on moves k whole bytes on. */
  lemma ByteShift(k: nat, j: nat)
    ensures (8 * k + j) / 8 == k + j / 8 && (8 * k + j) % 8 == j % 8
  {
    DivMod8(8 * k + j, k + j / 8, j % 8);
  }

  /** The stream of the state k calls on is the stream of s from bit 8k. */
  lemma StreamAfter(s: bv8, k: nat, j: nat)
    ensures StreamBit(Iter(s, k), j) == StreamBit(s, 8 * k + j)
  {
    ByteShift(k, j);
    hide Iter, BitOf;
    IterAdd(s, k, j / 8 + 1);
  }

  /** Bit i of the stream the dispenser serves from g on: the unserved buffer
      bits, then the stream of the generator state. */
  ghost function Ahead(g: Rng, i: nat): bool
    requires g.count <= 8
  {
    if i < g.count then BitOf(g.buffer, i) else StreamBit(g.state, i - g.count)
  }

  /** The n bits of that stream starting at position from. */
  ghost function Upcoming(g: Rng, from: nat, n: nat): (bits: seq<bool>)
    requires g.count <= 8
    ensures |bits| == n
    ensures forall i :: 0 <= i < n ==> bits[i] == Ahead(g, from + i)
  {
    seq(n, i requires 0 <= i < n => Ahead(g, from + i))
  }

  /** The bits of a sequence of bytes laid end to end, each byte least
      significant bit first. */
  ghost function Concat(bytes: seq<bv8>): (bits: seq<bool>)
    ensures |bits| == 8 * |bytes|
    ensures forall i :: 0 <= i < |bits| ==> bits[i] == BitOf(bytes[i / 8], i % 8)
  {
    if |bytes| == 0 then [] else ByteBits(bytes[0]) + Concat(bytes[1..])
  }

  /** The generator before its first call, with the seed it starts from (the
      unit's default seed, or one set before any bit was drawn) and an empty
      bit buffer. */
  function Start(seed: bv8): (g: Rng)
    requires seed != 0
    ensures Valid(g)
    ensures forall i: nat :: Ahead(g, i) == StreamBit(seed, i)
  {
    Rng(seed, 0, 0)
  }

  /** From an empty buffer, the stream served is the concatenation of the
      bytes that `xorshift8` would return. */
  lemma {:induction false} EmptyBufferServesOutputs(g: Rng, m: nat)
    requires Valid(g) && g.count == 0
    ensures Upcoming(g, 0, 8 * m) == Concat(Outputs(g.state, m))
  {
    hide Iter, Outputs, Concat, Upcoming, BitOf;
    var out := Outputs(g.state, m);
    var bits := Concat(out);
    var ahead := Upcoming(g, 0, 8 * m);
    forall i | 0 <= i < 8 * m
      ensures ahead[i] == bits[i]
    {
      var k := i / 8;
      assert k < m;
      assert bits[i] == BitOf(out[k], i % 8);
      assert out[k] == Iter(g.state, k + 1);
      assert ahead[i] == StreamBit(g.state, i);
    }
  }

  /** `xorshift8_seed(s)`: move the generator to state s. The buffer is kept,
      an assumption of the model: the bits already in it are still served
      first, and after them comes the stream of s. */
  function Seed(g: Rng, s: bv8): (r: Rng)
    requires s != 0
    requires g.count <= 8
    ensures Valid(r)
    ensures r.buffer == g.buffer && r.count == g.count
    ensures forall i: nat :: i < g.count ==> Ahead(r, i) == Ahead(g, i)
    ensures forall i: nat :: Ahead(r, g.count + i) == StreamBit(s, i)
  {
    g.(state := s)
  }

  /** Seeding changes where the byte sequence starts, not its order: the 255
      bytes returned after seeding with s are the ones returned after seeding
      with any other non-zero t, rotated. */
  lemma SeedKeepsOrder(g: Rng, s: bv8, t: bv8)
    requires s != 0 && t != 0 && g.count <= 8
    ensures Cycle.Offset(t, s) < Period
    ensures Draw(Seed(g, s), Period).0 ==
            Cycle.Rotate(Draw(Seed(g, t), Period).0, Cycle.Offset(t, s))
  {
    Cycle.SeedRotates(t, s);
  }

  /** `xorshift8()`: advance the state and return it. The buffer is left as it
      is, an assumption of the model, so the bits it holds are still served
      next, but one byte of the stream behind them is skipped. */
  function Xorshift8(g: Rng): (r: (bv8, Rng))
    requires Valid(g)
    ensures Valid(r.1)
    ensures 1 <= r.0 as int <= 255 && r.1.state == r.0
    ensures r.1.buffer == g.buffer && r.1.count == g.count
  {
    var s := Next(g.state);
    (s, g.(state := s))
  }

  /** Calling `xorshift8()` between bit requests keeps the buffered bits in
      front of the stream but skips the byte it returned. */
  lemma ByteCallSkipsByte(g: Rng, i: nat)
    requires Valid(g)
    ensures Ahead(Xorshift8(g).1, i) == Ahead(g, if i < g.count then i else i + 8)
  {
    if i >= g.count {
      StreamShift(g.state, i - g.count);
    }
  }

  /** m consecutive `xorshift8()` calls: the bytes returned and the generator
      after them. */
  function Draw(g: Rng, m: nat): (r: (seq<bv8>, Rng))
    requires Valid(g)
    ensures Valid(r.1)
    ensures r.0 == Outputs(g.state, m)
    ensures r.1.state == Iter(g.state, m)
    ensures r.1.buffer == g.buffer && r.1.count == g.count
    decreases m
  {
    if m == 0 then ([], g)
    else
      var (b, h) := Xorshift8(g);
      var (rest, h') := Draw(h, m - 1);
      ([b] + rest, h')
  }

  /** The promise of the header for the byte generator: from any valid
      generator, 255 calls return each value 1..255 exactly once, leave the
      state where it started, and the 256th call repeats the 1st. */
  lemma DrawFullCycle(g: Rng)
    requires Valid(g)
    ensures forall i, j :: 0 <= i < j < Period ==> Draw(g, Period).0[i] != Draw(g, Period).0[j]
    ensures forall y: bv8 :: y != 0 <==> y in Draw(g, Period).0
    ensures Draw(g, Period).1 == g
    ensures Draw(g, Period + 1).0[Period] == Draw(g, Period + 1).0[0]
  {
    Cycle.FullCycle(g.state);
    Cycle.CycleCloses(g.state);
  }
}
