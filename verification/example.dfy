/** A worked instance of the shared bit stream, with the shift triple of this
model fixed: after seeding with 1 the first `xorshift8` output is 0xAD
(1010_1101). Served least significant bit first, its bits are 1, 0, 1, 1, 0,
1, 0, 1. `xorshift8_uint(3)` takes the first three (read 101 = 5) and a
following `xorshift8_int(2)` the next three (read 101 in two's complement
= -3): six bits, all from the one byte.
 */
module Example {
  import opened Xorshift
  import opened Bits
  import opened Generator
  import opened Interleave
  import opened Accounting

  /** The first byte after seeding with 1. */
  lemma FirstByteAfterSeedOne(d: bv8)
    requires d != 0
    ensures Xorshift8(Seed(Start(d), 1)).0 == 0xAD
  {
  }

  /** Seeding a generator that has not served anything yet is starting from
      the new seed. */
  lemma SeedFresh(d: bv8, s: bv8)
    requires d != 0 && s != 0
    ensures Seed(Start(d), s) == Start(s)
  {
  }

  /** The stream from seed 1 begins with the bits of 0xAD. */
  lemma StreamOfOne(i: nat)
    requires i < 8
    ensures Ahead(Start(1), i) == BitOf(0xAD, i)
  {
    IterSucc(1, 0);
    assert Iter(1, 1) == 0xAD;
  }

  lemma BitsOfAD()
    ensures BitOf(0xAD, 0) && !BitOf(0xAD, 1) && BitOf(0xAD, 2)
    ensures BitOf(0xAD, 3) && !BitOf(0xAD, 4) && BitOf(0xAD, 5)
  {
  }

  /** The first six bits served after seeding with 1. */
  lemma FirstSixBits()
    ensures Upcoming(Start(1), 0, 6) == [true, false, true, true, false, true]
  {
    hide StreamBit, BitOf, Upcoming, Ahead, Start, Iter, Next;
    StreamOfOne(0);
    StreamOfOne(1);
    StreamOfOne(2);
    StreamOfOne(3);
    StreamOfOne(4);
    StreamOfOne(5);
    BitsOfAD();
  }

  /** The two readings of the bit string 101, by the two entry points. */
  lemma ReadingsOf101()
    ensures Decode(UintCall(3), [true, false, true]) == 5
    ensures Decode(IntCall(2), [true, false, true]) == -3
  {
    assert [true, false, true][1..] == [false, true];
    assert [false, true][1..] == [true];
  }

  /** Windows of a longer window are read at the matching offset. */
  lemma Window(g: Rng, n: nat, from: nat, m: nat)
    requires g.count <= 8 && from + m <= n
    ensures Upcoming(g, from, m) == Upcoming(g, 0, n)[from..from + m]
  {
  }

  /** What the two calls read, as positions of the stream from seed 1. */
  lemma UintThenIntReads(calls: seq<Call>)
    requires calls == [UintCall(3), IntCall(2)]
    ensures Run(Start(1), calls).0[0] == Decode(calls[0], Upcoming(Start(1), 0, 3))
    ensures Run(Start(1), calls).0[1] == Decode(calls[1], Upcoming(Start(1), 3, 3))
    ensures TotalWidth(calls) == 6
  {
    hide Run, Upcoming, Ahead, Serve, Decode;
    assert calls[..0] == [] && calls[..1] == [UintCall(3)];
    assert TotalWidth(calls[..1]) == 3;
    assert calls[1..] == [IntCall(2)] && calls[1..][1..] == [];
    RunReadsConsecutiveBits(Start(1), calls, 0);
    RunReadsConsecutiveBits(Start(1), calls, 1);
  }

  /** From seed 1 the two calls return 5 and -3. */
  lemma ValuesFromOne(calls: seq<Call>)
    requires calls == [UintCall(3), IntCall(2)]
    ensures Run(Start(1), calls).0 == [5, -3]
  {
    hide Run, Upcoming, Decode, Ahead, Serve, Start, TotalWidth;
    UintThenIntReads(calls);
    FirstSixBits();
    Window(Start(1), 6, 0, 3);
    Window(Start(1), 6, 3, 3);
    var six := [true, false, true, true, false, true];
    assert six[0..3] == [true, false, true] && six[3..6] == [true, false, true];
    ReadingsOf101();
  }

  /** From seed 1 the two calls drew one byte and left two of its bits. */
  lemma CountFromOne(calls: seq<Call>)
    requires calls == [UintCall(3), IntCall(2)]
    ensures Run(Start(1), calls).1.count == 2
  {
    hide Run, Upcoming, Decode, Ahead, Serve, Start;
    UintThenIntReads(calls);
    FreshRunDraws(1, calls);
  }

  /** seed(1); xorshift8_uint(3); xorshift8_int(2) returns 5 and then -3, and
      leaves the last two bits of the first byte in the buffer. */
  lemma UintThenInt(d: bv8)
    requires d != 0
    ensures Run(Seed(Start(d), 1), [UintCall(3), IntCall(2)]).0 == [5, -3]
    ensures Run(Seed(Start(d), 1), [UintCall(3), IntCall(2)]).1.count == 2
  {
    hide Run, Start, Seed;
    SeedFresh(d, 1);
    ValuesFromOne([UintCall(3), IntCall(2)]);
    CountFromOne([UintCall(3), IntCall(2)]);
  }
}
