/** Bit accounting for a generator that starts with an empty buffer: after p
bits have been served by any mix of `xorshift8_uint` and `xorshift8_int` calls,
exactly ceil(p / 8) bytes have been drawn from `xorshift8` and the unserved
rest of the last byte is still buffered; and the values returned are read from consecutive
stretches of the concatenated `xorshift8` outputs.
 */
module Accounting {
  import opened Xorshift
  import opened Bits
  import opened Generator
  import opened Dispenser
  import opened Interleave

  /** The counting half of At: after p bits the state has advanced
      ceil(p / 8) times, and the rest of the last byte drawn is buffered. */
  predicate Drawn(s0: bv8, p: nat, g: Rng)
  {
    && g.state == Iter(s0, (p + 7) / 8)
    && g.count == (8 - p % 8) % 8
  }

  /** The contents half of At: the buffered bits are the stream of s0 from
      bit p on. */
  ghost predicate Buffered(s0: bv8, p: nat, g: Rng)
  {
    && g.count <= 8
    && forall i: nat :: i < g.count ==> BitOf(g.buffer, i) == StreamBit(s0, p + i)
  }

  /** g is where a generator started from state s0 with an empty buffer is
      after serving p bits: the state has advanced ceil(p / 8) times, and the
      buffer holds the unserved rest of the last byte drawn, which is the
      stream of s0 from bit p on. */
  ghost predicate At(s0: bv8, p: nat, g: Rng)
  {
    Drawn(s0, p, g) && Buffered(s0, p, g)
  }

  /** At p, what the generator will serve is the stream of s0 from bit p. */
  lemma AtServesFrom(s0: bv8, p: nat, g: Rng)
    requires At(s0, p, g)
    ensures forall i: nat :: Ahead(g, i) == StreamBit(s0, p + i)
  {
    var c := (p + 7) / 8;
    assert 8 * c == p + g.count by {
      if p % 8 == 0 {
        assert c == p / 8;
      } else {
        assert c == p / 8 + 1;
      }
    }
    forall i: nat
      ensures Ahead(g, i) == StreamBit(s0, p + i)
    {
      if i >= g.count {
        StreamAfter(s0, c, i - g.count);
      }
    }
  }

  /** The buffer after one more bit still holds the stream of s0 from the
      next position. */
  lemma TakeBitBuffer(s0: bv8, p: nat, g: Rng)
    requires s0 != 0 && At(s0, p, g)
    ensures Valid(g)
    ensures Buffered(s0, p + 1, TakeBit(g).1)
  {
    hide TakeBit;
    var h := TakeBit(g).1;
    AtServesFrom(s0, p, g);
    forall i: nat | i < h.count
      ensures BitOf(h.buffer, i) == StreamBit(s0, p + 1 + i)
    {
      assert Ahead(h, i) == Ahead(g, i + 1);
    }
  }

  /** One more bit moves the count on by one, drawing a byte exactly when
      the buffer was empty. */
  lemma TakeBitDrawn(s0: bv8, p: nat, g: Rng)
    requires Valid(g) && Drawn(s0, p, g)
    ensures Drawn(s0, p + 1, TakeBit(g).1)
  {
    hide Ahead, TakeBit, Iter, StreamBit, BitOf, Valid;
    var q, r := p / 8, p % 8;
    if r == 0 {
      assert (p + 7) / 8 == q && (p + 8) / 8 == q + 1 && (p + 1) % 8 == 1;
      IterSucc(s0, q);
    } else {
      assert (p + 7) / 8 == q + 1 && (p + 8) / 8 == q + 1;
      assert (p + 1) % 8 == if r == 7 then 0 else r + 1;
    }
  }

  lemma TakeBitAt(s0: bv8, p: nat, g: Rng)
    requires s0 != 0 && At(s0, p, g)
    ensures Valid(g)
    ensures At(s0, p + 1, TakeBit(g).1)
  {
    TakeBitBuffer(s0, p, g);
    hide Ahead, TakeBit, Iter, StreamBit, BitOf, Buffered, Drawn;
    TakeBitDrawn(s0, p, g);
  }

  lemma {:induction false} TakeBitsAt(s0: bv8, p: nat, g: Rng, n: nat)
    requires s0 != 0 && At(s0, p, g)
    ensures Valid(g)
    ensures At(s0, p + n, TakeBits(g, n).1)
    decreases n
  {
    hide Ahead, TakeBit, At;
    TakeBitAt(s0, p, g);
    if n > 0 {
      TakeBitsAt(s0, p, g, n - 1);
      TakeBitAt(s0, p + n - 1, TakeBits(g, n - 1).1);
    }
  }

  lemma UintAt(s0: bv8, p: nat, g: Rng, n: uint8)
    requires s0 != 0 && At(s0, p, g)
    ensures Valid(g)
    ensures At(s0, p + Width(UintCall(n)), Uint(g, n).1)
  {
    hide At, Ahead, TakeBits, Upcoming, Value, Pow2;
    TakeBitsAt(s0, p, g, n);
  }

  lemma IntAt(s0: bv8, p: nat, g: Rng, n: uint8)
    requires s0 != 0 && At(s0, p, g)
    ensures Valid(g)
    ensures At(s0, p + Width(IntCall(n)), Int(g, n).1)
  {
    hide At, Ahead, TakeBits, Upcoming, Value, TwosComplement, Pow2;
    TakeBitsAt(s0, p, g, n + 1);
  }

  lemma ServeAt(s0: bv8, p: nat, g: Rng, c: Call)
    requires s0 != 0 && At(s0, p, g)
    ensures Valid(g)
    ensures At(s0, p + Width(c), Serve(g, c).1)
  {
    hide At, Ahead, Uint, Int, Upcoming, Value, TwosComplement, Decode;
    match c
    case UintCall(n) => UintAt(s0, p, g, n);
    case IntCall(n) => IntAt(s0, p, g, n);
  }

  /** A run of calls from a fresh generator consumes exactly the sum of the
      widths of its calls: the state has advanced ceil(p / 8) times and the
      buffer holds the unserved rest of the last byte drawn. */
  lemma {:induction false} RunAt(s0: bv8, p: nat, g: Rng, calls: seq<Call>)
    requires s0 != 0 && At(s0, p, g)
    ensures Valid(g)
    ensures At(s0, p + TotalWidth(calls), Run(g, calls).1)
    decreases |calls|
  {
    hide At, Ahead, Serve;
    TakeBitsAt(s0, p, g, 0);
    if |calls| > 0 {
      ServeAt(s0, p, g, calls[0]);
      RunAt(s0, p + Width(calls[0]), Serve(g, calls[0]).1, calls[1..]);
    }
  }

  /** The calls before call k, and call k itself, fit within the run. */
  lemma PrefixWidth(calls: seq<Call>, k: nat)
    requires k < |calls|
    ensures TotalWidth(calls[..k]) + Width(calls[k]) <= TotalWidth(calls)
  {
    assert calls[..k + 1] == calls[..k] + [calls[k]];
    assert calls == calls[..k + 1] + calls[k + 1..];
    TotalWidthAppend(calls[..k], [calls[k]]);
    TotalWidthAppend(calls[..k + 1], calls[k + 1..]);
    assert TotalWidth([calls[k]]) == Width(calls[k]) + TotalWidth([calls[k]][1..]);
  }

  /** From a fresh start, any stretch of the stream within the first m bytes
      is that stretch of the concatenated `xorshift8` outputs. */
  lemma FreshWindow(s0: bv8, from: nat, n: nat, m: nat)
    requires s0 != 0 && from + n <= 8 * m
    ensures Upcoming(Start(s0), from, n) == Concat(Outputs(s0, m))[from..from + n]
  {
    hide Ahead;
    var g := Start(s0);
    EmptyBufferServesOutputs(g, m);
    assert Upcoming(g, from, n) == Upcoming(g, 0, 8 * m)[from..from + n];
  }

  /** A run of calls from a fresh generator draws exactly
      ceil(TotalWidth(calls) / 8) bytes from `xorshift8` and keeps the unserved
      rest of the last one in the buffer. */
  lemma FreshRunDraws(s0: bv8, calls: seq<Call>)
    requires s0 != 0
    ensures Run(Start(s0), calls).1.state == Iter(s0, (TotalWidth(calls) + 7) / 8)
    ensures Run(Start(s0), calls).1.count == (8 - TotalWidth(calls) % 8) % 8
    ensures forall i: nat :: i < Run(Start(s0), calls).1.count ==>
              BitOf(Run(Start(s0), calls).1.buffer, i) == StreamBit(s0, TotalWidth(calls) + i)
  {
    hide Ahead, Run;
    RunAt(s0, 0, Start(s0), calls);
  }

  /** p bits fit in ceil(p / 8) bytes. */
  lemma RoundUp(p: nat)
    ensures p <= 8 * ((p + 7) / 8)
  {
  }

  /** Call k of a run from a fresh start reads its window of the first m
      bytes drawn, for any m that covers the calls up to and including k. */
  lemma CallReadsWindow(s0: bv8, calls: seq<Call>, k: nat, m: nat)
    requires s0 != 0 && k < |calls|
    requires TotalWidth(calls[..k]) + Width(calls[k]) <= 8 * m
    ensures Run(Start(s0), calls).0[k] ==
            Decode(calls[k], Concat(Outputs(s0, m))
                             [TotalWidth(calls[..k])..TotalWidth(calls[..k]) + Width(calls[k])])
  {
    hide Ahead, Run, Serve, Value, TwosComplement, Decode, Concat, Outputs, Upcoming, Start;
    hide BitOf, Iter, Next, StreamBit, Valid;
    var from, w := TotalWidth(calls[..k]), Width(calls[k]);
    hide TotalWidth, Width;
    FreshWindow(s0, from, w, m);
    RunReadsConsecutiveBits(Start(s0), calls, k);
  }

  /** The shared-buffer promise from a fresh start: call k of any run of
      `xorshift8_uint` / `xorshift8_int` calls returns the decoding of the
      bits at positions TotalWidth(calls[..k]) .. TotalWidth(calls[..k + 1])
      of the concatenated outputs of `xorshift8`, the bytes the run draws. */
  lemma SharedStream(s0: bv8, calls: seq<Call>, k: nat)
    requires s0 != 0 && k < |calls|
    ensures TotalWidth(calls[..k]) + Width(calls[k]) <= 8 * ((TotalWidth(calls) + 7) / 8)
    ensures Run(Start(s0), calls).0[k] ==
            Decode(calls[k], Concat(Outputs(s0, (TotalWidth(calls) + 7) / 8))
                             [TotalWidth(calls[..k])..TotalWidth(calls[..k]) + Width(calls[k])])
  {
    hide Ahead, Run, Serve, Value, TwosComplement, Decode, Concat, Outputs, Upcoming, Start;
    PrefixWidth(calls, k);
    RoundUp(TotalWidth(calls));
    var m := (TotalWidth(calls) + 7) / 8;
    hide TotalWidth, Width;
    CallReadsWindow(s0, calls, k, m);
  }
}
