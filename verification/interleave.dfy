/** Interleaved calls of `xorshift8_uint` and `xorshift8_int` (xorshift_rng.h
says the two share one bit buffer, so either affects what the other returns).
A run of such calls consumes one continuous bit stream: every call takes the
bits right after those taken by the call before it, exactly as many as its
width, and nothing is lost or reused.
 */
module Interleave {
  import opened Xorshift
  import opened Bits
  import opened Generator
  import opened Dispenser

  /** A request to the dispenser, with the width argument as passed. */
  datatype Call = UintCall(n: uint8) | IntCall(n: uint8)

  /** Bits a call consumes, as the header promises: n for `xorshift8_uint(n)`
      with n in 1..8, n + 1 for `xorshift8_int(n)` with n in 1..7, and none
      for a width outside those ranges. */
  ghost function Width(c: Call): nat
  {
    match c
    case UintCall(n) => if 1 <= n <= 8 then n else 0
    case IntCall(n) => if 1 <= n <= 7 then n + 1 else 0
  }

  /** What a call returns given the bits it consumes: an unsigned or a
      two's complement reading, or 0 when it consumes nothing. */
  ghost function Decode(c: Call, bits: seq<bool>): int
    requires |bits| == Width(c)
  {
    if |bits| == 0 then 0
    else
      match c
      case UintCall(_) => Value(bits)
      case IntCall(_) => TwosComplement(bits)
  }

  /** `xorshift8_uint(n)` reads Width(UintCall(n)) bits, whatever n is. */
  lemma UintReadsWidth(g: Rng, n: uint8)
    requires Valid(g)
    ensures Uint(g, n).0 == Decode(UintCall(n), Upcoming(g, 0, Width(UintCall(n))))
    ensures forall i: nat :: Ahead(Uint(g, n).1, i) == Ahead(g, Width(UintCall(n)) + i)
  {
    hide Ahead, Upcoming, Value, Uint, Pow2;
    if 1 <= n <= 8 {
      assert Width(UintCall(n)) == n as nat;
    }
  }

  /** `xorshift8_int(n)` reads Width(IntCall(n)) bits, whatever n is. */
  lemma IntReadsWidth(g: Rng, n: uint8)
    requires Valid(g)
    ensures Int(g, n).0 == Decode(IntCall(n), Upcoming(g, 0, Width(IntCall(n))))
    ensures forall i: nat :: Ahead(Int(g, n).1, i) == Ahead(g, Width(IntCall(n)) + i)
  {
    hide Ahead, Upcoming, TwosComplement, Int, Pow2;
    if 1 <= n <= 7 {
      assert Width(IntCall(n)) == n as nat + 1;
    }
  }

  /** One call of either entry point on the shared generator. */
  function Serve(g: Rng, c: Call): (r: (int, Rng))
    requires Valid(g)
    ensures Valid(r.1)
    ensures r.0 == Decode(c, Upcoming(g, 0, Width(c)))
    ensures forall i: nat :: Ahead(r.1, i) == Ahead(g, Width(c) + i)
  {
    match c
    case UintCall(n) => UintReadsWidth(g, n); var r := Uint(g, n); (r.0, r.1)
    case IntCall(n) => IntReadsWidth(g, n); var r := Int(g, n); (r.0, r.1)
  }

  /** Bits consumed by a run of calls: the sum of their widths. */
  ghost function TotalWidth(calls: seq<Call>): nat
  {
    if |calls| == 0 then 0 else Width(calls[0]) + TotalWidth(calls[1..])
  }

  /** Widths add up over concatenated runs. */
  lemma {:induction false} TotalWidthAppend(a: seq<Call>, b: seq<Call>)
    ensures TotalWidth(a + b) == TotalWidth(a) + TotalWidth(b)
    decreases |a|
  {
    if |a| > 0 {
      assert (a + b)[0] == a[0];
      assert (a + b)[1..] == a[1..] + b;
      TotalWidthAppend(a[1..], b);
    } else {
      assert a + b == b;
    }
  }

  lemma {:induction false} TotalWidthSplit(calls: seq<Call>, k: nat)
    requires 0 < k <= |calls|
    ensures TotalWidth(calls[..k]) == Width(calls[0]) + TotalWidth(calls[1..][..k - 1])
  {
    assert calls[..k][1..] == calls[1..][..k - 1];
  }

  /** A run of calls from g: one value per call, and the generator after
      them. */
  function Run(g: Rng, calls: seq<Call>): (r: (seq<int>, Rng))
    requires Valid(g)
    ensures |r.0| == |calls|
    ensures Valid(r.1)
    decreases |calls|
  {
    if |calls| == 0 then ([], g)
    else
      var first := Serve(g, calls[0]);
      var rest := Run(first.1, calls[1..]);
      ([first.0] + rest.0, rest.1)
  }

  /** A run is its first call followed by the run of the rest. */
  lemma RunCons(g: Rng, calls: seq<Call>)
    requires Valid(g) && |calls| > 0
    ensures Run(g, calls).1 == Run(Serve(g, calls[0]).1, calls[1..]).1
    ensures Run(g, calls).0 == [Serve(g, calls[0]).0] + Run(Serve(g, calls[0]).1, calls[1..]).0
  {
  }

  /** The head and tail of a + b, for a non-empty a. */
  lemma SplitAppend(a: seq<Call>, b: seq<Call>)
    requires |a| > 0
    ensures (a + b)[0] == a[0] && (a + b)[1..] == a[1..] + b
  {
  }

  /** Running a + b is running a, then b on the generator a leaves: the
      values are a's followed by b's. */
  lemma {:induction false} RunAppend(g: Rng, a: seq<Call>, b: seq<Call>)
    requires Valid(g)
    ensures Run(g, a + b).0 == Run(g, a).0 + Run(Run(g, a).1, b).0
    ensures Run(g, a + b).1 == Run(Run(g, a).1, b).1
    decreases |a|
  {
    hide Serve, Ahead, Upcoming, Decode, Width;
    if |a| == 0 {
      assert a + b == b;
      assert Run(g, a) == ([], g);
      assert [] + Run(g, b).0 == Run(g, b).0;
    } else {
      hide Run;
      SplitAppend(a, b);
      var v, h := Serve(g, a[0]).0, Serve(g, a[0]).1;
      RunCons(g, a + b);
      RunCons(g, a);
      RunAppend(h, a[1..], b);
      var x, y := Run(h, a[1..]).0, Run(Run(h, a[1..]).1, b).0;
      assert Run(g, a + b).0 == [v] + (x + y);
      assert Run(g, a).0 == [v] + x;
      assert [v] + (x + y) == ([v] + x) + y;
    }
  }

  /** Position i after a run is position TotalWidth(calls) + i before it. */
  lemma {:induction false} RunAdvancesAt(g: Rng, calls: seq<Call>, i: nat)
    requires Valid(g)
    ensures Ahead(Run(g, calls).1, i) == Ahead(g, TotalWidth(calls) + i)
    decreases |calls|
  {
    hide Ahead, Serve, Upcoming, Decode;
    if |calls| == 0 {
      assert Run(g, calls).1 == g;
    } else {
      RunCons(g, calls);
      assert TotalWidth(calls) == Width(calls[0]) + TotalWidth(calls[1..]);
      hide Run, TotalWidth, Width;
      var h := Serve(g, calls[0]).1;
      RunAdvancesAt(h, calls[1..], i);
      assert Ahead(h, TotalWidth(calls[1..]) + i) == Ahead(g, Width(calls[0]) + (TotalWidth(calls[1..]) + i));
    }
  }

  /** After a run the stream has advanced by exactly the total width of its
      calls: what is served next is what would have come after those bits. */
  lemma RunAdvances(g: Rng, calls: seq<Call>)
    requires Valid(g)
    ensures forall i: nat :: Ahead(Run(g, calls).1, i) == Ahead(g, TotalWidth(calls) + i)
  {
    hide Ahead, Run;
    forall i: nat
      ensures Ahead(Run(g, calls).1, i) == Ahead(g, TotalWidth(calls) + i)
    {
      RunAdvancesAt(g, calls, i);
    }
  }

  /** Skipping w bits of the stream and then reading is reading further on. */
  lemma UpcomingShift(g: Rng, h: Rng, w: nat, from: nat, n: nat)
    requires g.count <= 8 && h.count <= 8
    requires forall i: nat :: Ahead(h, i) == Ahead(g, w + i)
    ensures Upcoming(h, from, n) == Upcoming(g, w + from, n)
  {
  }

  /** The calls of a run read consecutive windows of one stream: call k
      returns the decoding of the bits at positions TotalWidth(calls[..k])
      up to TotalWidth(calls[..k + 1]) of the stream of g. */
  lemma {:induction false} RunReadsConsecutiveBits(g: Rng, calls: seq<Call>, k: nat)
    requires Valid(g)
    requires k < |calls|
    ensures Run(g, calls).0[k] == Decode(calls[k], Upcoming(g, TotalWidth(calls[..k]), Width(calls[k])))
    decreases k
  {
    hide Ahead, Serve, Upcoming, Decode;
    RunCons(g, calls);
    hide Run;
    if k == 0 {
      assert calls[..0] == [];
    } else {
      var h := Serve(g, calls[0]).1;
      RunReadsConsecutiveBits(h, calls[1..], k - 1);
      TotalWidthSplit(calls, k);
      UpcomingShift(g, h, Width(calls[0]), TotalWidth(calls[1..][..k - 1]), Width(calls[k]));
    }
  }
}
