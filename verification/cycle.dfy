/** The cycle promised by xorshift_rng.h: from any non-zero state, 255
consecutive calls of `xorshift8` return every value 1..255 exactly once, and
the sequence then repeats; choosing a seed only picks where in that one
sequence the generator starts.
 */
module Cycle {
  import opened Xorshift
  import opened CycleIndex

  /** k steps from x move k positions forward in the cycle. */
  lemma {:induction false} IndexIter(x: bv8, k: nat)
    requires x != 0
    ensures Index(Iter(x, k)) == (Index(x) + k) % Period
    decreases k
  {
    hide Index;
    IndexRange(x);
    if k > 0 {
      assert Iter(x, k) == Iter(Next(x), k - 1);
      hide Iter, Next;
      IndexStep(x);
      IndexIter(Next(x), k - 1);
      if Index(x) + 1 == Period {
        assert Index(Next(x)) == 0;
        assert (Index(x) + k) % Period == (k - 1) % Period;
      } else {
        assert Index(Next(x)) == Index(x) + 1;
      }
    }
  }

  /** Distinct non-zero states sit at distinct positions of the cycle. */
  lemma {:induction false} IndexInjective(x: bv8, y: bv8)
    requires x != 0 && y != 0
    requires Index(x) == Index(y)
    ensures x == y
    decreases Index(x)
  {
    hide Index;
    IndexRange(x);
    IndexRange(y);
    if Index(x) != 0 {
      var px, py := Prev(x), Prev(y);
      IndexStep(px);
      IndexStep(py);
      IndexRange(px);
      IndexRange(py);
      IndexInjective(px, py);
    }
  }

  /** After 255 steps every non-zero state is back where it started. */
  lemma CycleCloses(x: bv8)
    requires x != 0
    ensures Iter(x, Period) == x
  {
    hide Index;
    IndexIter(x, Period);
    IndexRange(x);
    IndexInjective(Iter(x, Period), x);
  }

  /** Fewer than 255 steps never bring a non-zero state back: the cycle has no
      shorter period. */
  lemma NoShorterPeriod(x: bv8, k: nat)
    requires x != 0
    requires 0 < k < Period
    ensures Iter(x, k) != x
  {
    hide Index;
    IndexIter(x, k);
    IndexRange(x);
  }

  /** The generator sequence is periodic with period 255: the (k + 255)-th
      state equals the k-th. */
  lemma Periodic(x: bv8, k: nat)
    requires x != 0
    ensures Iter(x, k + Period) == Iter(x, k)
  {
    hide Index;
    IterAdd(x, Period, k);
    CycleCloses(x);
    IterAdd(x, k, Period);
    CycleCloses(Iter(x, k));
  }

  /** Shifting a cycle position by two different amounts below 255 lands on
      two different positions. */
  lemma ShiftDistinct(a: nat, i: nat, j: nat)
    requires a < Period && i < j < i + Period
    ensures (a + i) % Period != (a + j) % Period
  {
  }

  /** Two different calls among 255 consecutive ones return different bytes. */
  lemma IterDistinct(x: bv8, i: nat, j: nat)
    requires x != 0
    requires i < j < i + Period
    ensures Iter(x, i) != Iter(x, j)
  {
    hide Index;
    IndexRange(x);
    IndexIter(x, i);
    IndexIter(x, j);
    ShiftDistinct(Index(x), i, j);
  }

  /** Every non-zero byte y is reached from x within 255 steps; the step count
      is read off the cycle positions of x and of y. */
  lemma IterCover(x: bv8, y: bv8) returns (k: nat)
    requires x != 0 && y != 0
    ensures 0 < k <= Period && Iter(x, k) == y
  {
    hide Index;
    IndexRange(x);
    IndexRange(y);
    k := (Index(y) - Index(x) - 1) % Period + 1;
    IndexIter(x, k);
    IndexRange(Iter(x, k));
    IndexInjective(Iter(x, k), y);
  }

  /** The 255 bytes returned from any non-zero state are pairwise distinct. */
  lemma OutputsDistinct(x: bv8)
    requires x != 0
    ensures forall i, j :: 0 <= i < j < Period ==> Outputs(x, Period)[i] != Outputs(x, Period)[j]
  {
    hide Index, Outputs, Iter;
    var out := Outputs(x, Period);
    forall i, j | 0 <= i < j < Period
      ensures out[i] != out[j]
    {
      IterDistinct(x, i + 1, j + 1);
    }
  }

  /** The 255 bytes returned from any non-zero state are exactly the values
      1..255. */
  lemma OutputsCover(x: bv8)
    requires x != 0
    ensures forall y: bv8 :: y != 0 <==> y in Outputs(x, Period)
  {
    hide Index, Outputs, Iter;
    var out := Outputs(x, Period);
    forall y: bv8 | y != 0
      ensures y in out
    {
      var k := IterCover(x, y);
      assert out[k - 1] == y;
    }
  }

  /** The 255 bytes returned from any non-zero state are pairwise distinct and
      are exactly the values 1..255; the 256th byte is the 1st again. */
  lemma FullCycle(x: bv8)
    requires x != 0
    ensures forall i, j :: 0 <= i < j < Period ==> Outputs(x, Period)[i] != Outputs(x, Period)[j]
    ensures forall y: bv8 :: y != 0 <==> y in Outputs(x, Period)
    ensures Outputs(x, Period + 1)[Period] == Outputs(x, Period + 1)[0]
  {
    hide Index, Outputs, Iter;
    OutputsDistinct(x);
    OutputsCover(x);
    Periodic(x, 1);
  }

  /** Rotation of a sequence: start at position k and wrap around. */
  function Rotate<T>(s: seq<T>, k: nat): (r: seq<T>)
    requires k <= |s|
    ensures |r| == |s|
    ensures forall i :: 0 <= i < |s| ==> r[i] == if k + i < |s| then s[k + i] else s[k + i - |s|]
  {
    s[k..] + s[..k]
  }

  /** Distance from t forward to s along the cycle. */
  ghost function Offset(t: bv8, s: bv8): nat
  {
    (Index(s) - Index(t)) % Period
  }

  /** Starting from s is starting from t and skipping Offset(t, s) steps. */
  lemma {:induction false} IterShift(t: bv8, s: bv8, k: nat)
    requires s != 0 && t != 0
    ensures Offset(t, s) < Period
    ensures Iter(s, k) == Iter(t, Offset(t, s) + k)
  {
    hide Index, Iter, Next;
    IndexRange(s);
    IndexRange(t);
    var d := Offset(t, s);
    if Index(s) >= Index(t) {
      assert Index(t) + d == Index(s);
    } else {
      assert Index(t) + d == Index(s) + Period;
      assert (Index(s) + Period + k) % Period == (Index(s) + k) % Period;
    }
    IndexIter(s, k);
    IndexIter(t, Offset(t, s) + k);
    IndexInjective(Iter(s, k), Iter(t, Offset(t, s) + k));
  }

  /** Seeding only moves the starting point and never changes the order: the
      255 bytes returned after seeding with s are those returned after seeding
      with any other t, rotated by the distance from t to s. */
  lemma SeedRotates(t: bv8, s: bv8)
    requires s != 0 && t != 0
    ensures Offset(t, s) < Period
    ensures Outputs(s, Period) == Rotate(Outputs(t, Period), Offset(t, s))
  {
    hide Index, Iter, Outputs, Rotate, Offset;
    var d := Offset(t, s);
    IterShift(t, s, 0);
    var rot := Rotate(Outputs(t, Period), d);
    forall k | 0 <= k < Period
      ensures Outputs(s, Period)[k] == rot[k]
    {
      IterShift(t, s, k + 1);
      assert Outputs(s, Period)[k] == Iter(t, d + k + 1);
      if d + k < Period {
        assert rot[k] == Outputs(t, Period)[d + k] == Iter(t, d + k + 1);
      } else {
        Periodic(t, d + k + 1 - Period);
        assert rot[k] == Outputs(t, Period)[d + k - Period] == Iter(t, d + k + 1 - Period);
      }
    }
    assert |Outputs(s, Period)| == |rot|;
  }
}
