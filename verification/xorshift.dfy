/** The state engine of the 8-bit xorshift generator (xorshift_rng.h, `xorshift8`).

The header fixes the shape of the algorithm (shift-and-XOR steps on an 8-bit
word, a 255-long cycle over 1..255) but not the shift amounts. This model pins
the triple (7, 5, 3):

    x ^= x << 7;  x ^= x >> 5;  x ^= x << 3;

which is one of the triples with a maximal cycle on 8 bits (module Cycle proves it).
 */
module Xorshift {

  /** Number of non-zero 8-bit states: the length of the cycle the header
      promises. */
  const Period: nat := 255

  /** One advance of the generator state: the value `xorshift8` stores and returns.
      Zero is a fixed point and the only one-step preimage of zero, so a non-zero
      state never collapses. */
  function Next(x: bv8): (y: bv8)
    ensures y == 0 <==> x == 0
  {
    var a := x ^ (x << 7);
    var b := a ^ (a >> 5);
    b ^ (b << 3)
  }

  /** The inverse transform: undoes the three steps in reverse order.
      `x ^= x << 3` is undone by XOR-ing in the shifts by 3 and by 6; the
      other two steps are their own inverses on 8 bits. */
  function Prev(y: bv8): (x: bv8)
    ensures Next(x) == y
  {
    var b := y ^ (y << 3) ^ (y << 6);
    var a := b ^ (b >> 5);
    a ^ (a << 7)
  }

  /** Next is injective: Prev recovers the state a step came from. */
  lemma PrevNext(x: bv8)
    ensures Prev(Next(x)) == x
  {
  }

  /** The state after k consecutive calls of `xorshift8` starting from state x. */
  function Iter(x: bv8, k: nat): (y: bv8)
    ensures y == 0 <==> x == 0
    decreases k
  {
    if k == 0 then x else Iter(Next(x), k - 1)
  }

  /** Advancing k steps and then one more is the same as advancing k + 1 steps. */
  lemma {:induction false} IterSucc(x: bv8, k: nat)
    ensures Iter(x, k + 1) == Next(Iter(x, k))
    decreases k
  {
    if k > 0 {
      IterSucc(Next(x), k - 1);
    }
  }

  /** Advancing j steps and then k steps is advancing j + k steps. */
  lemma {:induction false} IterAdd(x: bv8, j: nat, k: nat)
    ensures Iter(Iter(x, j), k) == Iter(x, j + k)
    decreases j
  {
    if j > 0 {
      IterAdd(Next(x), j - 1, k);
    }
  }

  /** The bytes returned by m consecutive calls of `xorshift8` from state x:
      the k-th call (0-based) returns the state k + 1 steps ahead. */
  function Outputs(x: bv8, m: nat): (out: seq<bv8>)
    ensures |out| == m
    ensures forall k :: 0 <= k < m ==> out[k] == Iter(x, k + 1)
    decreases m
  {
    if m == 0 then [] else [Next(x)] + Outputs(Next(x), m - 1)
  }
}
