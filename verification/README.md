# xorshift8 in Dafny

A model of the `xorshift_rng` unit, an 8-bit pseudorandom number generator for
small microcontrollers, with proofs of what its header promises. The unit has
two layers:

- **The state engine.** `xorshift8_seed(seed)` sets the 8-bit state. `xorshift8()`
  applies the xorshift transform to the state, stores the result and returns it.
- **The bit dispenser.** `xorshift8_uint(n)` and `xorshift8_int(n)` serve n and
  n + 1 bits from one shared bit buffer. They pull a fresh byte from
  `xorshift8()` whenever the buffer is empty.

The unit's process-wide globals become one explicit value,
`Generator.Rng(state, buffer, count)`. `xorshift8`, `xorshift8_uint` and
`xorshift8_int` become pure functions from a generator to a pair: the value
returned and the generator after the call. `xorshift8_seed` returns nothing,
so `Generator.Seed` maps a generator to the seeded generator alone.

Modules:

- `Xorshift`: the transform `Next`, its inverse `Prev`, k-fold iteration
  `Iter`, and the bytes `Outputs` that successive calls return.
- `CycleIndex`, `Cycle`: the 255-long cycle. `CycleIndex.Index` is a
  discrete-logarithm table, giving the position of each state in the cycle
  from 1. The verifier checks it against the transform (`IndexStep`). Every
  cycle fact is derived from it.
- `Bits`: bit strings read as unsigned numbers, most significant bit first,
  or in two's complement.
- `Generator`: the generator value, seeding, `xorshift8()`, and the bit stream
  `Ahead(g, i)`. `Ahead(g, i)` is the i-th bit the dispenser will serve from
  `g`: first the unserved buffer bits, then the later bytes of `xorshift8`,
  each least significant bit first.
- `Dispenser`: `xorshift8_uint` (`Uint`) and `xorshift8_int` (`Int`), built
  from single-bit steps (`TakeBit`).
- `Interleave`: runs of mixed `xorshift8_uint` / `xorshift8_int` calls on the
  shared buffer.
- `Accounting`: how many bytes a run draws, and where in the concatenated
  `xorshift8` outputs each call's bits come from.
- `Example`: seed 1 worked through.

The header fixes the algorithm's shape but not its constants. The
implementation file is not part of this model, so five choices are
assumptions of the model:

- **The shift triple.** It is (7, 5, 3): `x ^= x << 7; x ^= x >> 5; x ^= x << 3`.
  `Cycle` proves this triple has the promised 255-cycle.
- **The bit order.** The buffer is served least significant bit first. Each bit
  served is shifted into the low end of the result, so the first bit served is
  the most significant bit of the value. For `xorshift8_int` that bit is the sign.
- **The refill point.** The buffer is refilled exactly when it is empty.
- **The seed call keeps the buffer.** `xorshift8_seed` replaces the state
  only. Bits already buffered are still served first, and the stream of the
  new seed follows them (`Generator.Seed`). The header only says the call
  sets the seed. A seed call that cleared the buffer would make
  `seed(1); xorshift8_uint(3)` read the first bits of 0xAD from any
  generator. Here it does so only when nothing is buffered, which is why
  `Example.UintThenInt` starts from a generator that has served nothing.
- **A direct `xorshift8()` keeps the buffer.** A call of `xorshift8()` between
  bit requests advances the state only. The buffered bits are still served
  next, and one byte of the stream behind them is skipped
  (`Generator.Xorshift8`, `Generator.ByteCallSkipsByte`). The header only
  says the calls may affect each other.

## Model

| member | source | states |
|---|---|---|
| Xorshift.Next | xorshift_rng.h:21-23 | one advance of the state maps non-zero states to non-zero states and zero only to zero |
| Xorshift.Prev | xorshift_rng.h:25-26 | every state has a predecessor under the transform, so the transform is onto the 256 bytes |
| Xorshift.PrevNext | xorshift_rng.h:25-26 | the transform is injective: Prev recovers the state each step came from |
| Xorshift.Iter | xorshift_rng.h:23 | any number of calls from a non-zero state never reaches zero |
| Xorshift.Outputs | xorshift_rng.h:21-23 | the k-th of m consecutive calls returns the state k + 1 steps ahead |
| CycleIndex.IndexRange | xorshift_rng.h:25-26 | non-zero states, and only they, have a position below 255 in the cycle, and 1 is at position 0 |
| CycleIndex.IndexStep | xorshift_rng.h:25-26 | one call moves a non-zero state one position forward in the cycle, wrapping at 255 |
| Cycle.IndexIter | xorshift_rng.h:25-26 | k calls move k positions forward in the cycle, modulo 255 |
| Cycle.IndexInjective | xorshift_rng.h:26 | distinct non-zero states have distinct cycle positions |
| Cycle.CycleCloses | xorshift_rng.h:25 | after 255 calls every non-zero state is back where it started |
| Cycle.NoShorterPeriod | xorshift_rng.h:25-26 | between 1 and 254 calls never bring a non-zero state back |
| Cycle.Periodic | xorshift_rng.h:25 | the sequence of states repeats with period 255 |
| Cycle.IterDistinct | xorshift_rng.h:26 | two calls less than 255 apart return different bytes |
| Cycle.IterCover | xorshift_rng.h:23-26 | every value 1..255 is returned within 255 calls of any non-zero state |
| Cycle.OutputsDistinct | xorshift_rng.h:26 | the 255 bytes returned from any non-zero state are pairwise distinct |
| Cycle.OutputsCover | xorshift_rng.h:23-26 | those 255 bytes are exactly the values 1..255 |
| Cycle.FullCycle | xorshift_rng.h:23-26 | the 255 bytes are a permutation of 1..255 and the 256th byte equals the 1st |
| Cycle.Rotate | xorshift_rng.h:30-31 | a rotation keeps the length and moves element k + i to place i, wrapping around |
| Cycle.IterShift | xorshift_rng.h:30-31 | starting from s is starting from t and skipping Offset(t, s) < 255 steps |
| Cycle.SeedRotates | xorshift_rng.h:30-31 | the 255 bytes after state s are the 255 bytes after any other non-zero t, rotated by the distance from t to s |
| Bits.Value | xorshift_rng.h:37-39 | n served bits read as an unsigned number lie in 0 .. 2^n - 1 |
| Bits.ValueAppend | xorshift_rng.h:37-38 | shifting a value left and putting the next bit in the low place appends that bit to the bit string |
| Bits.LeadingBit | xorshift_rng.h:52-53 | the first bit is set exactly when the unsigned value is in the upper half of the range |
| Bits.TwosComplement | xorshift_rng.h:52-54 | n + 1 bits in two's complement lie in -(2^n) .. 2^n - 1, and the value is negative exactly when the first bit is set |
| Bits.TwosComplementPattern | xorshift_rng.h:52-58 | the signed reading is the unsigned reading of the same bits, modulo 2^(n+1) |
| Generator.StreamShift | xorshift_rng.h:42-46 | the stream one byte further on is the stream of the next state |
| Generator.StreamAfter | xorshift_rng.h:21-23 | the stream of the state k calls on is the stream of the original state from bit 8k on |
| Generator.Start | xorshift_rng.h:15-18 | a generator that has served nothing serves the bytes following its seed, in order |
| Generator.EmptyBufferServesOutputs | xorshift_rng.h:42-46 | with an empty buffer, the bits served are the concatenation of the bytes `xorshift8` would return |
| Generator.Seed | xorshift_rng.h:12-18 | seeding leaves the bit buffer and its count untouched (an assumption of the model), so the buffered bits are still served first, and then the stream of the new seed follows |
| Generator.SeedKeepsOrder | xorshift_rng.h:30-31 | after seeding, 255 calls of `xorshift8` return a rotation of what any other seed gives; the order is unchanged |
| Generator.Xorshift8 | xorshift_rng.h:21-23 | `xorshift8()` returns a value in 1..255, stores it as the new state, and leaves the bit buffer alone (an assumption of the model) |
| Generator.ByteCallSkipsByte | xorshift_rng.h:42-44 | a `xorshift8()` call between bit requests keeps the buffered bits next but skips one byte of the stream behind them |
| Generator.Draw | xorshift_rng.h:21-26 | m calls of `xorshift8` return the next m states and touch neither the buffer nor its count |
| Generator.DrawFullCycle | xorshift_rng.h:23-26 | from any valid generator, 255 calls return 1..255 each once and restore the generator; call 256 repeats call 1 |
| Dispenser.Refill | xorshift_rng.h:42-44 | moving the next `xorshift8` byte into an empty buffer fills it to 8 bits and does not change the stream |
| Dispenser.ShiftDown | xorshift_rng.h:37-38 | shifting the buffer right by one moves every remaining bit one place down |
| Dispenser.TakeBit | xorshift_rng.h:37-38 | one served bit is the next bit of the stream, and the stream advances by one; the state advances only when the buffer was empty |
| Dispenser.TakeBits | xorshift_rng.h:37-38 | n served bits give the unsigned value of the next n stream bits, and the stream advances by exactly n |
| Dispenser.Uint | xorshift_rng.h:34-40 | for n in 1..8: a value below 2^n read from the next n bits, with exactly n bits consumed; any other n returns 0 and leaves the generator unchanged |
| Dispenser.Int | xorshift_rng.h:49-58 | for n in 1..7: a value in -(2^n) .. 2^n - 1 read in two's complement from the next n + 1 bits, with exactly n + 1 consumed; any other n returns 0 and leaves the generator unchanged |
| Interleave.UintReadsWidth | xorshift_rng.h:37-40 | `xorshift8_uint(n)` reads and consumes exactly its width of bits, which is 0 for a rejected n |
| Interleave.IntReadsWidth | xorshift_rng.h:56-58 | `xorshift8_int(n)` reads and consumes exactly its width of bits, which is 0 for a rejected n |
| Interleave.Serve | xorshift_rng.h:42-46 | either entry point decodes the next Width(c) bits of the one shared stream and advances it by that width |
| Interleave.TotalWidthAppend | xorshift_rng.h:56-58 | the width sum of two concatenated call lists is the sum of their width sums |
| Interleave.RunAppend | xorshift_rng.h:42-46 | running two call lists one after the other is running their concatenation: the values are the first run's then the second's, and the final generator is the same |
| Interleave.RunAdvancesAt | xorshift_rng.h:60-64 | bit i after a run is bit TotalWidth + i before it |
| Interleave.RunAdvances | xorshift_rng.h:60-64 | after any mix of calls the stream has advanced by exactly the sum of their widths; no bit is lost or reused |
| Interleave.UpcomingShift | xorshift_rng.h:42-46 | reading after w bits have been taken is reading w bits further on in the old stream |
| Interleave.RunReadsConsecutiveBits | xorshift_rng.h:42-46 | call k of a run decodes the bits right after those the earlier calls took, TotalWidth(calls[..k]) onwards |
| Accounting.AtServesFrom | xorshift_rng.h:37-44 | a generator that has served p bits from a fresh start will serve the stream of the seed from bit p on |
| Accounting.TakeBitBuffer | xorshift_rng.h:37-38 | after one more bit, the buffered bits are the stream of the seed from bit p + 1 on |
| Accounting.TakeBitDrawn | xorshift_rng.h:37-38 | the byte accounting carries over one more bit: the state has advanced ceil((p + 1) / 8) times and (8 - (p + 1) mod 8) mod 8 bits are buffered |
| Accounting.TakeBitAt | xorshift_rng.h:37-38 | from a fresh start, after p + 1 bits the state has advanced ceil((p + 1) / 8) times, (8 - (p + 1) mod 8) mod 8 bits are buffered, and they are the stream of the seed from bit p + 1 on, the unserved rest of the last byte |
| Accounting.TakeBitsAt | xorshift_rng.h:37-40 | the same accounting holds after n more bits |
| Accounting.UintAt | xorshift_rng.h:39-40 | `xorshift8_uint` moves the bit count on by its width, and a rejected n moves it by nothing |
| Accounting.IntAt | xorshift_rng.h:56-58 | `xorshift8_int` moves the bit count on by n + 1, and a rejected n moves it by nothing |
| Accounting.ServeAt | xorshift_rng.h:42-46 | either entry point moves the bit count on by its width |
| Accounting.RunAt | xorshift_rng.h:60-64 | a run moves the bit count on by the sum of its widths |
| Accounting.PrefixWidth | xorshift_rng.h:42-46 | the calls up to and including call k consume no more than the whole run |
| Accounting.FreshWindow | xorshift_rng.h:42-44 | from a fresh start, a stretch of the stream is that stretch of the concatenated `xorshift8` outputs |
| Accounting.FreshRunDraws | xorshift_rng.h:42-44 | a run from a fresh start draws exactly ceil(total width / 8) bytes from `xorshift8`, buffers (8 - total width mod 8) mod 8 bits, and those bits are the stream of the seed from the total width on, the unserved rest of the last byte |
| Accounting.CallReadsWindow | xorshift_rng.h:42-46 | call k of a fresh run returns the decoding of its own window of the first m bytes drawn, for any m covering it |
| Accounting.SharedStream | xorshift_rng.h:42-46 | call k of a fresh run returns the decoding of its own consecutive window of the concatenated bytes the run draws |
| Example.FirstByteAfterSeedOne | xorshift_rng.h:12-23 | with the pinned triple, the first `xorshift8()` after seeding with 1 returns 0xAD |
| Example.FirstSixBits | xorshift_rng.h:42-46 | after seeding with 1, the first six bits served are 1, 0, 1, 1, 0, 1 |
| Example.ReadingsOf101 | xorshift_rng.h:52-54 | the bits 101 read as 5 unsigned and as -3 in two's complement |
| Example.ValuesFromOne | xorshift_rng.h:42-46 | from seed 1, `xorshift8_uint(3)` then `xorshift8_int(2)` return 5 and -3 |
| Example.CountFromOne | xorshift_rng.h:56-58 | after those two calls, two bits of the first byte remain buffered |
| Example.UintThenInt | xorshift_rng.h:42-64 | from any generator that has served nothing, seed(1); `xorshift8_uint(3)`; `xorshift8_int(2)` gives 5 then -3 and leaves two bits buffered |

## Left out

- The default seed: the header says one is used when no seed is set but does
  not give it. `Generator.Start` takes the starting seed as a parameter.
- A zero seed: the header requires a non-zero seed and leaves zero
  unspecified. `Generator.Seed` and `Generator.Start` require `s != 0`.
- Generator.Seed: its contract covers only non-zero seeds. A zero seed would
  lock the state at 0, which the header does not describe.
- The statistical claims, namely how the sequence does in entropy tests. They
  are not a property of any one run.
- Process-wide globals and `extern` linkage: the state is an explicit `Rng`
  value, and a concurrent caller is not modelled (the unit has no
  synchronisation).
- The implementation file: it is not part of this model. Five behaviours are
  assumptions (see above): the shift triple (7, 5, 3), the
  least-significant-first bit order, refill-on-empty, a seed call that keeps
  the buffer, and a direct `xorshift8()` call that keeps the buffer. The
  concrete values in module `Example`, and the contracts of `Generator.Seed`,
  `Generator.Xorshift8` and `Generator.ByteCallSkipsByte` about the buffer,
  hold under those choices only.
- Interleave.Run: its own contract states only the number of results and the
  validity of the generator. What each call reads, and how far the stream
  advances, is in `Interleave.RunReadsConsecutiveBits` and
  `Interleave.RunAdvances`.
