/**
 * The C++ `size_t` of the source, taken as a 64-bit unsigned integer:
 * `producerId`, `consumerId`, `iteration` and the `id` of every step have this type.
 */
module SizeT {
  /** 2^64, the number of values a 64-bit `size_t` has. */
  const SIZE_LIMIT: nat := 0x1_0000_0000_0000_0000

  type Size = x: nat | x < SIZE_LIMIT

  /** `n` reduced to a `size_t`, as unsigned arithmetic does: `n` modulo 2^64. */
  function Wrap(n: nat): (r: Size)
    ensures n < SIZE_LIMIT ==> r == n
    decreases n
  {
    if n < SIZE_LIMIT then n else Wrap(n - SIZE_LIMIT)
  }

  /** `i++` on a `size_t`: one more, wrapping to 0 after the largest value. */
  function Increment(i: Size): (r: Size)
    ensures r == Wrap(i + 1)
    ensures i + 1 < SIZE_LIMIT ==> r == i + 1
  {
    if i + 1 == SIZE_LIMIT then 0 else i + 1
  }

  /** Wrap agrees with the remainder modulo 2^64. */
  lemma {:induction false} WrapIsModulo(n: nat)
    ensures Wrap(n) == n % SIZE_LIMIT
    decreases n
  {
    if n >= SIZE_LIMIT {
      WrapIsModulo(n - SIZE_LIMIT);
    }
  }

  /** Incrementing a wrapped count is wrapping the next count. */
  lemma {:induction false} WrapSucc(n: nat)
    ensures Increment(Wrap(n)) == Wrap(n + 1)
    decreases n
  {
    if n >= SIZE_LIMIT {
      WrapSucc(n - SIZE_LIMIT);
    }
  }
}
