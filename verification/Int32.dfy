// The width of the C counters: `int` and `atomic_t` hold 32 bits and wrap.
module Int32 {

  const HALF := 0x8000_0000
  const WORD := 0x1_0000_0000

  // The 32-bit signed value with the bits of n.
  function Wrap(n: int): (w: int)
    ensures -HALF <= w < HALF
    ensures -HALF <= n < HALF ==> w == n
  {
    (n + HALF) % WORD - HALF
  }

  lemma WrapSuccessor(n: int)
    ensures Wrap(Wrap(n) + 1) == Wrap(n + 1)
  {
  }

  lemma WrapAtMost(n: nat)
    ensures Wrap(n) <= n
  {
  }

  lemma WrapDifference(m: int, n: int)
    ensures Wrap(Wrap(m) - Wrap(n)) == Wrap(m - n)
  {
  }

  lemma WrapSum(m: int, n: int)
    ensures Wrap(Wrap(m) + n) == Wrap(m + n)
  {
  }
}
