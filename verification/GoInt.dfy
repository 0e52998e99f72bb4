/** Go's int on a 64-bit platform: what its arithmetic does beyond the range. */
module GoInt {
  import opened Decimal

  const INT_MODULUS: int := 0x1_0000_0000_0000_0000

  function WrapInt(n: int): (r: int)
    ensures MIN_INT <= n <= MAX_INT ==> r == n
  {
    (n - MIN_INT) % INT_MODULUS + MIN_INT
  }

  /** The sum of two machine integers. */
  function AddInt(a: int, b: int): int {
    if a + b > MAX_INT then a + b - INT_MODULUS
    else if a + b < MIN_INT then a + b + INT_MODULUS
    else a + b
  }

  /** The built-in max of two numbers. */
  function Max(a: int, b: int): int { if a > b then a else b }

  function Increment(n: int): int {
    if n == MAX_INT then MIN_INT else n + 1
  }

  /** k increments. */
  function Advance(n: int, k: nat): int {
    if k == 0 then n else Increment(Advance(n, k - 1))
  }

  lemma {:induction false} AdvanceMore(n: int, j: nat, k: nat)
    ensures Advance(Advance(n, j), k) == Advance(n, j + k)
  {
    if k > 0 {
      AdvanceMore(n, j, k - 1);
    }
  }

  lemma {:induction false} AdvanceInRange(n: int, k: nat)
    requires n + k <= MAX_INT
    ensures Advance(n, k) == n + k
  {
    if k > 0 {
      AdvanceInRange(n, k - 1);
    }
  }
}
