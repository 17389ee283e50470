/**
 * Go's fixed-width integer operations that the simulator relies on, written
 * out over Dafny's unbounded integers: uint64 wrap-around, the `int(x)`
 * conversion of a uint64 and Go's truncating division on int.
 */
module Uint64 {

  /** 2^64, the modulus of uint64 arithmetic. */
  const LIMIT: int := 0x1_0000_0000_0000_0000

  /** 2^63, the first uint64 that `int(x)` turns negative. */
  const HALF: int := 0x8000_0000_0000_0000

  /** A Go `uint64`. */
  type u64 = x: int | 0 <= x < 0x1_0000_0000_0000_0000

  /** `a + b` (and `a += b`) on uint64: the sum wraps around modulo 2^64. */
  function Add(a: u64, b: u64): (r: u64)
    ensures a + b < LIMIT ==> r == a + b
    ensures LIMIT <= a + b ==> r == a + b - LIMIT
  {
    (a + b) % LIMIT
  }

  /** `x++` on uint64. */
  function Inc(x: u64): (r: u64)
    ensures x < LIMIT - 1 ==> r == x + 1
    ensures x == LIMIT - 1 ==> r == 0
  {
    Add(x, 1)
  }

  /** Counting up in uint64 is counting up in the integers, modulo 2^64. */
  lemma IncWraps(n: nat)
    ensures Inc(n % LIMIT) == (n + 1) % LIMIT
  {
    if n % LIMIT == LIMIT - 1 {
      assert n + 1 == (n / LIMIT + 1) * LIMIT;
    } else {
      assert n + 1 == (n / LIMIT) * LIMIT + (n % LIMIT + 1);
    }
  }

  /** `a / b` on uint64: the quotient rounded down. */
  function Div(a: u64, b: nat): (r: u64)
    requires b > 0
    ensures r * b <= a < r * b + b
  {
    DivBelow(a, b);
    a / b
  }

  lemma DivBelow(a: nat, b: nat)
    requires b > 0
    ensures a / b <= a
  {
    var q := a / b;
    assert q * b + a % b == a;
    assert q * b == q + q * (b - 1);
    NonNegativeProduct(q, b - 1);
  }

  lemma NonNegativeProduct(x: nat, y: nat)
    ensures x * y >= 0
  {
  }

  /**
   * Go's `int(x)` for a uint64 on a 64-bit platform: the same 64 bits read
   * as a two's-complement int64, so values from 2^63 up turn negative.
   */
  function ToInt(x: u64): (r: int)
    ensures -HALF <= r < HALF
    ensures (x - r) % LIMIT == 0
  {
    if x < HALF then x else x - LIMIT
  }

  /** Go's `a / b` on int for a positive divisor: truncates toward zero. */
  function Quo(a: int, b: int): (q: int)
    requires b > 0
    ensures 0 <= a ==> 0 <= q && q * b <= a < q * b + b
    ensures a < 0 ==> q <= 0 && q * b - b < a <= q * b
  {
    if 0 <= a then
      DivBounds(a, b);
      a / b
    else
      DivBounds(-a, b);
      NegatedProduct((-a) / b, b);
      -((-a) / b)
  }

  lemma DivBounds(a: nat, b: nat)
    requires b > 0
    ensures 0 <= a / b && (a / b) * b <= a < (a / b) * b + b
  {
    assert (a / b) * b + a % b == a;
  }

  lemma NegatedProduct(x: int, y: int)
    ensures (-x) * y == -(x * y)
  {
  }
}
