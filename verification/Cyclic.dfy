/** Arithmetic on the indices of a topology of `n` members, which wrap around. */
module Cyclic {

  /** The index `b` places after `a`. */
  function Plus(n: nat, a: nat, b: nat): (r: nat)
    requires a < n && b < n
    ensures r < n
  {
    if a + b < n then a + b else a + b - n
  }

  /** The index `b` places before `a`. */
  function Minus(n: nat, a: nat, b: nat): (r: nat)
    requires a < n && b < n
    ensures r < n && Plus(n, r, b) == a
  {
    if b <= a then a - b else a + n - b
  }

  /** The code reduces sums of two indices with `%`; below `2 * n` one subtraction is enough. */
  lemma ModOfSum(x: nat, n: nat)
    requires x < n + n
    ensures x % n == if x < n then x else x - n
  {
    var q := x / n;
    assert x == n * q + x % n;
    if q >= 2 {
      MulAtLeast(n, q, 2);
    } else if q == 1 {
      assert n * q == n;
    }
  }

  lemma MulAtLeast(n: nat, q: nat, k: nat)
    requires q >= k
    ensures n * q >= n * k
  {
  }
}
