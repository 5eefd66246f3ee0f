/**
 * Facts about Euclidean division and remainder by a positive divisor,
 * shared by the clock's beat position and a track's playhead and overdub
 * positions.
 */
module Modular {

  /** `a * n < b * n` with `n > 0` means `a < b`. */
  lemma ProductOrderCancels(a: int, b: int, n: nat)
    requires n > 0 && a * n < b * n
    ensures a < b
  {
  }

  /** Euclidean division has a unique remainder. */
  lemma {:induction false} ModUnique(a: nat, n: nat, q: int, r: int)
    requires n > 0 && 0 <= r < n && a == q * n + r
    ensures a % n == r
  {
    var d := q - a / n;
    assert d * n == q * n - (a / n) * n;
    assert d * n == a % n - r;
    ProductOrderCancels(d, 1, n);
    ProductOrderCancels(-1, d, n);
  }

  /** One step of a position modulo `n`. */
  lemma {:induction false} ModSuccessor(a: nat, n: nat)
    requires n > 0
    ensures a % n + 1 < n ==> (a + 1) % n == a % n + 1
    ensures a % n + 1 == n ==> (a + 1) % n == 0
  {
    var q, r := a / n, a % n;
    if r + 1 < n {
      ModUnique(a + 1, n, q, r + 1);
    } else {
      assert a + 1 == (q + 1) * n + 0;
      ModUnique(a + 1, n, q + 1, 0);
    }
  }
}
