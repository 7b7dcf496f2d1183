/** Facts about integer division and remainder that the solver does not find
    on its own. */
module Arith {

  /** Moving on by one commutes with reduction modulo `n`. */
  lemma ModSucc(q: nat, n: int)
    requires n > 0
    ensures ((q % n) + 1) % n == (q + 1) % n
  {
    var m := q % n;
    var k := q / n;
    assert q == k * n + m;
    if m + 1 < n {
      ModUnique(m + 1, n, 0, m + 1);
      ModUnique(q + 1, n, k, m + 1);
    } else {
      ModUnique(m + 1, n, 1, 0);
      MulDiff(k + 1, 1, n);
      ModUnique(q + 1, n, k + 1, 0);
    }
  }

  /** The quotient and remainder are the unique `k` and `r` in [0, n) with
      `a == k * n + r`. */
  lemma ModUnique(a: int, n: int, k: int, r: int)
    requires n > 0 && 0 <= r < n && a == k * n + r
    ensures a % n == r && a / n == k
  {
    var k2 := a / n;
    var r2 := a % n;
    assert a == k2 * n + r2;
    MulDiff(k, k2, n);
    assert (k - k2) * n == r2 - r;
    if k != k2 {
      MulAtLeast(if k > k2 then k - k2 else k2 - k, n);
    }
  }

  lemma MulDiff(a: int, b: int, n: int)
    ensures (a - b) * n == a * n - b * n
  {
  }

  lemma MulAtLeast(a: int, n: int)
    requires a >= 1 && n > 0
    ensures a * n >= n
  {
  }
}
