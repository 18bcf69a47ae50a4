/** Quotients and remainders, as the round-robin and the vote window use them. */
module Modular {

  lemma MulAtLeast(k: int, n: nat)
    ensures k > 0 ==> k * n >= n
  {
    if k > 0 {
      assert (k - 1) * n >= 0 && k * n == (k - 1) * n + n;
    }
  }

  lemma DivModUnique(a: int, n: nat, q: int, r: nat)
    requires r < n && a == q * n + r
    ensures a / n == q && a % n == r
  {
    var x, y := a / n, a % n;
    assert a == x * n + y && 0 <= y < n;
    assert (x - q) * n == x * n - q * n;
    assert x > q ==> (x - q) * n >= n by {
      MulAtLeast(x - q, n);
    }
    assert x < q ==> (q - x) * n >= n by {
      MulAtLeast(q - x, n);
    }
    assert (q - x) * n == q * n - x * n;
  }

  lemma ModMultiple(a: int, q: int, n: nat)
    requires n > 0
    ensures (a + q * n) % n == a % n
  {
    assert a == a / n * n + a % n;
    assert (a / n + q) * n == a / n * n + q * n;
    DivModUnique(a + q * n, n, a / n + q, a % n);
  }

  lemma ModReduce(a: int, b: int, n: nat)
    requires n > 0
    ensures (a % n + b) % n == (a + b) % n
  {
    assert a == a / n * n + a % n;
    ModMultiple(a % n + b, a / n, n);
  }

  /** Two places of a window of n that wraps around are different places. */
  lemma WindowWraps(n: nat, index: nat, i: nat, j: nat)
    requires index < n && i < n && j < n && (index + i) % n == (index + j) % n
    ensures i == j
  {
    WrapsTo(n, index + i);
    WrapsTo(n, index + j);
  }

  lemma WrapsTo(n: nat, a: nat)
    requires a < 2 * n
    ensures a % n == if a < n then a else a - n
  {
    if a < n {
      DivModUnique(a, n, 0, a);
    } else {
      DivModUnique(a, n, 1, a - n);
    }
  }
}
