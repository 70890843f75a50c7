/** Small facts about natural numbers that several parts of the harness count with. */
module Numbers {

  function Least(a: nat, b: nat): nat {
    if a < b then a else b
  }

  /** m / d, rounded up. */
  function CeilDiv(m: nat, d: nat): nat
    requires d > 0
  {
    (m + d - 1) / d
  }

  lemma {:induction false} MulGap(a: nat, b: nat, d: nat)
    ensures a < b ==> a * d + d <= b * d
    decreases b
  {
    if a < b {
      assert b * d == (b - 1) * d + d;
      MulGap(a, b - 1, d);
    }
  }

  lemma Remainder(k: nat, n: nat, j: nat)
    requires j < n
    ensures (k * n + j) % n == j && (k * n + j) / n == k
  {
    var x := k * n + j;
    assert x == (x / n) * n + x % n;
    MulGap(k, x / n, n);
    MulGap(x / n, k, n);
  }
}
