/** sim/rng.hpp's Below: rejection sampling over the raw 64-bit words of the generator,
    which stand here for any stream of words. */
module RngModel {
  import opened Text
  import opened Numbers

  const MAX: nat := U64_LIMIT - 1

  /** The words accepted are those below a multiple of n. */
  function Limit(n: U64): nat
    requires n > 0
  {
    MAX - MAX % n
  }

  /** Below, on a stream with an accepted word still to come: the first accepted word from
      `at` on, modulo n. Below(0) is zero and draws nothing. */
  method Below(words: nat -> U64, at: nat, n: U64, ghost hit: nat) returns (r: nat, next: nat)
    requires n > 0 ==> at <= hit && words(hit) < Limit(n)
    ensures n == 0 ==> r == 0 && next == at
    ensures n > 0 ==> at < next && r == words(next - 1) % n < n && words(next - 1) < Limit(n)
    ensures forall k :: at <= k < next - 1 ==> words(k) >= Limit(n)
  {
    if n == 0 { return 0, at; }
    next := at;
    while words(next) >= Limit(n)
      invariant at <= next <= hit
      invariant forall k :: at <= k < next ==> words(k) >= Limit(n)
      decreases hit - next
    {
      next := next + 1;
    }
    r := words(next) % n;
    next := next + 1;
  }

  /** How many words below m leave the remainder r. */
  function Hits(m: nat, n: nat, r: nat): nat
    requires n > 0
  {
    if m == 0 then 0 else Hits(m - 1, n, r) + (if (m - 1) % n == r then 1 else 0)
  }

  lemma {:induction false} HitsInBlocks(k: nat, n: nat, j: nat, r: nat)
    requires r < n && j <= n
    ensures Hits(k * n + j, n, r) == k + if j > r then 1 else 0
    decreases k, j
  {
    if j > 0 {
      HitsInBlocks(k, n, j - 1, r);
      Remainder(k, n, j - 1);
      assert k * n + j - 1 == k * n + (j - 1);
    } else if k > 0 {
      HitsInBlocks(k - 1, n, n, r);
      assert (k - 1) * n + n == k * n + j;
    }
  }

  /** **No bias.** Of the accepted words exactly as many give each result below n, and
      fewer than n words are rejected. */
  lemma Unbiased(n: U64, r: nat)
    requires r < n
    ensures Hits(Limit(n), n, r) == MAX / n
    ensures MAX - Limit(n) < n
  {
    assert MAX == (MAX / n) * n + MAX % n;
    HitsInBlocks(MAX / n, n, 0, r);
  }
}
