/** Remainders: indices that go round a ring of n places. */
module Modular {

  lemma MultipleIsLarge(d: int, n: nat)
    requires d != 0
    ensures d * n >= n || d * n <= -(n as int)
  {
    if d > 0 { assert (d - 1) * n >= 0; } else { assert (-d - 1) * n >= 0; }
  }

  lemma QuotientUnique(x: int, n: int, q: int, r: int)
    requires n > 0 && x == q * n + r && 0 <= r < n
    ensures x % n == r && x / n == q
  {
    var d := x / n - q;
    assert x == n * (x / n) + x % n;
    assert n * (x / n) - q * n == d * n;
    assert d * n == r - x % n;
    if d != 0 { MultipleIsLarge(d, n); }
  }

  lemma ModuloUnique(n: nat, q: int, r: int)
    requires n > 0 && 0 <= r < 2 * n
    ensures (q * n + r) % n == if r < n then r else r - n
  {
    var x := q * n + r;
    if r < n {
      QuotientUnique(x, n, q, r);
    } else {
      assert x == (q + 1) * n + (r - n);
      QuotientUnique(x, n, q + 1, r - n);
    }
  }

  lemma NotBetween(n: nat, q: int, f: nat, j: nat)
    requires f < n && 0 < j < n
    ensures (f + q * n + j) % n != f
  {
    ModuloUnique(n, q, f + j);
  }

  lemma SmallMod(k: nat, n: nat)
    requires k < n
    ensures k % n == k
  {
  }

  /** Counting round the ring: the successor of k mod n is k + 1 mod n. */
  lemma NextMod(k: nat, n: nat)
    requires n > 0
    ensures (k % n + 1) % n == (k + 1) % n
  {
    var q, r := k / n, k % n;
    assert k + 1 == q * n + (r + 1);
    ModuloUnique(n, q, r + 1);
    if r + 1 < n { SmallMod(r + 1, n); } else { assert n % n == 0; }
  }

  /** Places less than a full round apart are different. */
  lemma PlacesDiffer(i: nat, j: nat, n: nat)
    requires i < j < i + n
    ensures i % n != j % n
  {
    if i % n == j % n {
      var d := j / n - i / n;
      assert j - i == n * d by {
        assert j == n * (j / n) + j % n && i == n * (i / n) + i % n;
        assert n * (j / n) - n * (i / n) == n * d;
      }
      if d != 0 { MultipleIsLarge(d, n); }
    }
  }

  lemma FullRound(i: nat, n: nat)
    requires n > 0
    ensures (i + n) % n == i % n
  {
    QuotientUnique(i + n, n, i / n + 1, i % n);
  }
}
