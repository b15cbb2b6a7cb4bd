/** Remainders of consecutive numbers. */
module Residues {
  lemma Multiples(n: nat, a: int, b: int)
    requires a <= b
    ensures a * n <= b * n
  {
  }

  lemma RemainderIs(n: nat, x: int, k: int, r: nat)
    requires r < n && x == k * n + r
    ensures x % n == r
  {
    var q := x / n;
    assert x == q * n + x % n;
    if q < k {
      Multiples(n, q + 1, k);
    } else if k < q {
      Multiples(n, k + 1, q);
    }
  }

  lemma QuotientIs(n: nat, x: nat, k: nat, r: nat)
    requires r < n && x == k * n + r
    ensures x / n == k
  {
    RemainderIs(n, x, k, r);
    var q := x / n;
    assert x == q * n + x % n;
    if q < k {
      Multiples(n, q + 1, k);
    } else if k < q {
      Multiples(n, k + 1, q);
    }
  }

  /** Two numbers leave the same remainder exactly when they are a multiple of n apart. */
  lemma SameRemainder(n: nat, x: int, y: int)
    requires n > 0
    ensures x % n == y % n <==> (x - y) % n == 0
  {
    var p, q := x / n, y / n;
    assert x == p * n + x % n && y == q * n + y % n;
    if x % n == y % n {
      assert (p - q) * n == p * n - q * n;
      RemainderIs(n, x - y, p - q, 0);
    } else if (x - y) % n == 0 {
      var d := (x - y) / n;
      assert x - y == d * n;
      assert (d + q) * n == d * n + q * n;
      RemainderIs(n, x, d + q, y % n);
    }
  }

  lemma RemainderSkips(n: nat, p: nat, x: nat)
    requires n > 0
    ensures (p * n + x) % n == x % n
  {
    var k := x / n;
    assert x == k * n + x % n;
    assert (p + k) * n == p * n + k * n;
    RemainderIs(n, p * n + x, p + k, x % n);
  }

  lemma RemainderMoves(n: nat, x: nat, d: nat)
    requires d < n
    ensures (x + d) % n == if x % n + d < n then x % n + d else x % n + d - n
  {
    var k := x / n;
    assert x == k * n + x % n;
    if x % n + d < n {
      RemainderIs(n, x + d, k, x % n + d);
    } else {
      assert (k + 1) * n == k * n + n;
      RemainderIs(n, x + d, k + 1, x % n + d - n);
    }
  }

  /** Different numbers less than n apart have different remainders. */
  lemma RemaindersDiffer(n: nat, i: nat, j: nat)
    requires i < j < i + n
    ensures i % n != j % n
  {
    RemainderMoves(n, i, j - i);
  }

  /** n consecutive numbers meet every remainder. */
  lemma RemainderMet(n: nat, start: nat, r: nat) returns (i: nat)
    requires r < n
    ensures start <= i < start + n && i % n == r
  {
    var q := start % n;
    i := if q <= r then start + (r - q) else start + (n + r - q);
    RemainderMoves(n, start, i - start);
  }

  /** Going up from start, the first number with its remainder again is start + n. */
  lemma BackToStart(n: nat, start: nat, i: nat)
    requires start < i <= start + n
    ensures i % n == start % n <==> i == start + n
  {
    if i < start + n {
      RemaindersDiffer(n, start, i);
    } else {
      RemainderSkips(n, 1, start);
    }
  }
}
