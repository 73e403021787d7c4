/** Division facts behind the page and frame numbering, and counting of finite sets. */
module Arith {

  lemma MulMonotone(a: int, b: int, n: nat)
    requires a <= b
    ensures a * n <= b * n
  {
  }

  lemma DivMod(a: nat, n: nat)
    requires n > 0
    ensures a == a / n * n + a % n && 0 <= a % n < n && 0 <= a / n
  {
  }

  /** A number is determined by quotient and remainder. */
  lemma DivUnique(a: nat, n: nat, q: nat, r: nat)
    requires n > 0 && a == q * n + r && r < n
    ensures a / n == q && a % n == r
  {
    DivMod(a, n);
    QuotientUnique(n, a / n, a % n, q, r);
  }

  lemma QuotientUnique(n: nat, q: int, r: nat, q': int, r': nat)
    requires r < n && r' < n && q * n + r == q' * n + r'
    ensures q == q' && r == r'
  {
    if q < q' {
      MulMonotone(q + 1, q', n);
    } else if q' < q {
      MulMonotone(q' + 1, q, n);
    }
  }

  lemma DivBelow(a: nat, m: nat, n: nat)
    requires n > 0 && a < m * n
    ensures 0 <= a / n < m && 0 <= a % n < n && a == a / n * n + a % n
  {
    DivMod(a, n);
    if a / n >= m {
      MulMonotone(m, a / n, n);
    }
  }

  lemma DivAtMost(a: nat, m: nat, n: nat)
    requires n > 0 && a <= m * n
    ensures a / n <= m
  {
    DivMod(a, n);
    if a / n > m {
      MulMonotone(m + 1, a / n, n);
    }
  }

  lemma PairBelow(q: nat, r: nat, m: nat, n: nat)
    requires q < m && r < n
    ensures 0 <= q * n + r < m * n
  {
    MulMonotone(q + 1, m, n);
  }

  /** The numbers below n. */
  function Below(n: nat): (r: set<nat>)
    ensures |r| == n && forall x: nat :: x in r <==> x < n
  {
    if n == 0 then {} else Below(n - 1) + {n - 1}
  }

  lemma {:induction false} Subsets<T>(a: set<T>, b: set<T>)
    requires a <= b
    ensures |a| <= |b|
    decreases a
  {
    if a != {} {
      var x :| x in a;
      Subsets(a - {x}, b - {x});
    }
  }
}
