/**
 * The mathematical factorial that the trait method computes, an independent
 * "product of 1..n" definition, and the facts about both that the crate's
 * documentation and tests rely on.
 */
module FactorialMath {

  /** n!, by the recurrence 0! = 1 and n! = n * (n - 1)!. */
  function Fact(n: nat): (r: nat)
    ensures 1 <= r
  {
    if n == 0 then 1 else n * Fact(n - 1)
  }

  /** The product lo * (lo + 1) * ... * hi of a range of integers; 1 for an empty range. */
  function Product(lo: int, hi: int): (r: int)
    decreases hi - lo
  {
    if lo > hi then 1 else lo * Product(lo + 1, hi)
  }

  /** Multiplying the product of lo..hi-1 by hi gives the product of lo..hi: the loop's step. */
  lemma {:induction false} ProductLast(lo: int, hi: int)
    requires lo <= hi
    ensures Product(lo, hi) == Product(lo, hi - 1) * hi
    decreases hi - lo
  {
    if lo < hi {
      ProductLast(lo + 1, hi);
      calc {
        Product(lo, hi);
        lo * Product(lo + 1, hi);
        lo * (Product(lo + 1, hi - 1) * hi);
        (lo * Product(lo + 1, hi - 1)) * hi;
        Product(lo, hi - 1) * hi;
      }
    }
  }

  /** n! is the product of all positive integers up to n. */
  lemma {:induction false} FactIsProduct(n: nat)
    ensures Fact(n) == Product(1, n)
  {
    if n > 0 {
      FactIsProduct(n - 1);
      ProductLast(1, n);
    }
  }

  /** Scaling a non-negative number by a factor of at least 1 does not make it smaller. */
  lemma ScaleAtLeast(k: nat, x: nat)
    requires 1 <= k
    ensures x <= k * x
  {
  }

  /** Factorial never decreases. */
  lemma {:induction false} FactMonotone(m: nat, n: nat)
    requires m <= n
    ensures Fact(m) <= Fact(n)
    decreases n - m
  {
    if m < n {
      FactMonotone(m, n - 1);
      ScaleAtLeast(n, Fact(n - 1));
    }
  }

  /** For m < n, m! < n! exactly when n >= 2: only 0! = 1! breaks strict growth. */
  lemma {:induction false} FactStrictlyIncreasing(m: nat, n: nat)
    requires m < n
    ensures Fact(m) < Fact(n) <==> 2 <= n
  {
    FactMonotone(m, n - 1);
    var prev := Fact(n - 1);
    if 2 <= n {
      ScaleAtLeast(n - 1, prev);
      assert Fact(n) == (n - 1) * prev + prev;
    } else {
      assert m == 0 && n == 1;
      assert Fact(1) == 1 * Fact(0);
    }
  }

  /** From 3 on, n! exceeds n, so a counter that stops at n + 1 never exceeds n!. */
  lemma CounterBelowFact(n: nat)
    requires 3 <= n
    ensures n + 1 <= Fact(n)
  {
  }
}
