/** The 64-bit binomial loop against Pascal's triangle, with the exact condition under which no
    intermediate product wraps. */
module Binomials {
  import opened Types
  import opened Arithmetic

  /** The number of k-element subsets of an n-element set, by Pascal's rule. */
  ghost function Choose(n: nat, k: nat): nat
  {
    if k == 0 then 1 else if n == 0 then 0 else Choose(n - 1, k - 1) + Choose(n - 1, k)
  }

  lemma ChooseNone(n: nat, k: nat)
    requires n < k
    ensures Choose(n, k) == 0
  {
  }

  lemma ChooseAll(n: nat)
    ensures Choose(n, n) == 1
  {
    if n > 0 {
      ChooseNone(n - 1, n);
    }
  }

  /** The two ways of picking a subset with a marked element. */
  lemma {:induction false} Absorption(n: nat, k: nat)
    requires 0 < k && 0 < n
    ensures k * Choose(n, k) == n * Choose(n - 1, k - 1)
  {
    if n == 1 {
      if k > 1 {
        ChooseNone(1, k);
        ChooseNone(0, k - 1);
      }
    } else {
      Absorption(n - 1, k);
      if k > 1 {
        Absorption(n - 1, k - 1);
      }
      var a, b := if k > 1 then Choose(n - 2, k - 2) else 0, Choose(n - 2, k - 1);
      MarkedSplit(n, k, a, b, Choose(n - 1, k));
    }
  }

  /** The algebra of the inductive step. */
  lemma MarkedSplit(n: nat, k: nat, a: nat, b: nat, other: nat)
    requires k > 0 && n > 0 && k * other == (n - 1) * b && (k - 1) * (a + b) == (n - 1) * a
    ensures k * (a + b + other) == n * (a + b)
  {
    var below := a + b;
    assert k * (below + other) == k * below + k * other;
    Distribute(k - 1, below);
    assert (n - 1) * a + (n - 1) * b == (n - 1) * below;
    Distribute(n - 1, below);
  }

  lemma {:induction false} ChooseSymmetric(n: nat, k: nat)
    requires k <= n
    ensures Choose(n, k) == Choose(n, n - k)
  {
    if k == 0 || k == n {
      ChooseAll(n);
    } else {
      ChooseSymmetric(n - 1, k - 1);
      ChooseSymmetric(n - 1, k);
      assert n - 1 - (k - 1) == n - k && n - 1 - k == n - k - 1;
    }
  }

  /** How far the loop has to count: the shorter of the two sides. */
  function Side(n: nat, k: nat): nat
    requires k <= n
  {
    if k > n / 2 then n - k else k
  }

  /** Along the diagonal the loop walks, the values never fall. */
  lemma DiagonalGrows(d: nat, i: nat)
    ensures 0 < Choose(d + i, i) <= Choose(d + i + 1, i + 1)
  {
    if i > 0 {
      DiagonalGrows(d, i - 1);
    }
    assert Choose(d + i + 1, i + 1) == Choose(d + i, i) + Choose(d + i, i + 1);
  }

  /** Dividing an exact multiple, or something smaller. */
  lemma ExactDivision(i: nat, x: nat, y: nat)
    requires 0 < i
    ensures y == i * x ==> y / i == x
    ensures y < i * x ==> y / i < x
  {
    var q: nat := y / i;
    assert i * q <= y < i * q + i;
    if q < x {
      TimesBelow(i, q, x);
    } else if x < q {
      TimesBelow(i, x, q);
    }
  }

  /** The body of the loop, in 64-bit arithmetic. */
  function Turn(m: nat, i: nat, b: nat): nat
    requires 0 < i
  {
    (m * b % UINT64) / i
  }

  /** The product that the turn giving Choose(d + i, i) has to divide. */
  ghost function Product(d: nat, i: nat): nat
  {
    i * Choose(d + i, i)
  }

  /** One turn of the loop: from at most the diagonal value to at most the next, and to it exactly
      when it started exact and the product did not wrap. */
  lemma TurnOfLoop(d: nat, i: nat, b: nat)
    requires 0 < i && b <= Choose(d + i - 1, i - 1)
    ensures var b' := Turn(d + i, i, b);
      && b' <= Choose(d + i, i)
      && (b' == Choose(d + i, i) <==> b == Choose(d + i - 1, i - 1) && Product(d, i) < UINT64)
  {
    var last, next := Choose(d + i - 1, i - 1), Choose(d + i, i);
    var product := (d + i) * b;
    Absorption(d + i, i);
    if b < last {
      TimesBelow(d + i, b, last);
    }
    Wrapped(product);
    ExactDivision(i, next, product % UINT64);
  }

  lemma Wrapped(x: nat)
    ensures 0 <= x % UINT64 <= x
    ensures x % UINT64 == x <==> x < UINT64
  {
  }

  lemma ProductGrows(d: nat, i: nat)
    requires 0 < i
    ensures Product(d, i - 1) <= Product(d, i)
  {
    DiagonalGrows(d, i - 1);
    TimesGrows(i - 1, i, Choose(d + i - 1, i - 1), Choose(d + i, i));
  }

  /** utils.Binomial. The panic for k beyond n is the error result. The value is the binomial
      coefficient exactly when the last product of the loop fits in 64 bits; otherwise it is too small. */
  method Binomial(n: nat, k: nat) returns (r: Result<nat>)
    requires n < UINT64 && k < UINT64
    ensures r.Err? <==> n < k
    ensures r.Ok? ==> r.value <= Choose(n, k)
    ensures r.Ok? ==> (r.value == Choose(n, k) <==> Side(n, k) * Choose(n, k) < UINT64)
  {
    if n < k {
      return Err;
    }
    var side := k;
    if side > n / 2 {
      side := n - side;
      ChooseSymmetric(n, k);
    }
    var b: nat, i, d := 1, 1, n - side;
    while i <= side
      invariant 1 <= i <= side + 1
      invariant b <= Choose(d + i - 1, i - 1)
      invariant b == Choose(d + i - 1, i - 1) <==> Product(d, i - 1) < UINT64
    {
      TurnOfLoop(d, i, b);
      ProductGrows(d, i);
      b := Turn(d + i, i, b);
      i := i + 1;
    }
    return Ok(b);
  }
}
