/** Facts about products and quotients, stated once so that other proofs stay linear. */
module Arithmetic {

  function Max(a: int, b: int): int
  {
    if a < b then b else a
  }

  function Min(a: int, b: int): int
  {
    if a < b then a else b
  }

  lemma TimesGrows(x: nat, y: nat, a: nat, b: nat)
    requires x <= y && a <= b
    ensures x * a <= y * b
  {
    assert x * a <= y * a <= y * b;
  }

  lemma TimesBelow(i: nat, x: nat, y: nat)
    requires x < y
    ensures i * x + i <= i * y
  {
    assert i * (x + 1) == i * x + i;
    TimesGrows(i, i, x + 1, y);
  }

  lemma Distribute(a: int, b: int)
    ensures (a + 1) * b == a * b + b
  {
  }

  lemma TimesNext(b: int, n: int)
    ensures b * n == b * (n - 1) + b
  {
  }

  /** Quotient and remainder of a number given by both. */
  lemma QuotientIs(size: nat, q: nat, r: nat)
    requires r < size
    ensures (size * q + r) / size == q && (size * q + r) % size == r
  {
    var n := size * q + r;
    var d: nat := n / size;
    assert size * d <= n < size * d + size;
    if d < q {
      TimesBelow(size, d, q);
    } else if q < d {
      TimesBelow(size, q, d);
    }
  }

  /** Rows of equal width: the product, by repeated addition. */
  function Area(width: nat, rows: nat): nat
  {
    if rows == 0 then 0 else Area(width, rows - 1) + width
  }

  lemma AreaIsProduct(width: nat, rows: nat)
    ensures Area(width, rows) == width * rows
  {
    if rows > 0 {
      AreaIsProduct(width, rows - 1);
      TimesNext(width, rows);
    }
  }

  lemma AreaGrows(width: nat, rows: nat, more: nat)
    requires rows < more
    ensures Area(width, rows) + width <= Area(width, more)
  {
    if rows + 1 < more {
      AreaGrows(width, rows, more - 1);
    }
  }

  lemma AreaWider(width: nat, wider: nat, rows: nat)
    requires width <= wider
    ensures Area(width, rows) <= Area(wider, rows)
  {
  }
}
