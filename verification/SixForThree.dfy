/** A code of six bytes for three over the field of four elements: any three of the six determine the
    others. */
module SixForThree {

  // ---- The field of four elements, four times in a byte ----

  datatype Element = Element(hi: bool, lo: bool)

  function Plus(a: Element, b: Element): Element
  {
    Element(a.hi != b.hi, a.lo != b.lo)
  }

  /** The product with a generator of the field. */
  function Times(a: Element): Element
  {
    Element(a.hi != a.lo, a.hi)
  }

  const O: Element := Element(false, false)

  /** Multiples: zero, the element itself, and its products with powers of the generator. */
  function Scaled(a: Element, n: nat): Element
  {
    if n == 0 then O else if n == 1 then a else Times(Scaled(a, n - 1))
  }

  /** The rows of the generator matrix. */
  function Row(i: nat): (nat, nat, nat)
  {
    match i
    case 0 => (1, 0, 0)
    case 1 => (0, 1, 0)
    case 2 => (0, 0, 1)
    case 3 => (1, 1, 1)
    case 4 => (1, 2, 3)
    case _ => (1, 3, 2)
  }

  /** Entry i of the word of three elements: themselves and three sums. */
  function Entry(x: Element, y: Element, z: Element, i: nat): Element
  {
    Plus(Scaled(x, Row(i).0), Plus(Scaled(y, Row(i).1), Scaled(z, Row(i).2)))
  }

  lemma PlusSwaps(a: Element, b: Element, c: Element, d: Element)
    ensures Plus(Plus(a, b), Plus(c, d)) == Plus(Plus(a, c), Plus(b, d))
  {
  }

  lemma SumIsLinear(a: Element, b: Element, c: Element, a': Element, b': Element, c': Element)
    ensures Plus(Plus(a, a'), Plus(Plus(b, b'), Plus(c, c'))) == Plus(Plus(a, Plus(b, c)), Plus(a', Plus(b', c')))
  {
    PlusSwaps(b, b', c, c');
    PlusSwaps(a, a', Plus(b, c), Plus(b', c'));
  }

  lemma {:induction false} ScaledIsLinear(a: Element, b: Element, n: nat)
    ensures Scaled(Plus(a, b), n) == Plus(Scaled(a, n), Scaled(b, n))
  {
    if n > 1 { ScaledIsLinear(a, b, n - 1); }
  }

  lemma EntryIsLinear(x: Element, y: Element, z: Element, x': Element, y': Element, z': Element, i: nat)
    ensures Entry(Plus(x, x'), Plus(y, y'), Plus(z, z'), i) == Plus(Entry(x, y, z, i), Entry(x', y', z', i))
  {
    var (p, q, r) := Row(i);
    ScaledIsLinear(x, x', p);
    ScaledIsLinear(y, y', q);
    ScaledIsLinear(z, z', r);
    SumIsLinear(Scaled(x, p), Scaled(y, q), Scaled(z, r), Scaled(x', p), Scaled(y', q), Scaled(z', r));
  }

  lemma Multiples(a: Element)
    ensures Scaled(a, 0) == O && Scaled(a, 1) == a && Scaled(a, 2) == Times(a) && Scaled(a, 3) == Times(Times(a))
  {
  }

  lemma ThreeZeros(x: Element, y: Element, z: Element, i: nat, j: nat, k: nat)
    requires i < j < k < 6 && Entry(x, y, z, i) == Entry(x, y, z, j) == Entry(x, y, z, k) == O
    ensures x == y == z == O
  {
    Multiples(x);
    Multiples(y);
    Multiples(z);
  }

  /** Any three entries determine the word. */
  lemma ThreeEntries(x: Element, y: Element, z: Element, x': Element, y': Element, z': Element, i: nat, j: nat, k: nat)
    requires i < j < k < 6
    requires Entry(x, y, z, i) == Entry(x', y', z', i) && Entry(x, y, z, j) == Entry(x', y', z', j)
    requires Entry(x, y, z, k) == Entry(x', y', z', k)
    ensures x == x' && y == y' && z == z'
  {
    EntryIsLinear(x, y, z, x', y', z', i);
    EntryIsLinear(x, y, z, x', y', z', j);
    EntryIsLinear(x, y, z, x', y', z', k);
    ThreeZeros(Plus(x, x'), Plus(y, y'), Plus(z, z'), i, j, k);
  }

  function Quarter(b: bv8, q: nat): Element
  {
    match q
    case 0 => Element(b & 2 != 0, b & 1 != 0)
    case 1 => Element(b & 8 != 0, b & 4 != 0)
    case 2 => Element(b & 32 != 0, b & 16 != 0)
    case _ => Element(b & 128 != 0, b & 64 != 0)
  }

  function Bit(b: bool, value: bv8): bv8
  {
    if b then value else 0
  }

  function Byte(a: Element, b: Element, c: Element, d: Element): bv8
  {
    Bit(a.lo, 1) | Bit(a.hi, 2) | Bit(b.lo, 4) | Bit(b.hi, 8) | Bit(c.lo, 16) | Bit(c.hi, 32) | Bit(d.lo,
                                                                                                    64) | Bit(d.hi, 128)
  }

  lemma ByteQuarters(a: Element, b: Element, c: Element, d: Element)
    ensures var x := Byte(a, b, c, d);
            Quarter(x, 0) == a && Quarter(x, 1) == b && Quarter(x, 2) == c && Quarter(x, 3) == d
  {
  }

  lemma QuartersByte(x: bv8)
    ensures Byte(Quarter(x, 0), Quarter(x, 1), Quarter(x, 2), Quarter(x, 3)) == x
  {
  }

  // ---- Bytes ----

  function ByteEntry(x: bv8, y: bv8, z: bv8, i: nat): bv8
  {
    Byte(Entry(Quarter(x, 0), Quarter(y, 0), Quarter(z, 0), i), Entry(Quarter(x, 1), Quarter(y, 1), Quarter(z, 1), i),
         Entry(Quarter(x, 2), Quarter(y, 2), Quarter(z, 2), i), Entry(Quarter(x, 3), Quarter(y, 3), Quarter(z, 3), i))
  }

  lemma QuarterOfEntry(x: bv8, y: bv8, z: bv8, i: nat, q: nat)
    requires q < 4
    ensures Quarter(ByteEntry(x, y, z, i), q) == Entry(Quarter(x, q), Quarter(y, q), Quarter(z, q), i)
  {
    ByteQuarters(Entry(Quarter(x, 0), Quarter(y, 0), Quarter(z, 0), i),
                 Entry(Quarter(x, 1), Quarter(y, 1), Quarter(z, 1), i),
                 Entry(Quarter(x, 2), Quarter(y, 2), Quarter(z, 2), i),
                   Entry(Quarter(x, 3), Quarter(y, 3), Quarter(z, 3), i));
  }

  lemma OwnEntries(x: Element, y: Element, z: Element)
    ensures Entry(x, y, z, 0) == x && Entry(x, y, z, 1) == y && Entry(x, y, z, 2) == z
  {
  }

  lemma OwnBytes(x: bv8, y: bv8, z: bv8)
    ensures ByteEntry(x, y, z, 0) == x && ByteEntry(x, y, z, 1) == y && ByteEntry(x, y, z, 2) == z
  {
    forall q | 0 <= q < 4
      ensures Quarter(ByteEntry(x, y, z, 0), q) == Quarter(x, q)
      ensures Quarter(ByteEntry(x, y, z, 1), q) == Quarter(y, q)
      ensures Quarter(ByteEntry(x, y, z, 2), q) == Quarter(z, q)
    {
      QuarterOfEntry(x, y, z, 0, q);
      QuarterOfEntry(x, y, z, 1, q);
      QuarterOfEntry(x, y, z, 2, q);
      OwnEntries(Quarter(x, q), Quarter(y, q), Quarter(z, q));
    }
    SameQuarters(ByteEntry(x, y, z, 0), x);
    SameQuarters(ByteEntry(x, y, z, 1), y);
    SameQuarters(ByteEntry(x, y, z, 2), z);
  }

  lemma SameQuarters(x: bv8, y: bv8)
    requires forall q :: 0 <= q < 4 ==> Quarter(x, q) == Quarter(y, q)
    ensures x == y
  {
    QuartersByte(x);
    QuartersByte(y);
    assert Quarter(x, 0) == Quarter(y, 0) && Quarter(x, 1) == Quarter(y, 1);
    assert Quarter(x, 2) == Quarter(y, 2) && Quarter(x, 3) == Quarter(y, 3);
  }

  lemma ThreeBytes(x: bv8, y: bv8, z: bv8, x': bv8, y': bv8, z': bv8, i: nat, j: nat, k: nat)
    requires i < j < k < 6
    requires ByteEntry(x, y, z, i) == ByteEntry(x', y', z', i) && ByteEntry(x, y, z, j) == ByteEntry(x', y', z', j)
    requires ByteEntry(x, y, z, k) == ByteEntry(x', y', z', k)
    ensures x == x' && y == y' && z == z'
  {
    forall q | 0 <= q < 4
      ensures Quarter(x, q) == Quarter(x', q) && Quarter(y, q) == Quarter(y', q) && Quarter(z, q) == Quarter(z', q)
    {
      QuartersAgree(x, y, z, x', y', z', i, q);
      QuartersAgree(x, y, z, x', y', z', j, q);
      QuartersAgree(x, y, z, x', y', z', k, q);
      ThreeEntries(Quarter(x, q), Quarter(y, q), Quarter(z, q), Quarter(x', q), Quarter(y', q), Quarter(z', q),
                   i, j, k);
    }
    SameQuarters(x, x');
    SameQuarters(y, y');
    SameQuarters(z, z');
  }

  lemma QuartersAgree(x: bv8, y: bv8, z: bv8, x': bv8, y': bv8, z': bv8, i: nat, q: nat)
    requires q < 4 && ByteEntry(x, y, z, i) == ByteEntry(x', y', z', i)
    ensures Entry(Quarter(x, q), Quarter(y, q), Quarter(z, q), i)
            == Entry(Quarter(x', q), Quarter(y', q), Quarter(z', q), i)
  {
    QuarterOfEntry(x, y, z, i, q);
    QuarterOfEntry(x', y', z', i, q);
  }
}
