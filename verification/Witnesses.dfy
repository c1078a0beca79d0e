/** The assumptions about coding, tags and hashing can be met: a coder with two data shards, and hashing
    without collisions. */
module Witnesses {
  import opened Types
  import opened SixForThree
  import opened Coder
  import opened Recovery
  import M = MerkleTag
  import opened Arithmetic

  // ---- A code ----

  /** Byte by byte, entry i of the words of three shards. */
  function Mixed(a: Bytes, b: Bytes, c: Bytes, i: nat): (r: Bytes)
    requires |a| == |b| == |c|
    ensures |r| == |a| && forall p :: 0 <= p < |a| ==> r[p] == ByteEntry(a[p], b[p], c[p], i)
  {
    seq(|a|, p requires 0 <= p < |a| => ByteEntry(a[p], b[p], c[p], i))
  }

  /** One shard repeated, two with their sum, or three with three sums. */
  function Parity(k: nat, m: nat, d: seq<Bytes>): seq<Bytes>
  {
    if k == 1 && |d| == 1 then seq(m, _ => d[0])
    else if k == 2 && m == 1 && |d| == 2 && |d[0]| == |d[1]| then [Mixed(d[0], d[1], Zeros(|d[0]|), 3)]
    else if k == 3 && m == 3 && |d| == 3 && |d[0]| == |d[1]| == |d[2]| then
      [Mixed(d[0], d[1], d[2], 3), Mixed(d[0], d[1], d[2], 4), Mixed(d[0], d[1], d[2], 5)]
    else []
  }

  predicate Made(k: nat, m: nat)
  {
    k == 1 || (k == 2 && m == 1) || (k == 3 && m == 3)
  }

  ghost predicate Word(k: nat, m: nat, w: seq<Bytes>, len: nat)
  {
    |w| == k + m && len > 0 && Even(w, len) && w[k..] == Parity(k, m, w[..k])
  }

  lemma ThirdOfTwo(w: seq<Bytes>, len: nat, p: nat)
    requires Word(2, 1, w, len) && p < len
    ensures |w| == 3 && |w[0]| == |w[1]| == |w[2]| == len
    ensures ByteEntry(w[0][p], w[1][p], 0, 0) == w[0][p] && ByteEntry(w[0][p], w[1][p], 0, 1) == w[1][p]
    ensures ByteEntry(w[0][p], w[1][p], 0, 3) == w[2][p]
  {
    assert w[2] == w[2..][0];
    OwnBytes(w[0][p], w[1][p], 0);
  }

  lemma EntryOfThree(w: seq<Bytes>, len: nat, p: nat, i: nat)
    requires Word(3, 3, w, len) && p < len && i < 6
    ensures |w| == 6 && |w[0]| == |w[1]| == |w[2]| == |w[i]| == len
    ensures ByteEntry(w[0][p], w[1][p], w[2][p], i) == w[i][p]
  {
    if i < 3 {
      OwnBytes(w[0][p], w[1][p], w[2][p]);
    } else {
      assert w[i] == w[3..][i - 3] == Mixed(w[0], w[1], w[2], i);
    }
  }

  // ---- Any k shards determine the word ----

  /** The last true entry, and how many there are before it. */
  lemma {:induction false} LastTrue(b: seq<bool>) returns (j: nat)
    requires CountTrue(b) > 0
    ensures j < |b| && b[j] && CountTrue(b[..j]) == CountTrue(b) - 1
  {
    j := |b| - 1;
    if !b[j] {
      var init := b[..j];
      j := LastTrue(init);
      assert init[..j] == b[..j];
    }
  }

  /** s fits both words. */
  ghost predicate Both(s: seq<Shard>, w: seq<Bytes>, w': seq<Bytes>)
  {
    Agrees(s, w) && Agrees(s, w')
  }

  lemma SharedShard(s: seq<Shard>, w: seq<Bytes>, w': seq<Bytes>, i: nat)
    requires Both(s, w, w') && i < |s| && Mask(s)[i]
    ensures w[i] == w'[i]
  {
  }

  lemma TwoBytes(x: bv8, y: bv8, x': bv8, y': bv8, i: nat)
    requires i < 2 && ByteEntry(x, y, 0, i) == ByteEntry(x', y', 0, i)
    requires ByteEntry(x, y, 0, 3) == ByteEntry(x', y', 0, 3)
    ensures x == x' && y == y'
  {
    OwnBytes(x, y, 0);
    OwnBytes(x', y', 0);
    ThreeBytes(x, y, 0, x', y', 0, i, 2, 3);
  }

  lemma OneAndSum(w: seq<Bytes>, w': seq<Bytes>, len: nat, i: nat)
    requires Word(2, 1, w, len) && Word(2, 1, w', len) && i < 2 && w[i] == w'[i] && w[2] == w'[2]
    ensures w[0] == w'[0] && w[1] == w'[1]
  {
    forall p | 0 <= p < len ensures w[0][p] == w'[0][p] && w[1][p] == w'[1][p] {
      ThirdOfTwo(w, len, p);
      ThirdOfTwo(w', len, p);
      TwoBytes(w[0][p], w[1][p], w'[0][p], w'[1][p], i);
    }
  }

  lemma TwoDecide(s: seq<Shard>, w: seq<Bytes>, w': seq<Bytes>, len: nat)
    requires Word(2, 1, w, len) && Word(2, 1, w', len) && Both(s, w, w') && Present(s) >= 2
    ensures w == w'
  {
    var j := LastTrue(Mask(s));
    var i := LastTrue(Mask(s)[..j]);
    SharedShard(s, w, w', i);
    SharedShard(s, w, w', j);
    if j == 2 { OneAndSum(w, w', len, i); }
    assert w[..2] == w'[..2] && w == w[..2] + w[2..] && w' == w'[..2] + w'[2..];
  }

  lemma ThreeDecide(s: seq<Shard>, w: seq<Bytes>, w': seq<Bytes>, len: nat)
    requires Word(3, 3, w, len) && Word(3, 3, w', len) && Both(s, w, w') && Present(s) >= 3
    ensures w == w'
  {
    var k := LastTrue(Mask(s));
    var j := LastTrue(Mask(s)[..k]);
    var i := LastTrue(Mask(s)[..k][..j]);
    SharedShard(s, w, w', i);
    SharedShard(s, w, w', j);
    SharedShard(s, w, w', k);
    forall p | 0 <= p < len ensures w[0][p] == w'[0][p] && w[1][p] == w'[1][p] && w[2][p] == w'[2][p] {
      forall n | n == i || n == j || n == k
        ensures ByteEntry(w[0][p], w[1][p], w[2][p], n) == ByteEntry(w'[0][p], w'[1][p], w'[2][p], n)
      {
        EntryOfThree(w, len, p, n);
        EntryOfThree(w', len, p, n);
      }
      ThreeBytes(w[0][p], w[1][p], w[2][p], w'[0][p], w'[1][p], w'[2][p], i, j, k);
    }
    assert w[0] == w'[0] && w[1] == w'[1] && w[2] == w'[2];
    assert w[..3] == w'[..3] && w == w[..3] + w[3..] && w' == w'[..3] + w'[3..];
  }

  lemma OneDecides(m: nat, s: seq<Shard>, w: seq<Bytes>, w': seq<Bytes>, len: nat)
    requires Word(1, m, w, len) && Word(1, m, w', len) && Both(s, w, w') && Present(s) >= 1
    ensures w == w'
  {
    var j := LastTrue(Mask(s));
    SharedShard(s, w, w', j);
    if j > 0 { assert w[j] == w[1..][j - 1] && w'[j] == w'[1..][j - 1]; }
    assert w[0] == w'[0];
    assert w[..1] == w'[..1] && w == w[..1] + w[1..] && w' == w'[..1] + w'[1..];
  }

  lemma Decided(k: nat, m: nat, s: seq<Shard>, w: seq<Bytes>, len: nat, w': seq<Bytes>, len': nat)
    requires Made(k, m) && Word(k, m, w, len) && Word(k, m, w', len') && Both(s, w, w') && Present(s) >= k
    ensures w == w'
  {
    var j := LastTrue(Mask(s));
    SharedShard(s, w, w', j);
    assert |w[j]| == len && |w'[j]| == len';
    if k == 1 { OneDecides(m, s, w, w', len); }
    if k == 2 { TwoDecide(s, w, w', len); }
    if k == 3 { ThreeDecide(s, w, w', len); }
  }

  ghost predicate Extends(k: nat, m: nat, s: seq<Shard>, w: seq<Bytes>)
  {
    Agrees(s, w) && exists len :: Word(k, m, w, len)
  }

  /** The word the shards belong to, if there is one. */
  ghost function Filled(k: nat, m: nat, s: seq<Shard>): (r: seq<Bytes>)
    ensures Agrees(s, r)
  {
    if w :| Extends(k, m, s, w) then w else Values(s)
  }

  lemma FilledIs(k: nat, m: nat, s: seq<Shard>, w: seq<Bytes>, len: nat)
    requires Made(k, m) && Word(k, m, w, len) && Agrees(s, w) && Present(s) >= k
    ensures Filled(k, m, s) == w
  {
    assert Extends(k, m, s, w);
    var w' := Filled(k, m, s);
    assert Extends(k, m, s, w');
    var len' :| Word(k, m, w', len');
    Decided(k, m, s, w, len, w', len');
  }

  lemma ParitySizes(k: nat, m: nat, d: seq<Bytes>, len: nat)
    requires Made(k, m) && |d| == k && Even(d, len)
    ensures |Parity(k, m, d)| == m && Even(Parity(k, m, d), len)
  {
  }

  // ---- A coder ----

  /** The one valid tag of a segment. */
  function TagFor(seg: Bytes): Bytes
  {
    [if seg == [] then 0 else seg[0]]
  }

  /** Two data shards of one byte, one parity shard, two tags of one byte. */
  ghost function SmallCoder(): Scheme
  {
    Scheme(Rs, 2, 1, 2, 1, 1, Zeros(PREFIX_LEN), (k: nat, m: nat) => Made(k, m),
           (k: nat, m: nat, d) => Parity(k, m, d), (k: nat, m: nat, s) => Filled(k, m, s),
           (_, _, seg) => TagFor(seg), (_, _, seg, tag) => tag == TagFor(seg), _ => true)
  }

  lemma SmallCoderCodes()
    ensures IdealCode(SmallCoder())
  {
    var c := SmallCoder();
    forall k, m, d, len | |d| == k && Even(d, len) && c.rsOk(k, m)
      ensures |c.parity(k, m, d)| == m && Even(c.parity(k, m, d), len)
    {
      ParitySizes(k, m, d, len);
    }
    forall k, m, s, w, len | c.rsOk(k, m) && CodeWord(c, k, m, w, len) && Agrees(s, w) && Present(s) >= k
      ensures c.fill(k, m, s) == w
    {
      assert Word(k, m, w, len);
      FilledIs(k, m, s, w, len);
    }
  }

  lemma SmallCoderSound()
    ensures Sound(SmallCoder()) && OneTag(SmallCoder())
  {
    SmallCoderCodes();
  }

  lemma SmallCounts()
    ensures Area(1, 2) == 2 && Area(3, 1) == 3 && CodesExist(SmallCoder())
  {
    assert Area(1, 1) == 1;
  }

  lemma EncodedWhen(c: Scheme, name: nat, data: Bytes)
    requires Sound(c) && CodesExist(c) && 0 < |data| <= Area(c.segSize, c.dc)
    ensures Encoded(c, name, data).Ok?
  {
  }

  lemma SoundCoder() returns (c: Scheme)
    ensures c.dc == 2 && c.segSize == 1 && Sound(c) && CodesExist(c) && OneTag(c)
  {
    c := SmallCoder();
    SmallCoderSound();
    SmallCounts();
  }

  /** Everything assumed of a coder holds of this one, which codes two data shards. */
  lemma AssumptionsCanBeMet(name: nat, data: Bytes) returns (c: Scheme)
    requires 0 < |data| <= 2
    ensures c.dc == 2 && Sound(c) && CodesExist(c) && OneTag(c) && Encoded(c, name, data).Ok?
  {
    c := SoundCoder();
    assert Area(1, 2) == 2;
    EncodedWhen(c, name, data);
  }

  // ---- Hashing ----

  function Paired(a: nat, b: nat): nat
  {
    (a + b) * (a + b) + a
  }

  lemma PairedApart(a: nat, b: nat, c: nat, d: nat)
    requires Paired(a, b) == Paired(c, d)
    ensures a == c && b == d
  {
    SquareSteps(a + b, a, c + d, c);
    SquareSteps(c + d, c, a + b, a);
  }

  lemma SquareSteps(x: nat, a: nat, y: nat, c: nat)
    requires a <= x && c <= y && x * x + a == y * y + c
    ensures x <= y
  {
    if y < x {
      assert (y + 1) * (y + 1) == y * y + 2 * y + 1;
      TimesGrows(y + 1, x, y + 1, x);
    }
  }

  function Listed(s: seq<nat>): nat
  {
    if s == [] then 0 else Paired(s[0], Listed(s[1..])) + 1
  }

  lemma {:induction false} ListedApart(s: seq<nat>, t: seq<nat>)
    requires Listed(s) == Listed(t)
    ensures s == t
  {
    if s != [] && t != [] {
      PairedApart(s[0], Listed(s[1..]), t[0], Listed(t[1..]));
      ListedApart(s[1..], t[1..]);
      assert s == [s[0]] + s[1..] && t == [t[0]] + t[1..];
    }
  }

  function Numbers(b: Bytes): seq<nat>
  {
    seq(|b|, i requires 0 <= i < |b| => b[i] as nat)
  }

  lemma NumbersApart(a: Bytes, b: Bytes)
    requires Numbers(a) == Numbers(b)
    ensures a == b
  {
    forall i | 0 <= i < |a| ensures a[i] == b[i] {
      assert Numbers(a)[i] == Numbers(b)[i];
    }
  }

  function LinkNumbers(links: seq<M.Link>): seq<nat>
  {
    seq(|links|, i requires 0 <= i < |links| => Paired(links[i].size, links[i].cid))
  }

  lemma LinksApart(a: seq<M.Link>, b: seq<M.Link>)
    requires LinkNumbers(a) == LinkNumbers(b)
    ensures a == b
  {
    assert |a| == |LinkNumbers(a)| == |b|;
    forall i | 0 <= i < |a| ensures a[i] == b[i] {
      assert LinkNumbers(a)[i] == LinkNumbers(b)[i];
      PairedApart(a[i].size, a[i].cid, b[i].size, b[i].cid);
    }
  }

  function NodeNumber(n: M.Node): nat
  {
    Paired(Paired(n.size, n.fileSize), Paired(Listed(LinkNumbers(n.links)), Listed(n.fileSizes)))
  }

  lemma NodesApart(m: M.Node, n: M.Node)
    requires NodeNumber(m) == NodeNumber(n)
    ensures m == n
  {
    PairedApart(Paired(m.size, m.fileSize), Paired(Listed(LinkNumbers(m.links)), Listed(m.fileSizes)),
                Paired(n.size, n.fileSize), Paired(Listed(LinkNumbers(n.links)), Listed(n.fileSizes)));
    PairedApart(m.size, m.fileSize, n.size, n.fileSize);
    PairedApart(Listed(LinkNumbers(m.links)), Listed(m.fileSizes), Listed(LinkNumbers(n.links)), Listed(n.fileSizes));
    ListedApart(LinkNumbers(m.links), LinkNumbers(n.links));
    LinksApart(m.links, n.links);
    ListedApart(m.fileSizes, n.fileSizes);
  }

  /** Ids without collisions: even numbers for blocks and odd ones for nodes. */
  lemma HashingCanBeIdeal()
    ensures M.Ideal(M.Hasher((b: Bytes) => 2 * Listed(Numbers(b)), (n: M.Node) => 2 * NodeNumber(n) + 1, _ => 0))
  {
    forall a: Bytes, b: Bytes | Listed(Numbers(a)) == Listed(Numbers(b)) ensures a == b {
      ListedApart(Numbers(a), Numbers(b));
      NumbersApart(a, b);
    }
    forall m: M.Node, n: M.Node | NodeNumber(m) == NodeNumber(n) ensures m == n {
      NodesApart(m, n);
    }
  }
}
