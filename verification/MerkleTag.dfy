/** The streaming Merkle tag: a carry-propagating tree of fan-out 174 over fixed-size blocks. */
module MerkleTag {
  import opened Types
  import opened Arithmetic

  type Cid = nat

  const FANOUT: nat := 174
  const DEFAULT_BLOCK: nat := 248 * 1024
  const MAX_INT32: nat := 0x7fff_ffff

  // ---- Nodes ----

  datatype Link = Link(size: nat, cid: Cid)

  /** RootNode: `fileSizes` and `fileSize` are the unixfs record, `size` the running encoded size. */
  datatype Node = Node(size: nat, links: seq<Link>, fileSizes: seq<nat>, fileSize: nat)

  const EmptyNode: Node := Node(0, [], [], 0)

  /** What a parent records about a child. */
  datatype Summary = Summary(fileSize: nat, size: nat, cid: Cid)

  /** Hashing and node encoding: the id of a block, the id of a node and its encoded length. */
  datatype Hasher = Hasher(block: Bytes -> Cid, node: Node -> Cid, width: Node -> nat)

  function AddLink(n: Node, s: Summary): Node
  {
    Node(n.size + s.size, n.links + [Link(s.size, s.cid)], n.fileSizes + [s.fileSize], n.fileSize + s.fileSize)
  }

  function Summarize(h: Hasher, n: Node): Summary
  {
    Summary(n.fileSize, h.width(n) + n.size, h.node(n))
  }

  function BlockSummary(h: Hasher, b: Bytes): Summary
  {
    Summary(|b|, |b|, h.block(b))
  }

  predicate Full(n: Node)
  {
    |n.links| >= FANOUT
  }

  // ---- The trees that the links stand for ----

  datatype Merkle = Leaf(data: Bytes) | Branch(kids: seq<Merkle>)

  function TreeSummary(h: Hasher, t: Merkle): Summary
    decreases t
  {
    match t
    case Leaf(b) => BlockSummary(h, b)
    case Branch(kids) => Summarize(h, NodeOf(h, kids))
  }

  /** The node that links to these trees. */
  function NodeOf(h: Hasher, kids: seq<Merkle>): Node
    decreases kids
  {
    if kids == [] then EmptyNode
    else AddLink(NodeOf(h, kids[..|kids| - 1]), TreeSummary(h, kids[|kids| - 1]))
  }

  /** The blocks under a tree, from left to right. */
  ghost function Leaves(t: Merkle): seq<Bytes>
    decreases t
  {
    match t
    case Leaf(b) => [b]
    case Branch(kids) => AllLeaves(kids)
  }

  ghost function AllLeaves(kids: seq<Merkle>): seq<Bytes>
    decreases kids
  {
    if kids == [] then [] else AllLeaves(kids[..|kids| - 1]) + Leaves(kids[|kids| - 1])
  }

  /** A complete tree of the given height: every node on the way down has all its links. */
  ghost predicate Perfect(t: Merkle, height: nat)
  {
    match t
    case Leaf(_) => height == 0
    case Branch(kids) => height > 0 && |kids| == FANOUT && forall k :: k in kids ==> Perfect(k, height - 1)
  }

  /** No node has more links than an encoded node may hold. */
  ghost predicate Bounded(t: Merkle)
  {
    match t
    case Leaf(_) => true
    case Branch(kids) => |kids| <= FANOUT && forall k :: k in kids ==> Bounded(k)
  }

  // ---- The forest: the trees of every layer ----

  /** Add a tree to layer i, carrying a full layer upwards as one tree. */
  ghost function Put(f: seq<seq<Merkle>>, i: nat, t: Merkle): seq<seq<Merkle>>
    requires i <= |f|
    decreases |f| - i
  {
    if i == |f| then f + [[t]]
    else if |f[i]| + 1 < FANOUT then f[i := f[i] + [t]]
    else Put(f[i := []], i + 1, Branch(f[i] + [t]))
  }

  ghost function Forest(bs: seq<Bytes>): seq<seq<Merkle>>
  {
    if bs == [] then [[]] else Put(Forest(bs[..|bs| - 1]), 0, Leaf(bs[|bs| - 1]))
  }

  /** The blocks under layers i and up, the highest layer first. */
  ghost function Expand(f: seq<seq<Merkle>>, i: nat): seq<Bytes>
    requires i <= |f|
    decreases |f| - i
  {
    if i == |f| then [] else Expand(f, i + 1) + AllLeaves(f[i])
  }

  ghost predicate LayerOk(ts: seq<Merkle>, height: nat)
  {
    |ts| < FANOUT && forall t :: t in ts ==> Perfect(t, height)
  }

  ghost predicate ForestOk(f: seq<seq<Merkle>>)
  {
    forall i {:trigger LayerOk(f[i], i)} :: 0 <= i < |f| ==> LayerOk(f[i], i)
  }

  lemma {:induction false} PutOk(f: seq<seq<Merkle>>, i: nat, t: Merkle)
    requires i <= |f| && ForestOk(f) && Perfect(t, i)
    ensures ForestOk(Put(f, i, t))
    decreases |f| - i
  {
    if i == |f| {
      assert LayerOk([t], i);
    } else if |f[i]| + 1 < FANOUT {
      assert LayerOk(f[i], i);
      assert LayerOk(f[i] + [t], i);
    } else {
      assert LayerOk(f[i], i);
      assert LayerOk([], i);
      PutOk(f[i := []], i + 1, Branch(f[i] + [t]));
    }
  }

  lemma {:induction false} PutBelow(f: seq<seq<Merkle>>, i: nat, t: Merkle)
    requires i <= |f|
    ensures i < |Put(f, i, t)| && forall j :: 0 <= j < i ==> Put(f, i, t)[j] == f[j]
    decreases |f| - i
  {
    if i < |f| && |f[i]| + 1 >= FANOUT {
      PutBelow(f[i := []], i + 1, Branch(f[i] + [t]));
    }
  }

  lemma {:induction false} PutExpands(f: seq<seq<Merkle>>, i: nat, t: Merkle)
    requires i <= |f|
    ensures i < |Put(f, i, t)| && Expand(Put(f, i, t), i) == Expand(f, i) + Leaves(t)
    decreases |f| - i
  {
    PutBelow(f, i, t);
    if i == |f| {
      assert Expand(f + [[t]], i + 1) == [];
      AllLeavesOne(t);
    } else {
      AllLeavesAppend(f[i], t);
      if |f[i]| + 1 < FANOUT {
        ExpandFrame(f, f[i := f[i] + [t]], i + 1);
      } else {
        var g, kids := f[i := []], f[i] + [t];
        PutExpands(g, i + 1, Branch(kids));
        CarriedExpands(f, i, kids);
      }
    }
  }

  /** A layer that is full leaves nothing behind and goes up as one tree. */
  lemma CarriedExpands(f: seq<seq<Merkle>>, i: nat, kids: seq<Merkle>)
    requires i < |f|
    requires var p := Put(f[i := []], i + 1, Branch(kids));
             i + 1 < |p| && Expand(p, i + 1) == Expand(f[i := []], i + 1) + Leaves(Branch(kids))
    ensures var p := Put(f[i := []], i + 1, Branch(kids));
            Expand(p, i) == Expand(f, i + 1) + AllLeaves(kids)
  {
    PutBelow(f[i := []], i + 1, Branch(kids));
    ExpandFrame(f, f[i := []], i + 1);
    assert AllLeaves([]) == [];
  }

  lemma AllLeavesAppend(ts: seq<Merkle>, t: Merkle)
    ensures AllLeaves(ts + [t]) == AllLeaves(ts) + Leaves(t)
  {
    assert (ts + [t])[..|ts|] == ts;
  }

  lemma AllLeavesOne(t: Merkle)
    ensures AllLeaves([t]) == Leaves(t)
  {
    assert [t][..0] == [];
  }

  lemma {:induction false} ExpandFrame(f: seq<seq<Merkle>>, g: seq<seq<Merkle>>, i: nat)
    requires i <= |f| == |g| && forall j :: i <= j < |f| ==> f[j] == g[j]
    ensures Expand(f, i) == Expand(g, i)
    decreases |f| - i
  {
    if i < |f| {
      ExpandFrame(f, g, i + 1);
    }
  }

  /** After any number of blocks the forest has only complete trees, fewer than a node's worth in each
      layer, and expands to the blocks in order. */
  lemma {:induction false} ForestHolds(bs: seq<Bytes>)
    ensures ForestOk(Forest(bs)) && |Forest(bs)| > 0
    ensures Expand(Forest(bs), 0) == bs
    ensures |Forest(bs)| > 1 ==> Forest(bs)[|Forest(bs)| - 1] != []
  {
    if bs == [] {
      assert LayerOk([], 0);
    } else {
      var front, b := bs[..|bs| - 1], bs[|bs| - 1];
      ForestHolds(front);
      PutOk(Forest(front), 0, Leaf(b));
      PutExpands(Forest(front), 0, Leaf(b));
      PutTop(Forest(front), 0, Leaf(b));
      assert bs == front + [b];
    }
  }

  /** A carry never leaves the top layer empty. */
  lemma {:induction false} PutTop(f: seq<seq<Merkle>>, i: nat, t: Merkle)
    requires i <= |f|
    requires |f| > i + 1 ==> f[|f| - 1] != []
    ensures |Put(f, i, t)| > 0 && Put(f, i, t)[|Put(f, i, t)| - 1] != []
    decreases |f| - i
  {
    if i < |f| && |f[i]| + 1 >= FANOUT {
      PutTop(f[i := []], i + 1, Branch(f[i] + [t]));
    }
  }

  // ---- Base-174 digits ----

  /** The digits of n to base 174, lowest first. */
  function Digits(n: nat): seq<nat>
  {
    if n < FANOUT then [n] else [n % FANOUT] + Digits(n / FANOUT)
  }

  ghost function Counts(f: seq<seq<Merkle>>): seq<nat>
  {
    seq(|f|, i requires 0 <= i < |f| => |f[i]|)
  }

  ghost function Power(i: nat): nat
  {
    if i == 0 then 1 else FANOUT * Power(i - 1)
  }

  lemma {:induction false} PerfectLeaves(t: Merkle, height: nat)
    requires Perfect(t, height)
    ensures |Leaves(t)| == Power(height)
    decreases height, 0
  {
    if t.Branch? {
      LayerLeaves(t.kids, height - 1);
    } else {
      assert Power(0) == 1;
    }
  }

  lemma {:induction false} LayerLeaves(ts: seq<Merkle>, height: nat)
    requires forall t :: t in ts ==> Perfect(t, height)
    ensures |AllLeaves(ts)| == |ts| * Power(height)
    decreases height, 1 + |ts|
  {
    if ts != [] {
      LayerLeaves(ts[..|ts| - 1], height);
      PerfectLeaves(ts[|ts| - 1], height);
      Distribute(|ts| - 1, Power(height));
    }
  }

  /** Value of the counts from layer i up, in units of that layer. */
  ghost function Value(f: seq<seq<Merkle>>, i: nat): nat
    requires i <= |f|
    decreases |f| - i
  {
    if i == |f| then 0 else |f[i]| + FANOUT * Value(f, i + 1)
  }

  lemma {:induction false} ExpandCount(f: seq<seq<Merkle>>, i: nat)
    requires i <= |f| && ForestOk(f)
    ensures |Expand(f, i)| == Value(f, i) * Power(i)
    decreases |f| - i
  {
    if i < |f| {
      assert LayerOk(f[i], i);
      ExpandCount(f, i + 1);
      LayerLeaves(f[i], i);
      CarryUp(|f[i]|, Value(f, i + 1), Power(i));
    }
  }

  lemma CarryUp(a: nat, v: nat, p: nat)
    ensures v * (FANOUT * p) + a * p == (a + FANOUT * v) * p
  {
  }

  /** Counts below the base with a non-zero top are the digits of their value. */
  lemma {:induction false} CountsAreDigits(f: seq<seq<Merkle>>, i: nat)
    requires i < |f| && (forall j :: i <= j < |f| ==> |f[j]| < FANOUT)
    requires |f| > i + 1 ==> f[|f| - 1] != []
    ensures Counts(f)[i..] == Digits(Value(f, i))
    ensures f[|f| - 1] != [] ==> Value(f, i) > 0
    decreases |f| - i
  {
    if i + 1 == |f| {
      assert Value(f, i + 1) == 0;
    } else {
      CountsAreDigits(f, i + 1);
      var v := Value(f, i + 1);
      DigitSplit(|f[i]|, v);
      assert Counts(f)[i..] == [|f[i]|] + Counts(f)[i + 1..];
    }
  }

  lemma DigitSplit(a: nat, v: nat)
    requires a < FANOUT
    ensures (a + FANOUT * v) % FANOUT == a && (a + FANOUT * v) / FANOUT == v
  {
  }

  /** The link counts of the layers are the base-174 digits of the number of blocks. */
  lemma LayerCountsAreDigits(bs: seq<Bytes>)
    ensures Counts(Forest(bs)) == Digits(|bs|)
  {
    var f := Forest(bs);
    ForestHolds(bs);
    ExpandCount(f, 0);
    assert Power(0) == 1;
    assert Value(f, 0) == |bs|;
    forall j | 0 <= j < |f| ensures |f[j]| < FANOUT {
      assert LayerOk(f[j], j);
    }
    CountsAreDigits(f, 0);
    assert Counts(f)[0..] == Counts(f);
  }

  // ---- The root that Sum builds ----

  /** The tree over layers 0..i: each layer's trees, then the tree of the layers below as last link. */
  ghost function Topped(f: seq<seq<Merkle>>, i: nat): Merkle
    requires i < |f|
  {
    if i == 0 then Branch(f[0]) else Branch(f[i] + [Topped(f, i - 1)])
  }

  lemma {:induction false} ToppedLeaves(f: seq<seq<Merkle>>, i: nat)
    requires i < |f|
    ensures Expand(f, i + 1) + Leaves(Topped(f, i)) == Expand(f, 0)
  {
    if i > 0 {
      ToppedLeaves(f, i - 1);
      var kids := f[i] + [Topped(f, i - 1)];
      assert kids[..|f[i]|] == f[i];
      assert AllLeaves(kids) == AllLeaves(f[i]) + Leaves(Topped(f, i - 1));
    }
  }

  lemma {:induction false} PerfectBounded(t: Merkle, height: nat)
    requires Perfect(t, height)
    ensures Bounded(t)
    decreases height
  {
    if t.Branch? {
      forall k | k in t.kids ensures Bounded(k) {
        PerfectBounded(k, height - 1);
      }
    }
  }

  lemma {:induction false} ToppedBounded(f: seq<seq<Merkle>>, i: nat)
    requires i < |f| && |f[0]| <= FANOUT
    requires forall j :: 0 < j < |f| ==> |f[j]| < FANOUT
    requires forall j, t :: 0 <= j < |f| && t in f[j] ==> Perfect(t, j)
    ensures Bounded(Topped(f, i))
  {
    forall t | t in f[i] ensures Bounded(t) {
      PerfectBounded(t, i);
    }
    if i > 0 {
      ToppedBounded(f, i - 1);
    }
  }

  /** The layers that Sum works on: those of the complete blocks, with the pending block added. */
  ghost function Closing(bs: seq<Bytes>, pending: Bytes): seq<seq<Merkle>>
  {
    var f := Forest(bs);
    ForestHolds(bs);
    if pending == [] then f else f[0 := f[0] + [Leaf(pending)]]
  }

  /** The tree over all layers: a lone block stands for itself. */
  ghost function TopOf(f: seq<seq<Merkle>>): Merkle
    requires |f| > 0
  {
    if |f| == 1 && |f[0]| == 1 then f[0][0] else Topped(f, |f| - 1)
  }

  lemma TopLeaves(f: seq<seq<Merkle>>)
    requires |f| > 0
    ensures Leaves(TopOf(f)) == Expand(f, 0)
  {
    if |f| == 1 && |f[0]| == 1 {
      AllLeavesOne(f[0][0]);
      assert f[0] == [f[0][0]];
      assert Expand(f, 1) == [];
    } else {
      ToppedLeaves(f, |f| - 1);
      assert Expand(f, |f|) == [];
    }
  }

  lemma TopBounded(f: seq<seq<Merkle>>)
    requires |f| > 0 && |f[0]| <= FANOUT
    requires forall j :: 0 < j < |f| ==> |f[j]| < FANOUT
    requires forall j, t :: 0 <= j < |f| && t in f[j] ==> Perfect(t, j)
    ensures Bounded(TopOf(f))
  {
    ToppedBounded(f, |f| - 1);
    if |f| == 1 && |f[0]| == 1 {
      PerfectBounded(f[0][0], 0);
    }
  }

  /** The tree whose id Sum returns. */
  ghost function RootTree(bs: seq<Bytes>, pending: Bytes): Merkle
  {
    ForestHolds(bs);
    TopOf(Closing(bs, pending))
  }

  /** The root covers exactly the blocks, the pending one last, and no node is over-full. */
  lemma RootCovers(bs: seq<Bytes>, pending: Bytes)
    ensures Leaves(RootTree(bs, pending)) == bs + (if pending == [] then [] else [pending])
    ensures Bounded(RootTree(bs, pending))
  {
    ClosingExpands(bs, pending);
    ClosingLayers(bs, pending);
    TopLeaves(Closing(bs, pending));
    TopBounded(Closing(bs, pending));
  }

  /** A node over layers 0..i: it links to the trees of layer i and then, if there are layers below, to the
      node over those. */
  ghost predicate Over(t: Merkle, f: seq<seq<Merkle>>, i: nat)
    requires i < |f|
  {
    && t.Branch?
    && (i == 0 ==> t.kids == f[0])
    && (i > 0 ==> |t.kids| == |f[i]| + 1 && t.kids[..|f[i]|] == f[i] && Over(t.kids[|f[i]|], f, i - 1))
  }

  lemma {:induction false} ToppedOver(f: seq<seq<Merkle>>, i: nat)
    requires i < |f|
    ensures Over(Topped(f, i), f, i)
  {
    if i > 0 { ToppedOver(f, i - 1); }
  }

  /** The shape of the root: a lone block is its own root; otherwise the root is the node over all layers,
      one for each base-174 digit of the number of blocks, with the pending block last in the lowest. */
  lemma RootShape(bs: seq<Bytes>, pending: Bytes)
    ensures var f, t := Forest(bs), RootTree(bs, pending);
            && |f| == |Digits(|bs|)|
            && (bs == [] && pending != [] ==> t == Leaf(pending))
            && (|bs| == 1 && pending == [] ==> t == Leaf(bs[0]))
            && ((bs == [] && pending == []) || |bs| + (if pending == [] then 0 else 1) > 1 ==>
                  Over(t, if pending == [] then f else f[0 := f[0] + [Leaf(pending)]], |f| - 1))
  {
    var f, g := Forest(bs), Closing(bs, pending);
    ForestHolds(bs);
    LayerCountsAreDigits(bs);
    assert |Counts(f)| == |f| && Counts(f)[0] == |f[0]|;
    ToppedOver(g, |g| - 1);
    if |bs| == 1 {
      assert bs[..0] == [];
      assert Forest([]) == [[]];
      assert f == Put([[]], 0, Leaf(bs[0]));
    }
  }

  /** What a node records of the trees under it: for each, in order, its id, its encoded size and its file
      size; and their sums. */
  lemma {:induction false} NodeRule(h: Hasher, kids: seq<Merkle>)
    ensures var n := NodeOf(h, kids);
            && |n.links| == |n.fileSizes| == |kids|
            && (forall i :: 0 <= i < |kids| ==>
                  n.links[i].cid == TreeSummary(h, kids[i]).cid && n.links[i].size == TreeSummary(h, kids[i]).size
                  && n.fileSizes[i] == TreeSummary(h, kids[i]).fileSize)
            && n.size == Sizes(h, kids)
    decreases kids
  {
    if kids != [] { NodeRule(h, kids[..|kids| - 1]); }
  }

  function Sizes(h: Hasher, kids: seq<Merkle>): nat
  {
    if kids == [] then 0 else Sizes(h, kids[..|kids| - 1]) + EncodedSize(h, kids[|kids| - 1])
  }

  /** A block counts its bytes, a node its encoding and everything under it. */
  function EncodedSize(h: Hasher, t: Merkle): nat
    decreases t
  {
    match t
    case Leaf(b) => |b|
    case Branch(kids) => h.width(NodeOf(h, kids)) + NodeOf(h, kids).size
  }

  lemma ClosingExpands(bs: seq<Bytes>, pending: Bytes)
    ensures |Closing(bs, pending)| > 0
    ensures Expand(Closing(bs, pending), 0) == bs + (if pending == [] then [] else [pending])
  {
    var f, g := Forest(bs), Closing(bs, pending);
    ForestHolds(bs);
    if pending != [] {
      ExpandFrame(f, g, 1);
      AllLeavesAppend(f[0], Leaf(pending));
      assert Expand(g, 0) == Expand(f, 0) + [pending];
    } else {
      assert bs + [] == bs;
    }
  }

  lemma ClosingLayers(bs: seq<Bytes>, pending: Bytes)
    ensures var g := Closing(bs, pending);
      && |g| > 0 && |g[0]| <= FANOUT
      && (forall j :: 0 < j < |g| ==> |g[j]| < FANOUT)
      && (forall j, t :: 0 <= j < |g| && t in g[j] ==> Perfect(t, j))
  {
    var f, g := Forest(bs), Closing(bs, pending);
    ForestHolds(bs);
    forall j | 0 <= j < |g| ensures j < |f| && LayerOk(f[j], j) {
    }
  }

  // ---- Sizes and identity ----

  ghost function Concat(bs: seq<Bytes>): Bytes
  {
    if bs == [] then [] else Concat(bs[..|bs| - 1]) + bs[|bs| - 1]
  }

  lemma {:induction false} ConcatAppend(a: seq<Bytes>, b: seq<Bytes>)
    ensures Concat(a + b) == Concat(a) + Concat(b)
    decreases |b|
  {
    if b == [] {
      assert a + b == a;
    } else {
      ConcatAppend(a, b[..|b| - 1]);
      assert (a + b)[..|a + b| - 1] == a + b[..|b| - 1];
    }
  }

  /** The file size recorded in any node is the number of bytes under it. */
  lemma {:induction false} FileSizeIsBytes(h: Hasher, t: Merkle)
    ensures TreeSummary(h, t).fileSize == |Concat(Leaves(t))|
    decreases t
  {
    match t
    case Leaf(b) =>
      assert [b][..0] == [];
    case Branch(kids) => NodeSizeIsBytes(h, kids);
  }

  lemma {:induction false} NodeSizeIsBytes(h: Hasher, kids: seq<Merkle>)
    ensures NodeOf(h, kids).fileSize == |Concat(AllLeaves(kids))|
    decreases kids
  {
    if kids != [] {
      var front, last := kids[..|kids| - 1], kids[|kids| - 1];
      NodeSizeIsBytes(h, front);
      FileSizeIsBytes(h, last);
      ConcatAppend(AllLeaves(front), Leaves(last));
    }
  }

  /** Ideal hashing: ids of blocks and nodes never collide. */
  ghost predicate Ideal(h: Hasher)
  {
    && (forall a, b :: h.block(a) == h.block(b) ==> a == b)
    && (forall m, n :: h.node(m) == h.node(n) ==> m == n)
    && (forall a, n :: h.block(a) != h.node(n))
  }

  lemma {:induction false} CidFixesTree(h: Hasher, s: Merkle, t: Merkle)
    requires Ideal(h) && TreeSummary(h, s).cid == TreeSummary(h, t).cid
    ensures s == t
    decreases s
  {
    if s.Branch? && t.Branch? {
      NodeFixesKids(h, s.kids, t.kids);
    }
  }

  lemma {:induction false} NodeFixesKids(h: Hasher, a: seq<Merkle>, b: seq<Merkle>)
    requires Ideal(h) && NodeOf(h, a).links == NodeOf(h, b).links
    ensures a == b
    decreases a
  {
    LinksPerKid(h, a);
    LinksPerKid(h, b);
    if a != [] {
      var m := |a| - 1;
      NodeFixesKids(h, a[..m], b[..m]) by {
        assert NodeOf(h, a[..m]).links == NodeOf(h, a).links[..m];
        assert NodeOf(h, b[..m]).links == NodeOf(h, b).links[..m];
      }
      CidFixesTree(h, a[m], b[m]) by {
        assert NodeOf(h, a).links[m] == NodeOf(h, b).links[m];
      }
      assert a == a[..m] + [a[m]] && b == b[..m] + [b[m]];
    }
  }

  lemma {:induction false} LinksPerKid(h: Hasher, kids: seq<Merkle>)
    ensures |NodeOf(h, kids).links| == |kids|
  {
    if kids != [] {
      LinksPerKid(h, kids[..|kids| - 1]);
    }
  }

  /** With ideal hashing the tag determines the bytes. */
  lemma TagFixesBytes(h: Hasher, bs: seq<Bytes>, p: Bytes, cs: seq<Bytes>, q: Bytes)
    requires Ideal(h) && TreeSummary(h, RootTree(bs, p)).cid == TreeSummary(h, RootTree(cs, q)).cid
    ensures Concat(bs) + p == Concat(cs) + q
  {
    CidFixesTree(h, RootTree(bs, p), RootTree(cs, q));
    RootCovers(bs, p);
    RootCovers(cs, q);
    ConcatPending(bs, p);
    ConcatPending(cs, q);
  }

  lemma ConcatPending(bs: seq<Bytes>, p: Bytes)
    ensures Concat(bs + (if p == [] then [] else [p])) == Concat(bs) + p
  {
    if p == [] {
      assert bs + [] == bs;
    } else {
      assert (bs + [p])[..|bs|] == bs;
    }
  }

  // ---- Writes ----

  /** What the tree has taken in: complete blocks, and the bytes pending for the next one. */
  datatype Held = Held(blocks: seq<Bytes>, pending: Bytes)

  const Nothing: Held := Held([], [])

  ghost function Content(s: Held): Bytes
  {
    Concat(s.blocks) + s.pending
  }

  /** The loop of Write over whole blocks, and the copy of what is left. */
  function Absorb(size: nat, s: Held, p: Bytes): Held
    requires size > 0
    decreases |p|
  {
    if |p| >= size then Absorb(size, s.(blocks := s.blocks + [p[..size]]), p[size..])
    else s.(pending := s.pending + p)
  }

  /** Tree.Write. Bytes copied into a pending block that stays unfilled are not taken off the input;
      a pending block past the block size makes the slice bounds panic (the error result). */
  function Written(size: nat, s: Held, p: Bytes): Result<Held>
    requires size > 0
  {
    if p == [] then Ok(s)
    else if s.pending == [] then Ok(Absorb(size, s, p))
    else if |s.pending| > size then Err
    else
      var n := if size - |s.pending| > |p| then |p| else size - |s.pending|;
      var filled := s.pending + p[..n];
      if |filled| == size then Ok(Absorb(size, Held(s.blocks + [filled], []), p[n..]))
      else Ok(Absorb(size, s.(pending := filled), p))
  }

  /** The content split into whole blocks and a shorter rest. */
  ghost predicate Canonical(size: nat, s: Held)
  {
    (forall b :: b in s.blocks ==> |b| == size) && |s.pending| < size
  }

  /** A write that starts on a block boundary, fills the pending block, or is empty. */
  predicate Aligned(size: nat, pending: nat, p: Bytes)
  {
    p == [] || pending == 0 || pending + |p| >= size
  }

  lemma {:induction false} AbsorbKeeps(size: nat, s: Held, p: Bytes)
    requires size > 0 && (s.pending == [] || |p| < size)
    ensures Content(Absorb(size, s, p)) == Content(s) + p
    ensures (forall b :: b in s.blocks ==> |b| == size) ==> forall b :: b in Absorb(size, s, p).blocks ==> |b| == size
    ensures s.pending == [] ==> |Absorb(size, s, p).pending| < size
    decreases |p|
  {
    if |p| >= size {
      var t := s.(blocks := s.blocks + [p[..size]]);
      AbsorbKeeps(size, t, p[size..]);
      assert t.blocks[..|s.blocks|] == s.blocks;
      assert p == p[..size] + p[size..];
      assert Content(t) == Concat(s.blocks) + p[..size];
    }
  }

  /** One write takes in exactly its bytes if and only if it is aligned; otherwise it takes them twice. */
  lemma WriteKeeps(size: nat, s: Held, p: Bytes)
    requires size > 0 && |s.pending| <= size
    ensures Written(size, s, p).Ok?
    ensures Content(Written(size, s, p).value) == Content(s) + p + (if Aligned(size, |s.pending|, p) then [] else p)
    ensures Canonical(size, s) && Aligned(size, |s.pending|, p) ==> Canonical(size, Written(size, s, p).value)
  {
    if p == [] || s.pending == [] {
      AbsorbKeeps(size, s, p);
    } else if Aligned(size, |s.pending|, p) {
      FillingWrite(size, s, p);
    } else {
      var t := s.(pending := s.pending + p);
      assert p[..|p|] == p;
      AbsorbKeeps(size, t, p);
      assert Content(t) == Content(s) + p;
    }
  }

  lemma FillingWrite(size: nat, s: Held, p: Bytes)
    requires 0 < |s.pending| <= size && p != [] && |s.pending| + |p| >= size
    ensures Written(size, s, p).Ok? && Content(Written(size, s, p).value) == Content(s) + p
    ensures Canonical(size, s) ==> Canonical(size, Written(size, s, p).value)
  {
    var n := size - |s.pending|;
    var filled := s.pending + p[..n];
    var t := Held(s.blocks + [filled], []);
    assert t.blocks[..|s.blocks|] == s.blocks;
    assert p == p[..n] + p[n..];
    assert Content(t) + p[n..] == Content(s) + p;
    AbsorbKeeps(size, t, p[n..]);
  }

  // ---- Whole runs of writes ----

  function Writes(size: nat, ws: seq<Bytes>): Result<Held>
    requires size > 0
  {
    if ws == [] then Ok(Nothing)
    else
      var s := Writes(size, ws[..|ws| - 1]);
      if s.Err? then Err else Written(size, s.value, ws[|ws| - 1])
  }

  /** Every write starts on a block boundary of the bytes before it or fills the block it starts in. */
  ghost predicate AllAligned(size: nat, ws: seq<Bytes>)
    requires size > 0
  {
    if ws == [] then true
    else
      var front := ws[..|ws| - 1];
      AllAligned(size, front) && Aligned(size, |Concat(front)| % size, ws[|ws| - 1])
  }

  lemma {:induction false} BlocksLength(size: nat, bs: seq<Bytes>)
    requires forall b :: b in bs ==> |b| == size
    ensures |Concat(bs)| == |bs| * size
  {
    if bs != [] {
      BlocksLength(size, bs[..|bs| - 1]);
      Distribute(|bs| - 1, size);
    }
  }

  lemma PendingIsRest(size: nat, s: Held)
    requires size > 0 && Canonical(size, s)
    ensures |s.pending| == |Content(s)| % size && |s.blocks| == |Content(s)| / size
  {
    BlocksLength(size, s.blocks);
    QuotientIs(size, |s.blocks|, |s.pending|);
  }

  /** There is one canonical way to hold given content. */
  lemma {:induction false} CanonicalUnique(size: nat, s: Held, t: Held)
    requires size > 0 && Canonical(size, s) && Canonical(size, t) && Content(s) == Content(t)
    ensures s == t
  {
    BlocksLength(size, s.blocks);
    BlocksLength(size, t.blocks);
    PendingIsRest(size, s);
    PendingIsRest(size, t);
    var c := Content(s);
    assert Concat(s.blocks) == c[..|c| - |s.pending|] && Concat(t.blocks) == c[..|c| - |s.pending|];
    assert s.pending == c[|c| - |s.pending|..] && t.pending == c[|c| - |s.pending|..];
    BlocksUnique(size, s.blocks, t.blocks);
  }

  lemma {:induction false} BlocksUnique(size: nat, a: seq<Bytes>, b: seq<Bytes>)
    requires |a| == |b| && Concat(a) == Concat(b)
    requires (forall x :: x in a ==> |x| == size) && (forall x :: x in b ==> |x| == size)
    ensures a == b
  {
    if a != [] {
      var m := |a| - 1;
      var c := Concat(a);
      assert Concat(a[..m]) == c[..|c| - size] && a[m] == c[|c| - size..];
      assert Concat(b[..m]) == c[..|c| - size] && b[m] == c[|c| - size..];
      BlocksUnique(size, a[..m], b[..m]);
      assert a == a[..m] + [a[m]] && b == b[..m] + [b[m]];
    }
  }

  lemma {:induction false} AlignedRun(size: nat, ws: seq<Bytes>)
    requires size > 0 && AllAligned(size, ws)
    ensures Writes(size, ws).Ok?
    ensures Canonical(size, Writes(size, ws).value) && Content(Writes(size, ws).value) == Concat(ws)
  {
    if ws != [] {
      var front, w := ws[..|ws| - 1], ws[|ws| - 1];
      AlignedRun(size, front);
      var s := Writes(size, front).value;
      PendingIsRest(size, s);
      WriteKeeps(size, s, w);
      assert Content(s) + w + [] == Content(s) + w;
    }
  }

  /** After a write that was not aligned, too many bytes have been taken in, for good. */
  lemma {:induction false} UnalignedRun(size: nat, ws: seq<Bytes>)
    requires size > 0 && !AllAligned(size, ws) && Writes(size, ws).Ok?
    ensures |Content(Writes(size, ws).value)| > |Concat(ws)|
  {
    var front, w := ws[..|ws| - 1], ws[|ws| - 1];
    var s := Writes(size, front).value;
    if AllAligned(size, front) {
      AlignedRun(size, front);
      PendingIsRest(size, s);
      WriteKeeps(size, s, w);
    } else {
      UnalignedRun(size, front);
      if |s.pending| <= size {
        WriteKeeps(size, s, w);
      }
    }
  }

  /** Split independence, exactly: the tree ends up holding the bytes written, in canonical form, if
      and only if every write starts on a block boundary or fills the pending block. */
  lemma SplitIndependence(size: nat, ws: seq<Bytes>, whole: Held)
    requires size > 0 && Canonical(size, whole) && Content(whole) == Concat(ws)
    ensures Writes(size, ws) == Ok(whole) <==> AllAligned(size, ws)
  {
    if AllAligned(size, ws) {
      AlignedRun(size, ws);
      CanonicalUnique(size, Writes(size, ws).value, whole);
    } else if Writes(size, ws).Ok? {
      UnalignedRun(size, ws);
    }
  }

  ghost function TagOf(h: Hasher, s: Held): Cid
  {
    TreeSummary(h, RootTree(s.blocks, s.pending)).cid
  }

  /** With ideal hashing, two runs of aligned writes end with the same tag if and only if they wrote
      the same bytes, however either was split. */
  lemma TagIsOfBytes(h: Hasher, size: nat, ws: seq<Bytes>, vs: seq<Bytes>)
    requires size > 0 && Ideal(h) && AllAligned(size, ws) && AllAligned(size, vs)
    ensures Writes(size, ws).Ok? && Writes(size, vs).Ok?
    ensures TagOf(h, Writes(size, ws).value) == TagOf(h, Writes(size, vs).value) <==> Concat(ws) == Concat(vs)
  {
    AlignedRun(size, ws);
    AlignedRun(size, vs);
    var s, t := Writes(size, ws).value, Writes(size, vs).value;
    if Concat(ws) == Concat(vs) {
      CanonicalUnique(size, s, t);
    }
    if TagOf(h, s) == TagOf(h, t) {
      TagFixesBytes(h, s.blocks, s.pending, t.blocks, t.pending);
    }
  }

  /** Two bytes, one at a time, into blocks of four: the second is taken twice. */
  lemma TwoSmallWrites(a: bv8, b: bv8)
    ensures Writes(4, [[a], [b]]) == Ok(Held([], [a, b, b]))
  {
    var ws := [[a], [b]];
    assert ws[..1] == [[a]] && [[a]][..0] == [];
    assert Writes(4, [[a]]) == Written(4, Nothing, [a]);
    assert Written(4, Nothing, [a]) == Ok(Held([], [] + [a]));
    assert [] + [a] == [a];
    assert [a] + [b][..1] == [a, b];
    assert Written(4, Held([], [a]), [b]) == Ok(Held([], [a, b] + [b]));
    assert [a, b] + [b] == [a, b, b];
    assert Writes(4, [[a]]) == Ok(Held([], [a]));
  }

  // ---- The mutable tree ----

  ghost function LayersOf(h: Hasher, f: seq<seq<Merkle>>): seq<Node>
  {
    seq(|f|, i requires 0 <= i < |f| => NodeOf(h, f[i]))
  }

  /** The forest with a tree appended to layer i and nothing carried yet. */
  ghost function Laid(f: seq<seq<Merkle>>, i: nat, t: Merkle): seq<seq<Merkle>>
    requires i <= |f|
  {
    if i == |f| then f + [[t]] else f[i := f[i] + [t]]
  }

  lemma NodeAppend(h: Hasher, kids: seq<Merkle>, t: Merkle)
    ensures NodeOf(h, kids + [t]) == AddLink(NodeOf(h, kids), TreeSummary(h, t))
  {
    assert (kids + [t])[..|kids|] == kids;
  }

  lemma LaidLayers(h: Hasher, f: seq<seq<Merkle>>, i: nat, t: Merkle)
    requires i <= |f|
    ensures var l := LayersOf(h, if i == |f| then f + [[]] else f);
      LayersOf(h, Laid(f, i, t)) == l[i := AddLink(l[i], TreeSummary(h, t))]
  {
    NodeAppend(h, if i == |f| then [] else f[i], t);
    assert [] + [t] == [t];
  }

  /** One turn of the carry loop. */
  lemma CarryTurn(h: Hasher, f: seq<seq<Merkle>>, i: nat, t: Merkle, l: seq<Node>)
    requires i <= |f| && (i < |f| ==> |f[i]| < FANOUT) && l == LayersOf(h, Laid(f, i, t))
    ensures Full(l[i]) <==> i < |f| && |f[i]| + 1 == FANOUT
    ensures !Full(l[i]) ==> Put(f, i, t) == Laid(f, i, t)
    ensures Full(l[i]) ==>
      var f', t' := f[i := []], Branch(f[i] + [t]);
      var l' := if i == |l| - 1 then l + [EmptyNode] else l;
      && Put(f, i, t) == Put(f', i + 1, t')
      && l'[i + 1 := AddLink(l'[i + 1], Summarize(h, l[i]))][i := EmptyNode] == LayersOf(h, Laid(f', i + 1, t'))
  {
    LinksPerKid(h, Laid(f, i, t)[i]);
    if Full(l[i]) {
      LaidLayers(h, f[i := []], i + 1, Branch(f[i] + [t]));
      var f' := f[i := []];
      assert LayersOf(h, f' + [[]]) == LayersOf(h, f') + [EmptyNode];
    }
  }

  lemma {:induction false} LinkAt(h: Hasher, kids: seq<Merkle>, i: nat)
    requires i < |kids|
    ensures var n, s := NodeOf(h, kids), TreeSummary(h, kids[i]);
      |n.links| == |n.fileSizes| == |kids| && n.links[i] == Link(s.size, s.cid) && n.fileSizes[i] == s.fileSize
  {
    var front := kids[..|kids| - 1];
    LinksPerKid(h, front);
    if i < |front| {
      LinkAt(h, front, i);
    } else if front != [] {
      LinkAt(h, front, 0);
    }
  }

  /** RootNode.Clone: rebuilding a node link by link gives the same node, totals included. */
  method Clone(n: Node, h: Hasher, ghost kids: seq<Merkle>) returns (rt: Node)
    requires n == NodeOf(h, kids)
    ensures rt == n
  {
    rt := EmptyNode;
    LinksPerKid(h, kids);
    for i := 0 to |n.links|
      invariant rt == NodeOf(h, kids[..i])
    {
      LinkAt(h, kids, i);
      rt := AddLink(rt, Summary(n.fileSizes[i], n.links[i].size, n.links[i].cid));
      NodeAppend(h, kids[..i], kids[i]);
      assert kids[..i] + [kids[i]] == kids[..i + 1];
    }
    assert kids[..|kids|] == kids;
  }

  lemma ClosingNodes(h: Hasher, bs: seq<Bytes>, pending: Bytes)
    ensures |Forest(bs)| > 0 && |Closing(bs, pending)| > 0
    ensures var l := LayersOf(h, Forest(bs));
      LayersOf(h, Closing(bs, pending)) == if pending == [] then l else l[0 := AddLink(l[0], BlockSummary(h, pending))]
  {
    ForestHolds(bs);
    if pending != [] {
      LaidLayers(h, Forest(bs), 0, Leaf(pending));
    }
  }

  lemma SmallLayers(bs: seq<Bytes>)
    ensures |Forest(bs)| > 0 && forall j :: 0 <= j < |Forest(bs)| ==> |Forest(bs)[j]| < FANOUT
  {
    ForestHolds(bs);
    forall j | 0 <= j < |Forest(bs)| ensures |Forest(bs)[j]| < FANOUT {
      assert LayerOk(Forest(bs)[j], j);
    }
  }

  class Tree {
    const h: Hasher
    const size: nat
    var depth: nat
    var layers: seq<Node>
    var nx: nat
    var cData: Bytes
    ghost var blocks: seq<Bytes>

    ghost predicate Valid()
      reads this
    {
      size > 0 && depth == |layers| && nx == |cData| && layers == LayersOf(h, Forest(blocks))
    }

    ghost function State(): Held
      reads this
    {
      Held(blocks, cData)
    }

    constructor (h: Hasher, blockSize: int)
      ensures Valid() && State() == Nothing && this.h == h
      ensures size == if 0 < blockSize <= MAX_INT32 then blockSize else DEFAULT_BLOCK
    {
      this.h := h;
      size := if 0 < blockSize <= MAX_INT32 then blockSize else DEFAULT_BLOCK;
      depth, layers, nx, cData, blocks := 1, [EmptyNode], 0, [], [];
    }

    method Reset()
      requires Valid()
      modifies this
      ensures Valid() && State() == Nothing
    {
      depth, layers, nx, cData, blocks := 1, [EmptyNode], 0, [], [];
    }

    method AddChunk(b: Bytes)
      requires Valid()
      modifies this
      ensures Valid() && State() == old(State()).(blocks := old(blocks) + [b])
    {
      ghost var f := Forest(blocks);
      SmallLayers(blocks);
      LaidLayers(h, f, 0, Leaf(b));
      assert (blocks + [b])[..|blocks|] == blocks;
      layers := layers[0 := AddLink(layers[0], BlockSummary(h, b))];
      Carry(f, Leaf(b));
      blocks := blocks + [b];
    }

    /** Full layers move up as one link, from the lowest. */
    method Carry(ghost f0: seq<seq<Merkle>>, ghost t0: Merkle)
      requires |f0| > 0 && depth == |layers| && layers == LayersOf(h, Laid(f0, 0, t0))
      requires forall j :: 0 <= j < |f0| ==> |f0[j]| < FANOUT
      modifies this`layers, this`depth
      ensures depth == |layers| && layers == LayersOf(h, Put(f0, 0, t0))
    {
      ghost var f, t := f0, t0;
      var i := 0;
      while i < depth
        invariant 0 <= i <= |f| && i < depth == |layers|
        invariant layers == LayersOf(h, Laid(f, i, t))
        invariant forall j :: i <= j < |f| ==> |f[j]| < FANOUT
        invariant Put(f, i, t) == Put(f0, 0, t0)
        decreases |f| - i
      {
        CarryTurn(h, f, i, t, layers);
        if !Full(layers[i]) {
          break;
        }
        var above := Summarize(h, layers[i]);
        if i == depth - 1 {
          layers := layers + [EmptyNode];
          depth := depth + 1;
        }
        layers := layers[i + 1 := AddLink(layers[i + 1], above)];
        layers := layers[i := EmptyNode];
        f, t := f[i := []], Branch(f[i] + [t]);
        i := i + 1;
      }
    }

    /** The number of bytes accepted, or the error result for the slice-bounds panic. */
    method Write(data: Bytes) returns (r: Result<nat>)
      requires Valid()
      modifies this
      ensures r.Ok? ==> r.value == |data|
      ensures Valid()
      ensures r.Ok? <==> Written(size, old(State()), data).Ok?
      ensures r.Ok? ==> Written(size, old(State()), data) == Ok(State())
    {
      if |data| == 0 {
        return Ok(0);
      }
      if nx > size {
        return Err;
      }
      var p := data;
      if nx > 0 {
        p := FillPending(data);
      }
      WriteBlocks(p);
      return Ok(|data|);
    }

    /** Copy into the pending block; the bytes copied are taken off the input only if it fills up. */
    method FillPending(data: Bytes) returns (p: Bytes)
      requires Valid() && 0 < nx <= size && data != []
      modifies this
      ensures Valid() && Written(size, old(State()), data) == Ok(Absorb(size, State(), p))
    {
      p := data;
      var clen := size - nx;
      if clen > |data| {
        clen := |data|;
      }
      cData := cData + p[..clen];
      nx := |cData|;
      if nx == size {
        AddChunk(cData);
        nx := 0;
        p := p[clen..];
        cData := [];
      }
    }

    method WriteBlocks(data: Bytes)
      requires Valid()
      modifies this
      ensures Valid() && State() == Absorb(size, old(State()), data)
    {
      var p := data;
      while |p| >= size
        invariant Valid()
        invariant Absorb(size, State(), p) == Absorb(size, old(State()), data)
        decreases |p|
      {
        AddChunk(p[..size]);
        p := p[size..];
      }
      assert cData + [] == cData;
      if |p| > 0 {
        cData := cData + p;
        nx := |cData|;
      }
    }

    /** Tree.Sum works on copies: the id returned is that of the tree over everything held. */
    method Sum() returns (root: Cid)
      requires Valid()
      ensures root == TreeSummary(h, RootTree(blocks, cData)).cid
    {
      ClosingNodes(h, blocks, cData);
      var copies := Copies();
      if nx > 0 {
        copies := copies[0 := AddLink(copies[0], BlockSummary(h, cData))];
      }
      root := RootOf(h, copies, Closing(blocks, cData));
    }

    method Copies() returns (copies: seq<Node>)
      requires Valid()
      ensures copies == layers
    {
      copies := [];
      for i := 0 to depth
        invariant copies == layers[..i]
      {
        var copy := Clone(layers[i], h, Forest(blocks)[i]);
        copies := copies + [copy];
      }
    }
  }

  /** The second half of Sum: link every layer into the next, and take the id of the last. */
  method RootOf(h: Hasher, layers: seq<Node>, ghost f: seq<seq<Merkle>>) returns (root: Cid)
    requires |f| > 0 && layers == LayersOf(h, f)
    ensures root == TreeSummary(h, TopOf(f)).cid
  {
    var copies := layers;
    for i := 0 to |layers| - 1
      invariant |copies| == |f|
      invariant Summarize(h, copies[i]) == TreeSummary(h, Topped(f, i))
      invariant forall j :: i < j < |f| ==> copies[j] == layers[j]
      invariant copies[0] == layers[0]
    {
      NodeAppend(h, f[i + 1], Topped(f, i));
      copies := copies[i + 1 := AddLink(copies[i + 1], Summarize(h, copies[i]))];
    }
    LinksPerKid(h, f[0]);
    if |copies| == 1 && |copies[0].links| == 1 {
      LinkAt(h, f[0], 0);
      root := copies[0].links[0].cid;
    } else {
      root := Summarize(h, copies[|copies| - 1]).cid;
    }
  }
}
