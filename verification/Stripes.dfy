/** Stripes are accepted once per provider, and stored sizes count them exactly. */
module Stripes {
  import opened Types
  import opened Chain
  import opened Sums
  import opened OrderBook

  // ---- Counting bits ----

  ghost function PairBits(fs: FsDb, k: Pair): map<BitsKey, int>
  {
    map b | b in fs.bits && b.user == k.user && b.pro == k.pro :: |fs.bits[b]|
  }

  /** Stripes marked for a pair, over all its buckets. */
  ghost function BitCount(fs: FsDb, k: Pair): int
  {
    Sum(PairBits(fs, k))
  }

  function SizeBelow(o: OrderDb, k: Pair, n: nat): int
  {
    if n == 0 then 0
    else SizeBelow(o, k, n - 1) + (if OrderKey(k, n - 1) in o.base then o.base[OrderKey(k, n - 1)].order.size else 0)
  }

  /** Total size of all orders of a pair. */
  function TotalSize(o: OrderDb, k: Pair): int
  {
    SizeBelow(o, k, Ns(o, k).nonce + 1)
  }

  ghost predicate SizeOk(s: State, k: Pair)
  {
    TotalSize(s.orders, k) == SEG_SIZE * BitCount(s.fs, k)
  }

  lemma AddChunkCounts(fs: FsDb, user: nat, pro: nat, nonce: nat, seg: AggSegs, fs': FsDb, k: Pair)
    requires ApplyAddChunk(fs, user, pro, nonce, seg) == Ok(fs')
    ensures BitCount(fs', k) == BitCount(fs, k) + (if k == Pair(user, pro) then seg.length else 0)
  {
    var before, more := BitsOf(fs, user, seg.bucket, pro), Range(seg.start, seg.length);
    RangeSize(seg.start, seg.length);
    assert |before + more| == |before| + seg.length by { assert before !! more; }
    BitsReplaced(fs, BitsKey(user, seg.bucket, pro), before + more, fs', k);
  }

  lemma BitsReplaced(fs: FsDb, b: BitsKey, bits: set<nat>, fs': FsDb, k: Pair)
    requires fs'.bits == fs.bits[b := bits]
    ensures BitCount(fs', k)
            == BitCount(fs, k)
              + (if k == Pair(b.user, b.pro) then |bits| - |BitsOf(fs, b.user, b.bucket, b.pro)| else 0)
  {
    if k == Pair(b.user, b.pro) {
      SumUpdate(PairBits(fs, k), b, |bits|);
      assert PairBits(fs', k) == PairBits(fs, k)[b := |bits|];
    } else {
      assert PairBits(fs', k) == PairBits(fs, k);
    }
  }

  lemma {:induction false} AddChunksCount(fs: FsDb, user: nat, pro: nat, nonce: nat, segs: seq<AggSegs>,
                                          fs': FsDb, k: Pair)
    requires ApplyAddChunks(fs, user, pro, nonce, segs) == Ok(fs')
    ensures BitCount(fs', k) == BitCount(fs, k) + (if k == Pair(user, pro) then CountSegs(segs) else 0)
  {
    if segs != [] {
      var fs1 := ApplyAddChunks(fs, user, pro, nonce, segs[..|segs| - 1]).value;
      AddChunksCount(fs, user, pro, nonce, segs[..|segs| - 1], fs1, k);
      AddChunkCounts(fs1, user, pro, nonce, segs[|segs| - 1], fs', k);
    }
  }

  // ---- Which stripes are marked ----

  /** The stripes of a bucket that a list of segments covers. */
  ghost function Covered(segs: seq<AggSegs>, bucket: nat): set<nat>
  {
    if segs == [] then {}
    else
      var last := segs[|segs| - 1];
      Covered(segs[..|segs| - 1], bucket) + (if last.bucket == bucket then Range(last.start, last.length) else {})
  }

  lemma AddChunkMarks(fs: FsDb, user: nat, pro: nat, nonce: nat, seg: AggSegs, fs': FsDb, u: nat, b: nat, p: nat)
    requires ApplyAddChunk(fs, user, pro, nonce, seg) == Ok(fs')
    ensures var own := if u == user && p == pro && b == seg.bucket then Range(seg.start, seg.length) else {};
            BitsOf(fs', u, b, p) == BitsOf(fs, u, b, p) + own && BitsOf(fs, u, b, p) !! own
  {
  }

  /** Accepted segments cover only unmarked stripes, each once, and mark exactly those. */
  lemma {:induction false} AddChunksMark(fs: FsDb, user: nat, pro: nat, nonce: nat, segs: seq<AggSegs>, fs': FsDb,
                                         u: nat, b: nat, p: nat)
    requires ApplyAddChunks(fs, user, pro, nonce, segs) == Ok(fs')
    ensures BitsOf(fs', u, b, p) == BitsOf(fs, u, b, p) + (if u == user && p == pro then Covered(segs, b) else {})
    ensures u == user && p == pro ==> BitsOf(fs, u, b, p) !! Covered(segs, b)
  {
    if segs != [] {
      var init, last := segs[..|segs| - 1], segs[|segs| - 1];
      var fs1 := ApplyAddChunks(fs, user, pro, nonce, init).value;
      AddChunksMark(fs, user, pro, nonce, init, fs1, u, b, p);
      AddChunkMarks(fs1, user, pro, nonce, last, fs', u, b, p);
    }
  }

  /** Every stripe of a stored sequence is marked for its pair. */
  ghost predicate Marked(s: State, key: SeqKey)
    requires key in s.orders.seqs
  {
    forall b: nat :: Covered(s.orders.seqs[key].data.segments, b) <= BitsOf(s.fs, key.pair.user, b, key.pair.pro)
  }

  /** Two sequences of a pair never cover the same stripe. */
  ghost predicate NoOverlap(o: OrderDb, x: SeqKey, y: SeqKey)
    requires x in o.seqs && y in o.seqs
  {
    x.pair == y.pair && x != y ==>
      forall b: nat :: Covered(o.seqs[x].data.segments, b) !! Covered(o.seqs[y].data.segments, b)
  }

  ghost predicate StripesOk(s: State)
  {
    && (forall k: Pair :: SizeOk(s, k))
    && (forall x {:trigger Marked(s, x)} | x in s.orders.seqs :: Marked(s, x))
    && (forall x, y {:trigger NoOverlap(s.orders, x, y)} | x in s.orders.seqs && y in s.orders.seqs ::
          NoOverlap(s.orders, x, y))
  }

  // ---- Sizes under change ----

  lemma {:induction false} SizeFrame(o: OrderDb, o': OrderDb, k: Pair, n: nat)
    requires forall i: nat | i < n :: OrderKey(k, i) in o.base <==> OrderKey(k, i) in o'.base
    requires forall i: nat | i < n && OrderKey(k, i) in o.base ::
               o.base[OrderKey(k, i)].order.size == o'.base[OrderKey(k, i)].order.size
    ensures SizeBelow(o', k, n) == SizeBelow(o, k, n)
  {
    if n > 0 { SizeFrame(o, o', k, n - 1); }
  }

  /** Only the current order of the extended pair grows, by the size of the new segments. */
  lemma AddSeqSizes(c: Crypto, s: State, from: nat, q: SignedSeq, t: State, k: Pair)
    requires OrdersOk(s.orders) && ApplyAddSeq(c, s, from, q) == Ok(t)
    ensures TotalSize(t.orders, k) ==
            TotalSize(s.orders, k)
              + (if k == Pair(q.data.user, q.data.pro) then CountSegs(q.data.segments) * SEG_SIZE else 0)
  {
    var k0 := Pair(q.data.user, q.data.pro);
    assert OrderOk(s.orders, OrderKey(k0, Ns(s.orders, k0).nonce));
    var n := Ns(s.orders, k).nonce;
    SizeFrame(s.orders, t.orders, k, if k == k0 then n else n + 1);
  }

  lemma AddSeqBits(c: Crypto, s: State, from: nat, q: SignedSeq, t: State, k: Pair)
    requires ApplyAddSeq(c, s, from, q) == Ok(t)
    ensures BitCount(t.fs, k)
            == BitCount(s.fs, k) + (if k == Pair(q.data.user, q.data.pro) then CountSegs(q.data.segments) else 0)
  {
    AddChunksCount(s.fs, q.data.user, q.data.pro, q.data.nonce, q.data.segments, t.fs, k);
  }

  lemma Scaled(size: int, bits: int, more: int)
    requires size == SEG_SIZE * bits
    ensures size + more * SEG_SIZE == SEG_SIZE * (bits + more)
  {
  }

  /** The new sequence covers stripes no stored sequence of the pair covers. */
  lemma NewSeqApart(s: State, t: State, key: SeqKey, d: OrderSeq)
    requires StripesOk(s) && ApplyAddChunks(s.fs, key.pair.user, key.pair.pro, d.nonce, d.segments) == Ok(t.fs)
    requires t.orders.seqs.Keys == s.orders.seqs.Keys + {key} && t.orders.seqs[key].data == d
    requires forall x | x in s.orders.seqs && x != key :: t.orders.seqs[x] == s.orders.seqs[x]
    ensures forall x {:trigger Marked(t, x)} | x in t.orders.seqs :: Marked(t, x)
    ensures forall x, y {:trigger NoOverlap(t.orders, x, y)} | x in t.orders.seqs && y in t.orders.seqs ::
              NoOverlap(t.orders, x, y)
  {
    var k := key.pair;
    forall x | x in t.orders.seqs
      ensures Marked(t, x)
      ensures x != key && x.pair == k ==>
                forall b: nat :: Covered(t.orders.seqs[x].data.segments, b) !! Covered(d.segments, b)
    {
      forall b: nat
        ensures Covered(t.orders.seqs[x].data.segments, b) <= BitsOf(t.fs, x.pair.user, b, x.pair.pro)
        ensures x != key && x.pair == k ==> Covered(t.orders.seqs[x].data.segments, b) !! Covered(d.segments, b)
      {
        AddChunksMark(s.fs, k.user, k.pro, d.nonce, d.segments, t.fs, x.pair.user, b, x.pair.pro);
        if x != key { assert Marked(s, x); }
      }
    }
    forall x, y | x in t.orders.seqs && y in t.orders.seqs ensures NoOverlap(t.orders, x, y) {
      if x != key && y != key { assert NoOverlap(s.orders, x, y); }
    }
  }

  lemma SizesStayCounted(s: State, t: State, k0: Pair, more: int)
    requires forall k: Pair :: SizeOk(s, k)
    requires forall k: Pair ::
               TotalSize(t.orders, k) == TotalSize(s.orders, k) + (if k == k0 then more * SEG_SIZE else 0)
    requires forall k: Pair :: BitCount(t.fs, k) == BitCount(s.fs, k) + (if k == k0 then more else 0)
    ensures forall k: Pair :: SizeOk(t, k)
  {
    forall k: Pair ensures SizeOk(t, k) {
      assert SizeOk(s, k);
      Scaled(TotalSize(s.orders, k), BitCount(s.fs, k), more);
    }
  }

  lemma AddSeqKeepsSizes(c: Crypto, s: State, from: nat, q: SignedSeq, t: State)
    requires OrdersOk(s.orders) && StripesOk(s) && ApplyAddSeq(c, s, from, q) == Ok(t)
    ensures forall k: Pair :: SizeOk(t, k)
  {
    var k0 := Pair(q.data.user, q.data.pro);
    forall k: Pair
      ensures TotalSize(t.orders, k)
              == TotalSize(s.orders, k) + (if k == k0 then CountSegs(q.data.segments) * SEG_SIZE else 0)
      ensures BitCount(t.fs, k) == BitCount(s.fs, k) + (if k == k0 then CountSegs(q.data.segments) else 0)
    {
      AddSeqSizes(c, s, from, q, t, k);
      AddSeqBits(c, s, from, q, t, k);
    }
    SizesStayCounted(s, t, k0, CountSegs(q.data.segments));
  }

  lemma AddSeqKeepsStripes(c: Crypto, s: State, from: nat, q: SignedSeq, t: State)
    requires OrdersOk(s.orders) && StripesOk(s) && ApplyAddSeq(c, s, from, q) == Ok(t)
    ensures StripesOk(t)
  {
    AddSeqKeepsSizes(c, s, from, q, t);
    NewSeqApart(s, t, SeqKey(Pair(q.data.user, q.data.pro), q.data.nonce, q.data.seqNum), q.data);
  }

  /** Steps that change neither segments, nor bits, nor sizes. */
  lemma SameStripes(s: State, t: State)
    requires StripesOk(s) && t.fs.bits == s.fs.bits
    requires forall k: Pair :: TotalSize(t.orders, k) == TotalSize(s.orders, k)
    requires t.orders.seqs.Keys == s.orders.seqs.Keys
    requires forall x | x in s.orders.seqs :: t.orders.seqs[x].data == s.orders.seqs[x].data
    ensures StripesOk(t)
  {
    forall k: Pair ensures SizeOk(t, k) {
      assert SizeOk(s, k);
      assert PairBits(t.fs, k) == PairBits(s.fs, k);
    }
    forall x | x in t.orders.seqs ensures Marked(t, x) { assert Marked(s, x); }
    forall x, y | x in t.orders.seqs && y in t.orders.seqs ensures NoOverlap(t.orders, x, y) {
      assert NoOverlap(s.orders, x, y);
    }
  }

  lemma CommitKeepsSize(o: OrderDb, k: Pair, epoch: nat, ns: NonceSeq, j: Pair)
    requires OrdersOk(o) && (ns.nonce == Ns(o, k).nonce || ns.nonce == Ns(o, k).nonce + 1)
    ensures TotalSize(PutNs(o, k, epoch, ns), j) == TotalSize(o, j)
  {
    var o' := PutNs(o, k, epoch, ns);
    SizeFrame(o, o', j, Ns(o, j).nonce + 1);
    if j == k && ns.nonce > Ns(o, k).nonce {
      assert OrderKey(k, ns.nonce) in o.base ==> OrderOk(o, OrderKey(k, ns.nonce));
    }
  }

  lemma OpenedSize(c: Crypto, s: State, from: nat, so: SignedOrder, t: State, k: Pair)
    requires OrdersOk(s.orders) && ApplyCreateOrder(c, s, from, so) == Ok(t)
    ensures TotalSize(t.orders, k) == TotalSize(s.orders, k)
  {
    var k0 := Pair(so.ob.user, so.ob.pro);
    SizeFrame(s.orders, t.orders, k, if k == k0 then so.ob.nonce else Ns(s.orders, k).nonce + 1);
  }

  lemma OtherSizes(c: Crypto, s: State, from: nat, body: Payload, t: State, k: Pair)
    requires OrdersOk(s.orders) && Step(c, s, from, body) == Ok(t) && !body.AddDataOrder?
    ensures TotalSize(t.orders, k) == TotalSize(s.orders, k)
  {
    match body
    case PreDataOrder(so) => OpenedSize(c, s, from, so, t, k);
    case CommitDataOrder(u, p, n, q) =>
      CommitKeepsSize(s.orders, Pair(u, p), s.ce.epoch, NonceSeq(n + 1, 0, Ns(s.orders, Pair(u, p)).subNonce), k);
    case SubDataOrder(u, p, n) =>
      var ns := Ns(s.orders, Pair(u, p));
      CommitKeepsSize(s.orders, Pair(u, p), s.ce.epoch, ns.(subNonce := ns.subNonce + 1), k);
    case SegmentFault(f) => FaultKeepsSize(c, s, from, f, t, k);
    case SegmentProof(p) => ProofKeepsSize(c, s, from, p, t, k);
    case AddDataOrder(_) =>
    case Malformed(_) =>
    case _ => SizeFrame(s.orders, t.orders, k, Ns(s.orders, k).nonce + 1);
  }

  lemma ProofKeepsSize(c: Crypto, s: State, from: nat, p: SegProof, t: State, k: Pair)
    requires ApplyProof(c, s, from, p) == Ok(t)
    ensures TotalSize(t.orders, k) == TotalSize(s.orders, k)
  {
    SizeFrame(s.orders, t.orders, k, Ns(s.orders, k).nonce + 1);
  }

  lemma FaultKeepsSize(c: Crypto, s: State, from: nat, f: SegRemove, t: State, k: Pair)
    requires ApplyFault(c, s, from, f) == Ok(t)
    ensures TotalSize(t.orders, k) == TotalSize(s.orders, k)
  {
    SizeFrame(s.orders, t.orders, k, Ns(s.orders, k).nonce + 1);
  }

  lemma StripesStep(c: Crypto, s: State, from: nat, body: Payload, t: State)
    requires OrdersOk(s.orders) && StripesOk(s) && Step(c, s, from, body) == Ok(t)
    ensures StripesOk(t)
  {
    match body
    case AddDataOrder(q) => AddSeqKeepsStripes(c, s, from, q, t);
    case Malformed(_) =>
    case _ =>
      forall k: Pair ensures TotalSize(t.orders, k) == TotalSize(s.orders, k) { OtherSizes(c, s, from, body, t, k); }
      StripesFrame(c, s, from, body, t);
      SameStripes(s, t);
  }

  lemma StripesFrame(c: Crypto, s: State, from: nat, body: Payload, t: State)
    requires Step(c, s, from, body) == Ok(t) && !body.AddDataOrder?
    ensures t.fs.bits == s.fs.bits && t.orders.seqs.Keys == s.orders.seqs.Keys
    ensures forall x | x in s.orders.seqs :: t.orders.seqs[x].data == s.orders.seqs[x].data
  {
  }
}
