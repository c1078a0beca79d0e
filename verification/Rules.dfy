/** The rules of every transition spelled out, in products, sums and sets instead of the steps that
    compute them: when it is accepted, and everything it changes. */
module Rules {
  import opened Types
  import opened Chain
  import opened SegQueues
  import opened OrderBook
  import opened Stripes
  import opened SegmentNames
  import opened Contracts
  import opened Invariants
  import opened Confirmations
  import opened Restarts

  // ---- Roles, users, buckets ----

  lemma RoleRule(s: State, from: nat, role: RoleBase)
    ensures ApplyAddRole(s, from, role).Ok? <==> role.id == from && from !in s.roles.base
    ensures ApplyAddRole(s, from, role).Ok? ==>
              var t := ApplyAddRole(s, from, role).value;
              && t == s.(roles := t.roles) && t.roles.base == s.roles.base[from := role]
              && t.roles.nonce == s.roles.nonce
              && (forall id :: id in t.roles.keepers <==> id in s.roles.keepers || (id == from && role.typ == Keeper))
  {
  }

  /** A user registered with this key may make a file system, once. */
  lemma FsRule(s: State, from: nat, verifyKey: nat)
    ensures from !in s.fs.verifyKey ==>
              (ApplyCreateFs(s, from, verifyKey).Ok? <==>
               from in s.roles.base && s.roles.base[from].typ == User && s.roles.base[from].extra == Some(verifyKey))
    ensures ApplyCreateFs(s, from, verifyKey).Ok? ==>
              var t := ApplyCreateFs(s, from, verifyKey).value;
              && t == s.(fs := s.fs.(verifyKey := t.fs.verifyKey))
              && t.fs.verifyKey == if from in s.fs.verifyKey then s.fs.verifyKey else s.fs.verifyKey[from := verifyKey]
  {
  }

  /** Buckets of a user are numbered 0, 1, .. */
  lemma BucketRule(s: State, from: nat, bucket: nat, chunks: nat)
    ensures ApplyCreateBucket(s, from, bucket, chunks).Ok? <==>
            from in s.fs.verifyKey && bucket == NextBucket(s.fs, from)
    ensures ApplyCreateBucket(s, from, bucket, chunks).Ok? ==>
              var t := ApplyCreateBucket(s, from, bucket, chunks).value;
              && t == s.(fs := s.fs.(buckets := t.fs.buckets, next := t.fs.next))
              && t.fs.buckets == s.fs.buckets[BucketKey(from, bucket) := chunks]
              && t.fs.next == s.fs.next[from := bucket + 1]
  {
  }

  lemma MetaRule(s: State, from: nat, bucket: nat)
    ensures ApplyAddMeta(s, from, bucket).Ok? <==> from in s.fs.verifyKey && bucket < NextBucket(s.fs, from)
    ensures ApplyAddMeta(s, from, bucket).Ok? ==> ApplyAddMeta(s, from, bucket).value == s
  {
  }

  // ---- Segments ----

  /** Every run lies in a chunk of a bucket of the user. */
  predicate Placed(fs: FsDb, user: nat, segs: seq<AggSegs>)
  {
    forall j | 0 <= j < |segs| ::
      && user in fs.verifyKey && segs[j].bucket < NextBucket(fs, user)
      && segs[j].chunk < Get(fs.buckets, BucketKey(user, segs[j].bucket), 0)
  }

  /** Two runs of a list have no stripe of a bucket in common. */
  ghost predicate Disjoint(segs: seq<AggSegs>)
  {
    forall i, j | 0 <= i < j < |segs| && segs[i].bucket == segs[j].bucket ::
      Range(segs[i].start, segs[i].length) !! Range(segs[j].start, segs[j].length)
  }

  /** No stripe of the list is marked for the pair yet. */
  ghost predicate Unmarked(fs: FsDb, user: nat, pro: nat, segs: seq<AggSegs>)
  {
    forall j | 0 <= j < |segs| :: BitsOf(fs, user, segs[j].bucket, pro) !! Range(segs[j].start, segs[j].length)
  }

  lemma RunRule(fs: FsDb, user: nat, pro: nat, nonce: nat, seg: AggSegs)
    ensures ApplyAddChunk(fs, user, pro, nonce, seg).Ok? <==>
              Placed(fs, user, [seg]) && BitsOf(fs, user, seg.bucket, pro) !! Range(seg.start, seg.length)
  {
    assert [seg][0] == seg;
  }

  lemma InCovered(segs: seq<AggSegs>, bucket: nat, i: nat)
    ensures i in Covered(segs, bucket) <==>
              exists j :: 0 <= j < |segs| && segs[j].bucket == bucket && i in Range(segs[j].start, segs[j].length)
  {
    if segs != [] { InCovered(segs[..|segs| - 1], bucket, i); }
  }

  /** Segments are accepted if and only if all have a place, no stripe is marked yet and none is named
      twice. */
  lemma {:induction false} SegmentsRule(fs: FsDb, user: nat, pro: nat, nonce: nat, segs: seq<AggSegs>)
    ensures ApplyAddChunks(fs, user, pro, nonce, segs).Ok? <==>
              Placed(fs, user, segs) && Unmarked(fs, user, pro, segs) && Disjoint(segs)
  {
    if segs != [] {
      var n := |segs| - 1;
      var init, last := segs[..n], segs[n];
      SegmentsRule(fs, user, pro, nonce, init);
      var r := ApplyAddChunks(fs, user, pro, nonce, init);
      LastRun(fs, user, pro, segs);
      if r.Ok? {
        ChunksKeepUsers(fs, user, pro, nonce, init, r.value);
        AddChunksMark(fs, user, pro, nonce, init, r.value, user, last.bucket, pro);
        RunRule(r.value, user, pro, nonce, last);
        forall i: nat ensures i in Covered(init, last.bucket) <==>
          exists j :: 0 <= j < |init| && init[j].bucket == last.bucket && i in Range(init[j].start, init[j].length)
        {
          InCovered(init, last.bucket, i);
        }
        LastApart(init, last);
      }
    }
  }

  lemma LastRun(fs: FsDb, user: nat, pro: nat, segs: seq<AggSegs>)
    requires segs != []
    ensures var init, last := segs[..|segs| - 1], segs[|segs| - 1];
            && (Placed(fs, user, segs) <==> Placed(fs, user, init) && Placed(fs, user, [last]))
            && (Unmarked(fs, user, pro, segs) <==>
                Unmarked(fs, user, pro, init) && BitsOf(fs, user, last.bucket, pro) !! Range(last.start, last.length))
            && (Disjoint(segs) <==> Disjoint(init) && forall i | 0 <= i < |init| && init[i].bucket == last.bucket ::
                  Range(init[i].start, init[i].length) !! Range(last.start, last.length))
  {
    var n := |segs| - 1;
    assert forall i | 0 <= i < n :: segs[..n][i] == segs[i];
    assert [segs[n]][0] == segs[n];
    if Placed(fs, user, segs[..n]) && Placed(fs, user, [segs[n]]) {
      assert forall j | 0 <= j < |segs| :: j < n ==> segs[..n][j] == segs[j];
    }
  }

  lemma LastApart(init: seq<AggSegs>, last: AggSegs)
    requires forall i: nat :: i in Covered(init, last.bucket) <==>
               exists j :: 0 <= j < |init| && init[j].bucket == last.bucket && i in Range(init[j].start, init[j].length)
    ensures Covered(init, last.bucket) !! Range(last.start, last.length) <==>
              forall i | 0 <= i < |init| && init[i].bucket == last.bucket ::
                Range(init[i].start, init[i].length) !! Range(last.start, last.length)
  {
  }

  /** The latest run recorded for a chunk after one has been added: it is of the pair's order, holds the
      stripes added at its end, and before them only those of a run it continues. */
  lemma LocationRule(fs: FsDb, user: nat, pro: nat, nonce: nat, seg: AggSegs, fs': FsDb)
    requires ApplyAddChunk(fs, user, pro, nonce, seg) == Ok(fs')
    ensures var before, after :=
            LatestStripe(fs, user, seg.bucket, seg.chunk), LatestStripe(fs', user, seg.bucket, seg.chunk);
            && after.Some? && after.value.pro == pro && after.value.order == nonce
            && after.value.start + after.value.length == seg.start + seg.length
            && (after.value.start == seg.start
                || (before.Some? && after.value == before.value.(length := after.value.length)))
    ensures forall u: nat, b: nat, ch: nat | u != user || b != seg.bucket || ch != seg.chunk ::
              LatestStripe(fs', u, b, ch) == LatestStripe(fs, u, b, ch)
  {
  }

  // ---- Orders ----

  /** An order is opened if and only if its user sends it, empty, with good terms that both signed, as the
      next of the pair, when none is open, and not before the dates remembered. */
  lemma OrderRule(c: Crypto, s: State, from: nat, o: SignedOrder)
    ensures var k := Pair(o.ob.user, o.ob.pro);
            ApplyCreateOrder(c, s, from, o).Ok? <==>
              && from == o.ob.user && o.size == 0 && o.price == 0
              && GoodTerms(o.ob) && SignedByBoth(c, s.roles.base, o)
              && o.ob.nonce == Ns(s.orders, k).nonce && Ns(s.orders, k).seqNum == 0
              && OrderKey(k, o.ob.nonce) !in s.orders.base
              && Remembered(s, k).start <= o.ob.start && Remembered(s, k).end <= o.ob.end
    ensures ApplyCreateOrder(c, s, from, o).Ok? ==>
              var k := Pair(o.ob.user, o.ob.pro);
              var t := ApplyCreateOrder(c, s, from, o).value;
              && t == s.(orders := t.orders, dates := t.dates) && t.orders.seqs == s.orders.seqs
              && t.orders.base == s.orders.base[OrderKey(k, o.ob.nonce) := OrderFull(o, 0, 0, DelPart(0, 0, 0))]
              && Recorded(s, t, k, NonceSeq(o.ob.nonce, 0, Ns(s.orders, k).subNonce))
  {
  }

  /** The counters of one pair are set, and recorded for the running epoch. */
  ghost predicate Recorded(s: State, t: State, k: Pair, ns: NonceSeq)
  {
    t.orders.state == s.orders.state[k := ns] && t.orders.stateAt == s.orders.stateAt[PairEpoch(k, s.ce.epoch) := ns]
  }

  /** The open order as both must have signed it, with n segments more. */
  function WithMore(o: SignedOrder, n: nat, usign: Signature, psign: Signature): SignedOrder
  {
    SignedOrder(o.ob, o.size + SEG_SIZE * n, o.price + o.ob.segPrice * n, usign, psign)
  }

  predicate DataSigned(c: Crypto, roles: map<nat, RoleBase>, q: SignedSeq)
  {
    && q.data.user in roles && q.userDataSig.typ != SigUnknown
    && c.sigOk(roles[q.data.user], SeqDigest(q.data), q.userDataSig)
    && q.data.pro in roles && q.proDataSig.typ != SigUnknown
    && c.sigOk(roles[q.data.pro], SeqDigest(q.data), q.proDataSig)
  }

  /** A sequence extends the open order. */
  ghost predicate Extendable(c: Crypto, s: State, from: nat, q: SignedSeq)
  {
    var k, n := Pair(q.data.user, q.data.pro), |Names(q.data.segments)|;
    var key := OrderKey(k, Ns(s.orders, k).nonce);
    && from == q.data.user && q.data.nonce == Ns(s.orders, k).nonce && q.data.seqNum == Ns(s.orders, k).seqNum
    && DataSigned(c, s.roles.base, q) && key in s.orders.base
    && var more := WithMore(s.orders.base[key].order, n, q.userSig, q.proSig);
    && q.data.size == more.size && q.data.price == more.price && SignedByBoth(c, s.roles.base, more)
  }

  lemma SameExtension(c: Crypto, s: State, from: nat, q: SignedSeq)
    requires OrdersOk(s.orders)
    ensures var k := Pair(q.data.user, q.data.pro);
            SeqAcceptable(c, from, q, Find(s.roles.base, k.user), Find(s.roles.base, k.pro), OrderOf(s, k)) <==>
            Extendable(c, s, from, q)
  {
    var k := Pair(q.data.user, q.data.pro);
    var key := OrderKey(k, Ns(s.orders, k).nonce);
    NamesCount(q.data.segments);
    if key in s.orders.base {
      assert OrderOk(s.orders, key);
      CostIsProduct(s.orders.base[key].order.ob.segPrice, CountSegs(q.data.segments));
    }
  }

  /** A sequence is added if and only if it extends the open order, as signed by both, and its segments are
      placed, unmarked and disjoint. */
  lemma SequenceRule(c: Crypto, s: State, from: nat, q: SignedSeq)
    requires OrdersOk(s.orders)
    ensures ApplyAddSeq(c, s, from, q).Ok? <==>
              && Extendable(c, s, from, q) && q.data.user in s.fs.verifyKey
              && Placed(s.fs, q.data.user, q.data.segments) && Disjoint(q.data.segments)
              && Unmarked(s.fs, q.data.user, q.data.pro, q.data.segments)
  {
    var k := Pair(q.data.user, q.data.pro);
    SameExtension(c, s, from, q);
    SegmentsRule(s.fs, q.data.user, q.data.pro, q.data.nonce, q.data.segments);
    var key := OrderKey(k, Ns(s.orders, k).nonce);
    if key in s.orders.base { assert OrderOk(s.orders, key); }
  }

  /** What it adds: the order as signed, one sequence more, with the sum over the names of its segments;
      and the marks of its stripes. */
  lemma SequenceEffect(c: Crypto, s: State, from: nat, q: SignedSeq, t: State)
    requires OrdersOk(s.orders) && ApplyAddSeq(c, s, from, q) == Ok(t)
    ensures var k := Pair(q.data.user, q.data.pro);
            var key, ns := OrderKey(k, q.data.nonce), Ns(s.orders, k);
            && t == s.(orders := t.orders, fs := t.fs, dates := t.dates)
            && key in s.orders.base && q.data.user in s.fs.verifyKey
            && var of, fr := s.orders.base[key], Sum(c, s.fs.verifyKey[q.data.user], Names(q.data.segments));
            && t.orders.base == s.orders.base[key := of.(
                 order := WithMore(of.order, |Names(q.data.segments)|, q.userSig, q.proSig),
                 seqNum := ns.seqNum + 1, fr := FrAdd(of.fr, fr))]
            && t.orders.seqs
               == s.orders.seqs[SeqKey(k, q.data.nonce, q.data.seqNum) := SeqFull(q.data, fr, DelPart(0, 0, 0))]
            && Recorded(s, t, k, ns.(seqNum := ns.seqNum + 1))
  {
    var k := Pair(q.data.user, q.data.pro);
    assert OrderOk(s.orders, OrderKey(k, q.data.nonce));
    NamesCount(q.data.segments);
    SegsFrIsSum(c, s.fs.verifyKey[q.data.user], q.data.segments);
    CostIsProduct(s.orders.base[OrderKey(k, q.data.nonce)].order.ob.segPrice, CountSegs(q.data.segments));
  }

  lemma SequenceMarks(c: Crypto, s: State, from: nat, q: SignedSeq, t: State, u: nat, b: nat, p: nat)
    requires ApplyAddSeq(c, s, from, q) == Ok(t)
    ensures BitsOf(t.fs, u, b, p) == BitsOf(s.fs, u, b, p)
              + (if u == q.data.user && p == q.data.pro then Covered(q.data.segments, b) else {})
    ensures t.fs.verifyKey == s.fs.verifyKey && t.fs.next == s.fs.next && t.fs.buckets == s.fs.buckets
  {
    AddChunksMark(s.fs, q.data.user, q.data.pro, q.data.nonce, q.data.segments, t.fs, u, b, p);
    ChunksKeepUsers(s.fs, q.data.user, q.data.pro, q.data.nonce, q.data.segments, t.fs);
  }

  /** The open order is committed if and only if its user says so, naming its numbers, and it holds data. */
  lemma CommitRule(s: State, from: nat, user: nat, pro: nat, nonce: nat, seqNum: nat)
    ensures var k := Pair(user, pro);
            ApplyCommit(s, from, user, pro, nonce, seqNum).Ok? <==>
              && from == user && nonce == Ns(s.orders, k).nonce && seqNum == Ns(s.orders, k).seqNum
              && OrderKey(k, nonce) in s.orders.base && s.orders.base[OrderKey(k, nonce)].order.size > 0
    ensures ApplyCommit(s, from, user, pro, nonce, seqNum).Ok? ==>
              var k, t := Pair(user, pro), ApplyCommit(s, from, user, pro, nonce, seqNum).value;
              && t == s.(orders := t.orders, dates := t.dates)
              && t.orders.base == s.orders.base && t.orders.seqs == s.orders.seqs
              && Recorded(s, t, k, NonceSeq(nonce + 1, 0, Ns(s.orders, k).subNonce))
  {
  }

  /** The next order is subtracted if and only if its provider says so and it ended before the window. */
  lemma SubRule(s: State, from: nat, user: nat, pro: nat, nonce: nat)
    ensures var k := Pair(user, pro);
            ApplySub(s, from, user, pro, nonce).Ok? <==>
              && from == pro && nonce == Ns(s.orders, k).subNonce && nonce <= Ns(s.orders, k).nonce
              && OrderKey(k, nonce) in s.orders.base
              && s.orders.base[OrderKey(k, nonce)].order.ob.end <= BASE_TIME + s.ce.previous.slot * SLOT_DURATION
    ensures ApplySub(s, from, user, pro, nonce).Ok? ==>
              var k, t := Pair(user, pro), ApplySub(s, from, user, pro, nonce).value;
              && t == s.(orders := t.orders, dates := t.dates)
              && t.orders.base == s.orders.base && t.orders.seqs == s.orders.seqs
              && Recorded(s, t, k, Ns(s.orders, k).(subNonce := nonce + 1))
  {
  }

  // ---- Faults ----

  /** Every segment named is one of the list. */
  ghost predicate Hold(held: seq<AggSegs>, segs: seq<AggSegs>)
  {
    forall name | name in Names(segs) :: AggHas(held, name.bucket, name.stripe, name.chunk)
  }

  /** The run has a segment with this name. */
  predicate InRun(seg: AggSegs, name: Name)
  {
    seg.bucket == name.bucket && seg.chunk == name.chunk && seg.start <= name.stripe < seg.start + seg.length
  }

  lemma NamedInRun(seg: AggSegs, name: Name)
    ensures name in RunNames(seg) <==> InRun(seg, name)
  {
    if InRun(seg, name) { assert RunNames(seg)[name.stripe - seg.start] == name; }
  }

  lemma {:induction false} NamedIs(segs: seq<AggSegs>, name: Name)
    ensures name in Names(segs) <==> exists j :: 0 <= j < |segs| && InRun(segs[j], name)
  {
    if segs != [] {
      NamedIs(segs[1..], name);
      NamedInRun(segs[0], name);
      if name in Names(segs[1..]) {
        var j :| 0 <= j < |segs[1..]| && InRun(segs[1..][j], name);
        assert segs[j + 1] == segs[1..][j];
      }
      if j :| 0 < j < |segs| && InRun(segs[j], name) { assert segs[1..][j - 1] == segs[j]; }
    }
  }

  lemma HeldRule(held: seq<AggSegs>, segs: seq<AggSegs>)
    ensures AllHeld(held, segs) <==> Hold(held, segs)
  {
    if AllHeld(held, segs) {
      forall name | name in Names(segs) ensures AggHas(held, name.bucket, name.stripe, name.chunk) {
        NamedIs(segs, name);
      }
    }
    if Hold(held, segs) {
      forall j, i | 0 <= j < |segs| && segs[j].start <= i < segs[j].start + segs[j].length
        ensures AggHas(held, segs[j].bucket, i, segs[j].chunk)
      {
        assert InRun(segs[j], Name(segs[j].bucket, i, segs[j].chunk));
        NamedIs(segs, Name(segs[j].bucket, i, segs[j].chunk));
      }
    }
  }

  /** A fault is booked if and only if its provider reports it, on a stored sequence of an order that had
      not ended when the window starts and has started when it ends, for segments of that sequence. */
  lemma FaultRule(c: Crypto, s: State, from: nat, f: SegRemove)
    ensures var ok, sk := OrderKey(Pair(f.user, f.pro), f.nonce), SeqKey(Pair(f.user, f.pro), f.nonce, f.seqNum);
            ApplyFault(c, s, from, f).Ok? <==>
              && from == f.pro && f.user in s.fs.verifyKey && ok in s.orders.base && sk in s.orders.seqs
              && BASE_TIME + s.ce.previous.slot * SLOT_DURATION <= s.orders.base[ok].order.ob.end
              && s.orders.base[ok].order.ob.start <= BASE_TIME + s.ce.current.slot * SLOT_DURATION
              && Hold(s.orders.seqs[sk].data.segments, f.segments)
  {
    var sk := SeqKey(Pair(f.user, f.pro), f.nonce, f.seqNum);
    if sk in s.orders.seqs { HeldRule(s.orders.seqs[sk].data.segments, f.segments); }
  }

  /** What is deleted with n segments. */
  function Deleted(d: DelPart, n: nat, segPrice: nat, fr: Fr): DelPart
  {
    DelPart(FrAdd(d.fr, fr), d.size + SEG_SIZE * n, d.price + segPrice * n)
  }

  /** What a fault costs: the segments count as deleted from order and sequence, and the provider forfeits
      their price from the start of the window to the end of the order. */
  lemma FaultEffect(c: Crypto, s: State, from: nat, f: SegRemove, t: State)
    requires ApplyFault(c, s, from, f) == Ok(t)
    ensures var k, n := Pair(f.user, f.pro), |Names(f.segments)|;
            var ok, sk := OrderKey(k, f.nonce), SeqKey(k, f.nonce, f.seqNum);
            && ok in s.orders.base && sk in s.orders.seqs && f.user in s.fs.verifyKey
            && var of, sf := s.orders.base[ok], s.orders.seqs[sk];
            && var fr := Sum(c, s.fs.verifyKey[f.user], Names(f.segments));
            && t == s.(orders := t.orders, pay := t.pay, dates := t.dates)
            && t.orders == s.orders.(
                 base := s.orders.base[ok := of.(del := Deleted(of.del, n, of.order.ob.segPrice, fr))],
                 seqs := s.orders.seqs[sk := sf.(del := Deleted(sf.del, n, of.order.ob.segPrice, fr))])
            && Forfeited(s, t, k, of.order.ob.segPrice * n * (of.order.ob.end - SlotTime(s.ce.previous.slot)))
  {
    NamesCount(f.segments);
    SegsFrIsSum(c, s.fs.verifyKey[f.user], f.segments);
    CostIsProduct(s.orders.base[OrderKey(Pair(f.user, f.pro), f.nonce)].order.ob.segPrice, CountSegs(f.segments));
  }

  /** A penalty is booked for the pair and its provider, in the running challenge epoch. */
  ghost predicate Forfeited(s: State, t: State, k: Pair, penalty: int)
  {
    var none, e := Income(0, 0), s.ce.current.epoch;
    && t.pay.prove == s.pay.prove && t.pay.confirm == s.pay.confirm
    && t.pay.pair == s.pay.pair[k := Fined(Get(s.pay.pair, k, none), penalty)]
    && t.pay.pairAt == s.pay.pairAt[PairEpoch(k, e) := Fined(Get(s.pay.pairAt, PairEpoch(k, e), none), penalty)]
    && t.pay.pro == s.pay.pro[k.pro := Fined(Get(s.pay.pro, k.pro, none), penalty)]
    && t.pay.proAt == s.pay.proAt[ProEpoch(k.pro, e) := Fined(Get(s.pay.pro, k.pro, none), penalty)]
  }

  function Fined(i: Income, penalty: int): Income
  {
    Income(i.value, i.penalty + penalty)
  }

  // ---- Epochs and confirmations ----

  /** Fewest slots in an epoch, by chain version; no epoch ends under a version beyond the table. */
  function ShortestEpoch(version: nat): nat
  {
    if version == 0 then 120 else if version == 1 then 960 else if version == 2 then 2880 else 20160
  }

  lemma EpochRule(c: Crypto, s: State, p: EpochParams)
    ensures ApplyUpdateEpoch(c, s, p).Ok? <==>
              && p.epoch == s.ce.epoch && p.prev == s.ce.current.seed && s.version <= 3
              && s.slot >= s.ce.current.slot + ShortestEpoch(s.version)
    ensures ApplyUpdateEpoch(c, s, p).Ok? ==>
              var t := ApplyUpdateEpoch(c, s, p).value;
              && t == s.(ce := t.ce) && t.ce.epoch == s.ce.epoch + 1 && t.ce.previous == s.ce.current
              && t.ce.current.epoch == p.epoch && t.ce.current.slot == s.slot && t.ce.current.seed == c.seedOf(p)
              && t.ce.stored == s.ce.stored[p.epoch := t.ce.current]
  {
  }

  /** A keeper confirms the income of a provider in the epoch before, once, with its own signature. */
  lemma ConfirmRule(c: Crypto, s: State, from: nat, epoch: nat, income: AccIncome, sig: Signature)
    requires Inv(c, s)
    ensures var key := ProEpoch(income.pro, epoch);
            ApplyConfirm(c, s, from, epoch, income, sig).Ok? <==>
              && epoch == s.ce.previous.epoch && from in s.roles.base && s.roles.base[from].typ == Keeper
              && sig.typ == SigSecp256k1 && c.sigOk(s.roles.base[from], IncomeDigest(income), sig)
              && key in s.pay.proAt && income.value == s.pay.proAt[key].value
              && income.penalty == s.pay.proAt[key].penalty
              && (key in s.pay.confirm ==>
                    && from !in s.pay.confirm[key].sig.signers
                    && s.pay.confirm[key].income.value == income.value
                    && s.pay.confirm[key].income.penalty == income.penalty)
    ensures ApplyConfirm(c, s, from, epoch, income, sig).Ok? ==>
              var key, t := ProEpoch(income.pro, epoch), ApplyConfirm(c, s, from, epoch, income, sig).value;
              && t == s.(pay := s.pay.(confirm := t.pay.confirm)) && key in t.pay.confirm
              && t.pay.confirm == s.pay.confirm[key := t.pay.confirm[key]]
              && (if key in s.pay.confirm
                  then t.pay.confirm[key].income == s.pay.confirm[key].income
                       && t.pay.confirm[key].sig.signers == s.pay.confirm[key].sig.signers + [from]
                       && t.pay.confirm[key].sig.data == s.pay.confirm[key].sig.data + sig.data
                  else t.pay.confirm[key] == Confirmation(income, MultiSignature(SigSecp256k1, [from], sig.data)))
  {
    var key := ProEpoch(income.pro, epoch);
    if key in s.pay.confirm { assert RecordOk(c, s, key, s.pay.confirm[key]); }
  }

  /** A signature is added for a new signer if its type is right; BLS signatures are merged into one. */
  lemma SignerRule(c: Crypto, ms: MultiSignature, id: nat, sig: Signature)
    ensures var merged := ms.typ == SigBLS && ms.data != [];
            AddSigner(c, ms, id, sig).Ok? <==>
              sig.typ == ms.typ && id !in ms.signers && (merged ==> c.aggregate(ms.data, sig.data).Some?)
    ensures AddSigner(c, ms, id, sig).Ok? ==>
              var merged, r := ms.typ == SigBLS && ms.data != [], AddSigner(c, ms, id, sig).value;
              && r.typ == ms.typ && r.signers == ms.signers + [id]
              && (if merged then Some(r.data) == c.aggregate(ms.data, sig.data) else r.data == ms.data + sig.data)
  {
  }

  /** The dates a node loads are those of the predecessor of the open order, if both are there. */
  lemma LoadedRule(s: State, k: Pair)
    requires OrdersOk(s.orders)
    ensures var n := Ns(s.orders, k).nonce;
            && (OrderKey(k, n) in s.orders.base && n > 0 ==>
                  && OrderKey(k, n - 1) in s.orders.base
                  && LoadDates(s.orders, k).start == s.orders.base[OrderKey(k, n - 1)].order.ob.start
                  && LoadDates(s.orders, k).end == s.orders.base[OrderKey(k, n - 1)].order.ob.end)
            && (OrderKey(k, n) !in s.orders.base || n == 0 ==> LoadDates(s.orders, k) == Dates(0, 0))
  {
    assert PairOk(s.orders, k);
  }
}
