/** The state manager itself: caches over the store, updated in place. Every method is proved
    against the store-only transition of module Chain. */
module Manager {
  import opened Types
  import opened SegQueues
  import opened Chain
  import opened Cache

  /** A cached bucket is what reloading it would give. */
  ghost predicate BucketCoherent(fs: FsDb, user: nat, bucket: nat, b: Bucket)
  {
    && |b.chunks| == Get(fs.buckets, BucketKey(user, bucket), 0)
    && (forall i | 0 <= i < |b.chunks| :: b.chunks[i] == LatestStripe(fs, user, bucket, i))
    && (forall p | p in b.stripes :: b.stripes[p] == BitsOf(fs, user, bucket, p))
  }

  /** A cached user is what reloading it would give, with some of its buckets loaded. */
  ghost predicate UserCoherent(fs: FsDb, user: nat, w: UserInfo)
  {
    && LoadUser(fs, user) == Some(w.(buckets := map[]))
    && forall b {:trigger BucketCoherent(fs, user, b, w.buckets[b])} | b in w.buckets ::
         BucketCoherent(fs, user, b, w.buckets[b])
  }

  /** A cached order is what reloading it would give, except for the remembered dates. */
  ghost predicate OrderCoherent(o: OrderDb, p: PayDb, k: Pair, info: OrderInfo)
  {
    info == LoadOrder(o, p, k).(dates := info.dates)
  }

  ghost predicate OrdersCoherent(o: OrderDb, p: PayDb, cache: map<Pair, OrderInfo>)
  {
    forall k {:trigger OrderCoherent(o, p, k, cache[k])} | k in cache :: OrderCoherent(o, p, k, cache[k])
  }

  ghost predicate UsersCoherent(fs: FsDb, cache: map<nat, UserInfo>)
  {
    forall u {:trigger UserCoherent(fs, u, cache[u])} | u in cache :: UserCoherent(fs, u, cache[u])
  }

  ghost predicate RolesCoherent(r: RoleDb, cache: map<nat, RoleInfo>)
  {
    forall id | id in cache :: cache[id] == LoadRole(r, id)
  }

  /** Orders are stored under their own nonce, none above the pair's current one. */
  ghost predicate OrdersNumbered(o: OrderDb)
  {
    forall key | key in o.base :: o.base[key].order.ob.nonce == key.nonce && key.nonce <= Ns(o, key.pair).nonce
  }

  ghost function DatesOf(cache: map<Pair, OrderInfo>): map<Pair, Dates>
  {
    map k | k in cache :: cache[k].dates
  }

  lemma DatesUpdate(cache: map<Pair, OrderInfo>, k: Pair, info: OrderInfo)
    requires k in cache && cache[k].dates == info.dates
    ensures DatesOf(cache[k := info]) == DatesOf(cache)
  {
  }

  method TotalLength(segs: seq<AggSegs>) returns (n: nat)
    ensures n == CountSegs(segs)
  {
    n := 0;
    for i := 0 to |segs|
      invariant n == CountSegs(segs[..i])
    {
      n := n + segs[i].length;
      assert segs[..i + 1][..i] == segs[..i];
    }
    assert segs[..|segs|] == segs;
  }

  /** The checks addSeq and canAddSeq make, in their order. */
  method SeqVerdict(c: Crypto, from: nat, q: SignedSeq, uri: Option<RoleBase>, pri: Option<RoleBase>, info: OrderInfo)
      returns (ok: bool)
    ensures ok == SeqAcceptable(c, from, q, uri, pri, info)
  {
    var d := q.data;
    if from != d.user || !Signed(c, uri, SeqDigest(d), q.userDataSig) || !Signed(c, pri, SeqDigest(d), q.proDataSig) {
      return false;
    }
    if info.base.None? || info.ns.nonce != d.nonce || info.ns.seqNum != d.seqNum { return false; }
    var count := TotalLength(d.segments);
    var base := info.base.value;
    if base.size + count * SEG_SIZE != d.size { return false; }
    var price := Cost(base.ob.segPrice, count) + base.price;
    if price != d.price { return false; }
    var hash := OrderHash(base.(size := d.size, price := price));
    return Signed(c, uri, hash, q.userSig) && Signed(c, pri, hash, q.proSig);
  }

  /** The field element of all segments of a list, stripe by stripe. */
  method AccumulateFr(c: Crypto, fsId: nat, segs: seq<AggSegs>) returns (fr: Fr)
    ensures fr == SegsFr(c, fsId, segs)
  {
    fr := 0;
    for i := 0 to |segs|
      invariant fr == SegsFr(c, fsId, segs[..i])
    {
      var seg := segs[i];
      for j := 0 to seg.length
        invariant fr == RunFr(c, fsId, seg, j, SegsFr(c, fsId, segs[..i]))
      {
        fr := FrAdd(fr, c.segFr(fsId, seg.bucket, seg.start + j, seg.chunk));
      }
      assert segs[..i + 1][..i] == segs[..i];
    }
    assert segs[..|segs|] == segs;
  }

  /** The membership loop of removeSeg and canRemoveSeg. */
  method CheckHeld(held: seq<AggSegs>, segs: seq<AggSegs>) returns (ok: bool)
    ensures ok == AllHeld(held, segs)
  {
    for j := 0 to |segs|
      invariant AllHeld(held, segs[..j])
    {
      for i := segs[j].start to segs[j].start + segs[j].length
        invariant forall x | segs[j].start <= x < i :: AggHas(held, segs[j].bucket, x, segs[j].chunk)
      {
        if !AggHas(held, segs[j].bucket, i, segs[j].chunk) { return false; }
      }
    }
    assert segs[..|segs|] == segs;
    return true;
  }

  /** The sequence loop of addSegProof. */
  method SumSequences(o: OrderDb, k: Pair, n: nat, total: nat, acc: Acc) returns (r: Result<Acc>)
    ensures r == SeqTotals(o, k, n, total, total, acc)
  {
    var a := acc;
    for i := 0 to total
      invariant SeqTotals(o, k, n, i, total, acc) == Ok(a)
    {
      if SeqKey(k, n, i) !in o.seqs {
        SequencesStop(o, k, n, i + 1, total, total, acc);
        return Err;
      }
      var sf := o.seqs[SeqKey(k, n, i)];
      a := a.(price := a.price - sf.del.price * a.dur);
      a := a.(del := a.del + sf.del.size, fr := FrAdd(a.fr, FrSub(sf.fr, sf.del.fr)));
      if i == total - 1 {
        a := a.(size := a.size + sf.data.size, price := a.price + sf.data.price * a.dur);
      }
    }
    return Ok(a);
  }

  lemma {:induction false} SequencesStop(o: OrderDb, k: Pair, n: nat, i: nat, m: nat, total: nat, acc: Acc)
    requires i <= m <= total && SeqTotals(o, k, n, i, total, acc).Err?
    ensures SeqTotals(o, k, n, m, total, acc).Err?
  {
    if i < m { SequencesStop(o, k, n, i, m - 1, total, acc); }
  }

  /** The loop over earlier orders of addSegProof (and, with skipLate, of canAddSegProof). */
  method SumOrders(o: OrderDb, k: Pair, lo: nat, hi: nat, cs: int, ce: int, acc: Acc, skipLate: bool)
      returns (r: Result<Acc>)
    requires lo <= hi
    ensures r == PastTotals(o, k, lo, hi, cs, ce, acc, skipLate)
  {
    var a := acc;
    for i := lo to hi
      invariant PastTotals(o, k, lo, i, cs, ce, acc, skipLate) == Ok(a)
    {
      var key := OrderKey(k, i);
      if key !in o.base || (o.base[key].order.ob.start >= ce && !skipLate)
        || (o.base[key].order.ob.start < ce && o.base[key].order.ob.end <= cs) {
        OrdersStop(o, k, lo, i + 1, hi, cs, ce, acc, skipLate);
        return Err;
      }
      if o.base[key].order.ob.start < ce {
        a := AddOrder(a, o.base[key], cs, ce);
      }
    }
    return Ok(a);
  }

  lemma {:induction false} OrdersStop(o: OrderDb, k: Pair, lo: nat, i: nat, hi: nat, cs: int, ce: int, acc: Acc,
                                      skipLate: bool)
    requires lo <= i <= hi && PastTotals(o, k, lo, i, cs, ce, acc, skipLate).Err?
    ensures PastTotals(o, k, lo, hi, cs, ce, acc, skipLate).Err?
    decreases hi
  {
    if i < hi { OrdersStop(o, k, lo, i, hi - 1, cs, ce, acc, skipLate); }
  }

  /** The totals of a challenge, as addSegProof accumulates them. */
  method SumChallenge(o: OrderDb, k: Pair, ns: NonceSeq, lo: nat, cs: int, ce: int, skipLate: bool)
      returns (r: Result<Acc>)
    requires lo <= ns.nonce
    ensures r == ChalTotals(o, k, ns, lo, cs, ce, skipLate)
  {
    var acc := Acc(0, 0, 0, 0, 0);
    if ns.seqNum > 0 {
      if OrderKey(k, ns.nonce) !in o.base { return Err; }
      var b := o.base[OrderKey(k, ns.nonce)].order.ob;
      if b.start < ce {
        if b.end <= cs { return Err; }
        r := SumSequences(o, k, ns.nonce, ns.seqNum, acc.(dur := Duration(b.start, b.end, cs, ce, 0)));
        if r.Err? { return Err; }
        acc := r.value;
      }
    }
    r := SumOrders(o, k, lo, ns.nonce, cs, ce, acc, skipLate);
  }

  /** Every check of addSegProof and canAddSegProof up to the price owed. */
  method CheckProof(c: Crypto, o: OrderDb, info: OrderInfo, verifyKey: Option<nat>, current: ChalEpoch,
                    previous: ChalEpoch, from: nat, p: SegProof, skipLate: bool) returns (r: Result<int>)
    ensures r == ProvenPrice(c, o, info, verifyKey, current, previous, from, p, skipLate)
  {
    if from != p.pro || p.epoch != current.epoch || info.prove > p.epoch || verifyKey.None? { return Err; }
    var k := Pair(p.user, p.pro);
    var ns := NonceSeq(info.ns.nonce, info.ns.seqNum, 0);
    if PairEpoch(k, p.epoch) in o.stateAt { ns := o.stateAt[PairEpoch(k, p.epoch)]; }
    if (ns.nonce == 0 && ns.seqNum == 0) || p.orderStart > p.orderEnd || ns.nonce != p.orderEnd { return Err; }
    var cs, ce := SlotTime(previous.slot), SlotTime(current.slot);
    if ce - cs <= 0 { return Err; }
    var t := SumChallenge(o, k, ns, p.orderStart, cs, ce, skipLate);
    if t.Err? { return Err; }
    var a := t.value;
    if (a.size - a.del) % UINT64 != p.size || a.price != p.price { return Err; }
    if !c.proofOk(verifyKey.value, Challenge(verifyKey.value, p.user, current.seed, a.fr), p.proof) { return Err; }
    return Ok(a.price);
  }

  /** MultiSignature.Add, with its scan of the signers. */
  method AddSignature(c: Crypto, ms: MultiSignature, id: nat, sig: Signature) returns (r: Result<MultiSignature>)
    ensures r == AddSigner(c, ms, id, sig)
  {
    if sig.typ != ms.typ { return Err; }
    for i := 0 to |ms.signers|
      invariant forall j | 0 <= j < i :: ms.signers[j] != id
    {
      if ms.signers[i] == id { return Err; }
    }
    if ms.typ == SigBLS && ms.data != [] {
      var agg := c.aggregate(ms.data, sig.data);
      if agg.None? { return Err; }
      return Ok(MultiSignature(ms.typ, ms.signers + [id], agg.value));
    }
    return Ok(MultiSignature(ms.typ, ms.signers + [id], ms.data + sig.data));
  }

  /** MultiSignature.SanityCheck: a scan with the set of signers seen so far. */
  method SanityCheck(ms: MultiSignature) returns (ok: bool)
    ensures ok <==> forall i, j | 0 <= i < j < |ms.signers| :: ms.signers[i] != ms.signers[j]
  {
    var seen: set<nat> := {};
    for i := 0 to |ms.signers|
      invariant forall x :: x in seen <==> x in ms.signers[..i]
      invariant forall a, b | 0 <= a < b < i :: ms.signers[a] != ms.signers[b]
    {
      if ms.signers[i] in seen {
        assert ms.signers[i] in ms.signers[..i];
        return false;
      }
      seen := seen + {ms.signers[i]};
    }
    return true;
  }

  /** The signer scan of ApplyBlock. */
  method CountSigners(keepers: seq<nat>, signers: seq<nat>) returns (found: set<nat>)
    ensures found == ValidSigners(keepers, signers)
  {
    found := {};
    for i := 0 to |signers|
      invariant found == ValidSigners(keepers, signers[..i])
    {
      for j := 0 to |keepers|
        invariant signers[i] !in keepers[..j]
        invariant found == ValidSigners(keepers, signers[..i])
      {
        if signers[i] == keepers[j] {
          found := found + {signers[i]};
          break;
        }
      }
      assert signers[..i + 1] == signers[..i] + [signers[i]];
      assert keepers[..|keepers|] == keepers;
    }
    assert signers[..|signers|] == signers;
  }

  /** The test loop of addChunk and canAddChunk. */
  method NoneMarked(bits: set<nat>, start: nat, length: nat) returns (clear: bool)
    ensures clear <==> bits !! Range(start, length)
  {
    for i := start to start + length
      invariant forall j: nat | start <= j < i :: j !in bits
    {
      if i in bits {
        assert i in Range(start, length);
        return false;
      }
    }
    return true;
  }

  /** The marking loop of addChunk and canAddChunk. */
  method Mark(bits: set<nat>, start: nat, length: nat) returns (marked: set<nat>)
    ensures marked == bits + Range(start, length)
  {
    marked := bits;
    for n := 0 to length
      invariant forall x: nat :: x in marked <==> x in bits || start <= x < start + n
    {
      marked := marked + {start + n};
    }
  }

  /** Only users with a file system have a bucket counter, and stripes lie in created buckets. */
  ghost predicate BucketsOwned(fs: FsDb)
  {
    && (forall u | u in fs.next :: u in fs.verifyKey)
    && (forall x | x in fs.loc :: x.bucket < NextBucket(fs, x.user))
  }

  /** The loop over the table of versions, in whatever order a map gives it. */
  method FindVersion(height: nat) returns (version: nat)
    ensures version == VersionAt(height)
  {
    version := 0;
    var todo := {1, 2, 3};
    while todo != {}
      invariant todo <= {1, 2, 3} && version in {0, 1, 2, 3}
      invariant version > 0 ==> height >= UpdateHeight(version).value
      invariant forall i | i in {1, 2, 3} && i !in todo && height >= UpdateHeight(i).value :: i <= version
      decreases |todo|
    {
      var i: nat :| i in todo;
      if height >= UpdateHeight(i).value && version < i { version := i; }
      todo := todo - {i};
    }
    assert forall i | i in {1, 2, 3} && height >= UpdateHeight(i).value :: i <= version;
    assert 1 in {1, 2, 3} && 2 in {1, 2, 3} && 3 in {1, 2, 3};
  }

  method LoadEpochs(id: nat, epoch: nat, stored: map<nat, ChalEpoch>) returns (clock: Clock)
    ensures clock == LoadClock(id, epoch, stored)
  {
    var first := ChalEpoch(0, 0, id);
    var current, previous := first, first;
    if epoch > 0 && epoch - 1 in stored { current := stored[epoch - 1]; }
    if epoch > 1 && epoch - 2 in stored { previous := stored[epoch - 2]; }
    clock := Clock(epoch, current, previous, stored);
  }

  method FilterKeepers(base: map<nat, RoleBase>, stored: seq<nat>) returns (known: seq<nat>)
    ensures known == LoadKeepers(base, stored)
  {
    known := [];
    for i := 0 to |stored|
      invariant known == LoadKeepers(base, stored[..i])
    {
      assert stored[..i + 1][..i] == stored[..i];
      if stored[i] in base { known := known + [stored[i]]; }
    }
    assert stored[..|stored|] == stored;
  }

  /** The four ledger records of one booking, the pair's own total already computed. */
  method BookIncome(pay: PayDb, k: Pair, epoch: nat, income: Income, value: int, penalty: int) returns (p: PayDb)
    requires income == Plus(Get(pay.pair, k, Income(0, 0)), value, penalty)
    ensures p == Book(pay, k, epoch, value, penalty)
  {
    p := pay.(pair := pay.pair[k := income]);
    var pi := Plus(Get(p.pairAt, PairEpoch(k, epoch), Income(0, 0)), value, penalty);
    p := p.(pairAt := p.pairAt[PairEpoch(k, epoch) := pi]);
    var spi := Plus(Get(p.pro, k.pro, Income(0, 0)), value, penalty);
    p := p.(pro := p.pro[k.pro := spi]);
    p := p.(proAt := p.proAt[ProEpoch(k.pro, epoch) := spi]);
  }

  class StateMgr {
    const crypto: Crypto

    // the store
    var orders: OrderDb
    var pay: PayDb
    var fs: FsDb
    var roles: RoleDb

    // scalars
    var ce: Clock
    var version: nat
    var height: nat
    var slot: nat
    var blk: nat
    var root: nat
    const threshold: nat

    // caches
    var oInfo: map<Pair, OrderInfo>
    var sInfo: map<nat, UserInfo>
    var rInfo: map<nat, RoleInfo>

    /** Every cached entry equals what reloading it from the store gives, except that an order's
        remembered dates may be older. */
    ghost predicate Valid()
      reads this
    {
      && OrdersCoherent(orders, pay, oInfo)
      && UsersCoherent(fs, sInfo)
      && RolesCoherent(roles, rInfo)
      && BucketsOwned(fs)
      && OrdersNumbered(orders)
    }

    /** The state as module Chain sees it. */
    ghost function View(): State
      reads this
    {
      State(orders, pay, fs, roles, ce, DatesOf(oInfo), version, height, slot, blk, root, threshold)
    }

    constructor (crypto: Crypto, id: nat, threshold: nat)
      ensures Valid() && View() == Genesis(id, threshold) && this.crypto == crypto
    {
      this.crypto := crypto;
      this.threshold := threshold;
      orders := OrderDb(map[], map[], map[], map[]);
      pay := PayDb(map[], map[], map[], map[], map[], map[]);
      fs := FsDb(map[], map[], map[], map[], map[], map[]);
      roles := RoleDb(map[], map[], []);
      ce := Clock(0, ChalEpoch(0, 0, id), ChalEpoch(0, 0, id), map[]);
      version, height, slot := 0, 0, 0;
      blk, root := id, id;
      oInfo, sInfo, rInfo := map[], map[], map[];
    }

    /** A restart drops every cache and computes clock, version and keepers from the store again. */
    method Restart(id: nat)
      requires Valid()
      modifies this
      ensures Valid() && View() == Reloaded(id, old(View()))
    {
      var v := FindVersion(height);
      var known := FilterKeepers(roles.base, roles.keepers);
      var clock := LoadEpochs(id, ce.epoch, ce.stored);
      oInfo, sInfo, rInfo, version, roles, ce := map[], map[], map[], v, roles.(keepers := known), clock;
      assert DatesOf(oInfo) == map[];
    }

    // ---- Cached loads ----

    method GetOrder(k: Pair) returns (info: OrderInfo)
      requires Valid()
      modifies this`oInfo
      ensures Valid() && View() == Touch(old(View()), k)
      ensures info == OrderOf(old(View()), k) && k in oInfo && oInfo[k] == info
    {
      if k in oInfo {
        info := oInfo[k];
        assert OrderCoherent(orders, pay, k, oInfo[k]);
      } else {
        info := LoadOrder(orders, pay, k);
        LoadedCoherent(orders, pay, oInfo, k);
        oInfo := oInfo[k := info];
      }
      assert View().dates == Touch(old(View()), k).dates;
    }

    method GetRole(id: nat) returns (role: RoleInfo)
      requires Valid()
      modifies this`rInfo
      ensures Valid() && View() == old(View())
      ensures role == LoadRole(roles, id) && id in rInfo && rInfo[id] == role
    {
      if id in rInfo {
        role := rInfo[id];
      } else {
        role := LoadRole(roles, id);
        rInfo := rInfo[id := role];
      }
    }

    method GetUser(user: nat) returns (w: Option<UserInfo>)
      requires Valid()
      modifies this`sInfo
      ensures Valid() && View() == old(View())
      ensures w.Some? <==> user in fs.verifyKey
      ensures w.Some? ==> user in sInfo && sInfo[user] == w.value && UserCoherent(fs, user, w.value)
    {
      if user in sInfo {
        w := Some(sInfo[user]);
        assert UserCoherent(fs, user, sInfo[user]);
      } else {
        w := LoadUser(fs, user);
        if w.Some? {
          sInfo := sInfo[user := w.value];
          forall u | u in sInfo ensures UserCoherent(fs, u, sInfo[u]) {
            if u != user { assert UserCoherent(fs, u, old(sInfo)[u]); }
          }
        }
      }
    }

    // ---- Roles, users, buckets ----

    method AddRole(from: nat, role: RoleBase) returns (ok: bool)
      requires Valid()
      modifies this
      ensures ok == ApplyAddRole(old(View()), from, role).Ok?
      ensures ok ==> Valid() && ApplyAddRole(old(View()), from, role) == Ok(View())
    {
      if role.id != from || from in roles.base { return false; }
      if from in rInfo {
        if rInfo[from].base.Some? { return false; }
        rInfo := rInfo[from := rInfo[from].(base := Some(role))];
      } else {
        rInfo := rInfo[from := RoleInfo(Some(role), NonceOf(roles, from))];
      }
      roles := roles.(base := roles.base[from := role]);
      if role.typ == Keeper {
        roles := roles.(keepers := roles.keepers + [from]);
      }
      return true;
    }

    /** Creating a file system again for a known user: harmless when the user is cached; when it is
        not, the cache restarts at bucket 0 and stays coherent only if there is no bucket yet. */
    method AddUser(from: nat, verifyKey: nat) returns (ok: bool)
      requires Valid()
      modifies this
      ensures from !in old(fs.verifyKey) || from in old(sInfo) ==>
                && ok == ApplyCreateFs(old(View()), from, verifyKey).Ok?
                && (ok ==> Valid() && ApplyCreateFs(old(View()), from, verifyKey) == Ok(View()))
      ensures from in old(fs.verifyKey) && from !in old(sInfo) && ok
              && MayOwnFs(Find(old(roles.base), from), old(fs.verifyKey)[from]) ==>
                && View() == old(View())
                && (Valid() <==> NextBucket(fs, from) == 0)
    {
      if from in sInfo {
        assert UserCoherent(fs, from, sInfo[from]);
        return true;
      }
      var role := GetRole(from);
      if !MayOwnFs(role.base, verifyKey) { return false; }
      ghost var before := sInfo;
      ghost var fs0 := fs;
      var w := UserInfo(verifyKey, 0, map[]);
      sInfo := sInfo[from := w];
      fs := fs.(verifyKey := fs.verifyKey[from := verifyKey]);
      forall u | u in before ensures UserCoherent(fs, u, before[u]) {
        assert UserCoherent(fs0, u, before[u]);
        forall b | b in before[u].buckets ensures BucketCoherent(fs, u, b, before[u].buckets[b]) {
          assert BucketCoherent(fs0, u, b, before[u].buckets[b]);
        }
      }
      assert UserCoherent(fs, from, w) <==> NextBucket(fs, from) == 0;
      assert UsersCoherent(fs, sInfo) ==> UserCoherent(fs, from, sInfo[from]);
      return true;
    }

    method AddBucket(from: nat, bucket: nat, chunks: nat) returns (ok: bool)
      requires Valid()
      modifies this
      ensures ok == ApplyCreateBucket(old(View()), from, bucket, chunks).Ok?
      ensures ok ==> Valid() && ApplyCreateBucket(old(View()), from, bucket, chunks) == Ok(View())
    {
      var u := GetUser(from);
      if u.None? || u.value.next != bucket { return false; }
      ghost var cache, fs0 := sInfo, fs;
      var w := u.value.(buckets := u.value.buckets[bucket := NewBucket(chunks)], next := u.value.next + 1);
      sInfo := sInfo[from := w];
      fs := fs.(buckets := fs.buckets[BucketKey(from, bucket) := chunks]);
      fs := fs.(next := fs.next[from := w.next]);
      NewBucketCoherent(fs0, cache, from, bucket, chunks, fs, sInfo);
      return true;
    }

    method AddMeta(from: nat, bucket: nat) returns (ok: bool)
      requires Valid()
      modifies this
      ensures ok == ApplyAddMeta(old(View()), from, bucket).Ok?
      ensures ok ==> Valid() && ApplyAddMeta(old(View()), from, bucket) == Ok(View())
    {
      var u := GetUser(from);
      return u.Some? && bucket < u.value.next;
    }

    // ---- Segments ----

    /** getBucketManage and getStripeBitMap together: both end up cached. */
    method GetStripes(user: nat, bucket: nat, pro: nat) returns (b: Bucket, bits: set<nat>)
      requires Valid() && user in sInfo
      modifies this`sInfo
      ensures Valid() && View() == old(View()) && user in sInfo
      ensures bucket in sInfo[user].buckets && sInfo[user].buckets[bucket] == b
      ensures pro in b.stripes && b.stripes[pro] == bits
      ensures BucketCoherent(fs, user, bucket, b) && bits == BitsOf(fs, user, bucket, pro)
    {
      var w := sInfo[user];
      assert UserCoherent(fs, user, w);
      b := BucketOf(fs, user, w, bucket);
      assert bucket in w.buckets ==> BucketCoherent(fs, user, bucket, w.buckets[bucket]);
      bits := StripesOf(fs, user, bucket, b, pro);
      b := b.(stripes := b.stripes[pro := bits]);
      ghost var cache := sInfo;
      sInfo := sInfo[user := w.(buckets := w.buckets[bucket := b])];
      CachedBucketCoherent(fs, cache, user, bucket, b);
    }

    method AddChunk(user: nat, pro: nat, nonce: nat, seg: AggSegs) returns (ok: bool)
      requires Valid()
      modifies this`sInfo, this`fs
      ensures ok == ApplyAddChunk(old(fs), user, pro, nonce, seg).Ok?
      ensures ok ==> Valid() && ApplyAddChunk(old(fs), user, pro, nonce, seg) == Ok(fs)
    {
      var u := GetUser(user);
      if u.None? || u.value.next <= seg.bucket { return false; }
      var b, bits := GetStripes(user, seg.bucket, pro);
      if seg.chunk >= |b.chunks| { return false; }

      var clear := NoneMarked(bits, seg.start, seg.length);
      if !clear { return false; }
      var info := ExtendStripe(b.chunks[seg.chunk], pro, nonce, seg.start, seg.length);
      bits := Mark(bits, seg.start, seg.length);

      WriteChunk(user, pro, nonce, seg, b, bits, info);
      return true;
    }

    method WriteChunk(user: nat, pro: nat, nonce: nat, seg: AggSegs, b: Bucket, bits: set<nat>, info: AggStripe)
      requires Valid() && user in sInfo && seg.bucket in sInfo[user].buckets && b == sInfo[user].buckets[seg.bucket]
      requires seg.chunk < |b.chunks| && pro in b.stripes && seg.bucket < NextBucket(fs, user)
      requires info == ExtendStripe(b.chunks[seg.chunk], pro, nonce, seg.start, seg.length)
      requires bits == b.stripes[pro] + Range(seg.start, seg.length)
      modifies this`sInfo, this`fs
      ensures Valid()
      ensures fs == old(fs).(bits := old(fs).bits[BitsKey(user, seg.bucket, pro) := bits],
                             loc := old(fs).loc[ChunkKey(user, seg.bucket, seg.chunk) := seg.start],
                             locAt := old(fs).locAt[StripeKey(user, seg.bucket, seg.chunk, seg.start) := info])
    {
      ghost var cache, fs0 := sInfo, fs;
      var b1 := Bucket(b.chunks[seg.chunk := Some(info)], b.stripes[pro := bits]);
      sInfo := sInfo[user := sInfo[user].(buckets := sInfo[user].buckets[seg.bucket := b1])];
      fs := fs.(bits := fs.bits[BitsKey(user, seg.bucket, pro) := bits]);
      fs := fs.(locAt := fs.locAt[StripeKey(user, seg.bucket, seg.chunk, seg.start) := info]);
      fs := fs.(loc := fs.loc[ChunkKey(user, seg.bucket, seg.chunk) := seg.start]);
      ChunkCoherent(fs0, cache, user, pro, nonce, seg, b1, fs, sInfo);
    }

    method AddChunks(user: nat, pro: nat, nonce: nat, segs: seq<AggSegs>) returns (ok: bool)
      requires Valid()
      modifies this`sInfo, this`fs
      ensures ok == ApplyAddChunks(old(fs), user, pro, nonce, segs).Ok?
      ensures ok ==> Valid() && ApplyAddChunks(old(fs), user, pro, nonce, segs) == Ok(fs)
    {
      for i := 0 to |segs|
        invariant Valid() && ApplyAddChunks(old(fs), user, pro, nonce, segs[..i]) == Ok(fs)
      {
        assert segs[..i + 1][..i] == segs[..i];
        ok := AddChunk(user, pro, nonce, segs[i]);
        if !ok {
          ChunksStop(old(fs), user, pro, nonce, segs, i + 1);
          return false;
        }
      }
      assert segs[..|segs|] == segs;
      return true;
    }

    // ---- Orders ----

    /** Replace a pair's cached record and write its nonces. */
    method SaveNs(k: Pair, info: OrderInfo)
      requires k in oInfo && oInfo[k].dates == info.dates
      modifies this`oInfo, this`orders
      ensures orders == PutNs(old(orders), k, ce.epoch, info.ns) && oInfo == old(oInfo)[k := info]
      ensures View() == old(View()).(orders := orders)
    {
      DatesUpdate(oInfo, k, info);
      oInfo := oInfo[k := info];
      orders := orders.(state := orders.state[k := info.ns]);
      orders := orders.(stateAt := orders.stateAt[PairEpoch(k, ce.epoch) := info.ns]);
    }

    method CreateOrder(from: nat, o: SignedOrder) returns (ok: bool)
      requires Valid()
      modifies this
      ensures ok == ApplyCreateOrder(crypto, old(View()), from, o).Ok?
      ensures ok ==> Valid() && ApplyCreateOrder(crypto, old(View()), from, o) == Ok(View())
    {
      if !WellFormedOrder(from, o) { return false; }
      var uri := GetRole(o.ob.user);
      if !Signed(crypto, uri.base, OrderHash(o), o.usign) { return false; }
      var pri := GetRole(o.ob.pro);
      if !Signed(crypto, pri.base, OrderHash(o), o.psign) { return false; }
      var k := Pair(o.ob.user, o.ob.pro);
      var info := GetOrder(k);
      if info.ns.seqNum != 0 || !FitsPair(info, o) { return false; }
      WriteOrder(k, info, o);
      return true;
    }

    method WriteOrder(k: Pair, info: OrderInfo, o: SignedOrder)
      requires Valid() && k in oInfo && oInfo[k] == info && info.base.None? && o.ob.nonce == info.ns.nonce
      modifies this`oInfo, this`orders
      ensures Valid()
      ensures var of := OrderFull(o, info.ns.seqNum, 0, DelPart(0, 0, 0));
              var o1 := old(orders).(base := old(orders).base[OrderKey(k, o.ob.nonce) := of]);
              View() == old(View()).(orders := PutNs(o1, k, ce.epoch, info.ns))
    {
      assert OrderCoherent(orders, pay, k, oInfo[k]);
      var of := OrderFull(o, info.ns.seqNum, 0, DelPart(0, 0, 0));
      ghost var cache, o0 := oInfo, orders;
      orders := orders.(base := orders.base[OrderKey(k, o.ob.nonce) := of]);
      SaveNs(k, info.(base := Some(o)));
      OpenedCoherent(o0, pay, cache, k, of, orders, oInfo);
    }

    /** The roles, the pair's record and the verdict addSeq works with. */
    method CheckSeq(from: nat, q: SignedSeq) returns (ok: bool, info: OrderInfo)
      requires Valid()
      modifies this`oInfo, this`rInfo
      ensures var k := Pair(q.data.user, q.data.pro);
              && Valid() && View() == Touch(old(View()), k)
              && info == OrderOf(old(View()), k) && k in oInfo && oInfo[k] == info
              && ok == SeqAcceptable(crypto, from, q, Find(roles.base, q.data.user), Find(roles.base, q.data.pro), info)
    {
      var uri := GetRole(q.data.user);
      var pri := GetRole(q.data.pro);
      info := GetOrder(Pair(q.data.user, q.data.pro));
      ok := SeqVerdict(crypto, from, q, uri.base, pri.base, info);
    }

    method AddSeq(from: nat, q: SignedSeq) returns (ok: bool)
      requires Valid()
      modifies this
      ensures ok == ApplyAddSeq(crypto, old(View()), from, q).Ok?
      ensures ok ==> Valid() && ApplyAddSeq(crypto, old(View()), from, q) == Ok(View())
    {
      var d := q.data;
      var fine, info := CheckSeq(from, q);
      if !fine { return false; }
      ghost var s1 := View();
      assert OrderKey(Pair(d.user, d.pro), info.base.value.ob.nonce) in orders.base;
      var u := GetUser(d.user);
      if u.None? { return false; }
      var fsId := u.value.verifyKey;
      ok := AddChunks(d.user, d.pro, d.nonce, d.segments);
      if !ok { return false; }
      assert View() == s1.(fs := fs);
      var fr := AccumulateFr(crypto, fsId, d.segments);
      WriteSeq(Pair(d.user, d.pro), info, q, fr);
    }

    method WriteSeq(k: Pair, info: OrderInfo, q: SignedSeq, fr: Fr)
      requires Valid() && k in oInfo && oInfo[k] == info && info.base.Some?
      requires info.ns.nonce == q.data.nonce && info.ns.seqNum == q.data.seqNum
      modifies this`oInfo, this`orders
      ensures Valid() && OrderKey(k, info.base.value.ob.nonce) in old(orders).base
      ensures View() == old(View()).(orders := ExtendDb(old(orders), k, ce.epoch, info, q, fr))
    {
      assert OrderCoherent(orders, pay, k, oInfo[k]);
      ghost var cache, o0 := oInfo, orders;
      var base := NewBase(info.base.value, q);
      var next := info.(ns := info.ns.(seqNum := info.ns.seqNum + 1), fr := FrAdd(info.fr, fr), base := Some(base));
      var key := OrderKey(k, info.base.value.ob.nonce);
      var of := orders.base[key].(order := base, seqNum := next.ns.seqNum, fr := next.fr);
      orders := orders.(base := orders.base[key := of]);
      var sf := SeqFull(q.data, fr, DelPart(0, 0, 0));
      orders := orders.(seqs := orders.seqs[SeqKey(k, q.data.nonce, q.data.seqNum) := sf]);
      SaveNs(k, next);
      ExtendedCoherent(o0, pay, cache, k, orders, next);
    }

    method CommitOrder(from: nat, user: nat, pro: nat, nonce: nat, seqNum: nat) returns (ok: bool)
      requires Valid()
      modifies this
      ensures ok == ApplyCommit(old(View()), from, user, pro, nonce, seqNum).Ok?
      ensures ok ==> Valid() && ApplyCommit(old(View()), from, user, pro, nonce, seqNum) == Ok(View())
    {
      if from != user { return false; }
      var k := Pair(user, pro);
      var info := GetOrder(k);
      if nonce != info.ns.nonce || seqNum != info.ns.seqNum || info.base.None? || info.base.value.size == 0 {
        return false;
      }
      ghost var cache, o0 := oInfo, orders;
      var next := info.(ns := NonceSeq(info.ns.nonce + 1, 0, info.ns.subNonce), fr := 0, base := None);
      SaveNs(k, next);
      NsCoherent(o0, pay, cache, k, ce.epoch, next);
      return true;
    }

    method SubOrder(from: nat, user: nat, pro: nat, nonce: nat) returns (ok: bool)
      requires Valid()
      modifies this
      ensures ok == ApplySub(old(View()), from, user, pro, nonce).Ok?
      ensures ok ==> Valid() && ApplySub(old(View()), from, user, pro, nonce) == Ok(View())
    {
      if from != pro { return false; }
      var k := Pair(user, pro);
      var info := GetOrder(k);
      if nonce != info.ns.subNonce || nonce > info.ns.nonce { return false; }
      if OrderKey(k, nonce) !in orders.base { return false; }
      if orders.base[OrderKey(k, nonce)].order.ob.end > SlotTime(ce.previous.slot) { return false; }
      ghost var cache, o0 := oInfo, orders;
      var next := info.(ns := info.ns.(subNonce := info.ns.subNonce + 1));
      SaveNs(k, next);
      NsCoherent(o0, pay, cache, k, ce.epoch, next);
      return true;
    }

    // ---- Faults, challenges, confirmations ----

    /** Book income or penalty in the pair's cached record and in the store. */
    method SaveIncome(k: Pair, epoch: nat, value: int, penalty: int)
      requires Valid() && k in oInfo
      modifies this`oInfo, this`pay
      ensures Valid() && View() == old(View()).(pay := Book(old(pay), k, epoch, value, penalty))
      ensures k in oInfo && oInfo[k] == old(oInfo)[k].(income := Plus(old(oInfo)[k].income, value, penalty))
    {
      var info := oInfo[k].(income := Plus(oInfo[k].income, value, penalty));
      CachedIncome(orders, pay, oInfo, k);
      var p := BookIncome(pay, k, epoch, info.income, value, penalty);
      DatesUpdate(oInfo, k, info);
      PaidCoherent(orders, orders, pay, p, oInfo, k, info);
      oInfo, pay := oInfo[k := info], p;
    }

    /** The checks of removeSeg; the result is the user's file system id. */
    method CheckFault(from: nat, f: SegRemove) returns (fsId: Option<nat>)
      requires Valid()
      modifies this`oInfo, this`sInfo
      ensures var k := Pair(f.user, f.pro);
              && Valid() && View() == Touch(old(View()), k) && k in oInfo
              && (fsId.Some? <==>
                    f.user in fs.verifyKey && FaultAcceptable(orders, ce.previous.slot, ce.current.slot, from, f))
              && (fsId.Some? ==> fsId.value == fs.verifyKey[f.user])
    {
      var k := Pair(f.user, f.pro);
      var info := GetOrder(k);
      var u := GetUser(f.user);
      if from != f.pro || u.None? { return None; }
      var key, sk := OrderKey(k, f.nonce), SeqKey(k, f.nonce, f.seqNum);
      if key !in orders.base || sk !in orders.seqs { return None; }
      var b := orders.base[key].order.ob;
      if SlotTime(ce.previous.slot) > b.end || SlotTime(ce.current.slot) < b.start { return None; }
      var held := CheckHeld(orders.seqs[sk].data.segments, f.segments);
      if !held { return None; }
      return Some(u.value.verifyKey);
    }

    method RemoveSeg(from: nat, f: SegRemove) returns (ok: bool)
      requires Valid()
      modifies this
      ensures ok == ApplyFault(crypto, old(View()), from, f).Ok?
      ensures ok ==> Valid() && ApplyFault(crypto, old(View()), from, f) == Ok(View())
    {
      var fsId := CheckFault(from, f);
      if fsId.None? { return false; }
      var k := Pair(f.user, f.pro);
      var b := orders.base[OrderKey(k, f.nonce)].order.ob;
      var fr := AccumulateFr(crypto, fsId.value, f.segments);
      var count := TotalLength(f.segments);
      WriteFault(k, f.nonce, f.seqNum, fr, count * SEG_SIZE, Cost(b.segPrice, count));
      SaveIncome(k, ce.current.epoch, 0, Penalty(b, count, SlotTime(ce.previous.slot)));
      return true;
    }

    method WriteFault(k: Pair, nonce: nat, seqNum: nat, fr: Fr, size: nat, price: nat)
      requires Valid() && OrderKey(k, nonce) in orders.base && SeqKey(k, nonce, seqNum) in orders.seqs
      modifies this`orders
      ensures Valid()
      ensures var key, sk := OrderKey(k, nonce), SeqKey(k, nonce, seqNum);
              var of, sf := old(orders).base[key], old(orders).seqs[sk];
              orders == old(orders).(base := old(orders).base[key := of.(del := AddDel(of.del, fr, size, price))],
                                     seqs := old(orders).seqs[sk := sf.(del := AddDel(sf.del, fr, size, price))])
    {
      var key, sk := OrderKey(k, nonce), SeqKey(k, nonce, seqNum);
      var of, sf := orders.base[key], orders.seqs[sk];
      of := of.(del := AddDel(of.del, fr, size, price));
      orders := orders.(base := orders.base[key := of]);
      sf := sf.(del := AddDel(sf.del, fr, size, price));
      orders := orders.(seqs := orders.seqs[sk := sf]);
      UnseenWrites(old(orders), pay, oInfo, orders, pay);
    }

    method AdvanceEpoch(p: EpochParams) returns (ok: bool)
      requires Valid()
      modifies this`ce
      ensures Valid() && ok == ApplyUpdateEpoch(crypto, old(View()), p).Ok?
      ensures ok ==> ApplyUpdateEpoch(crypto, old(View()), p) == Ok(View())
    {
      if p.epoch != ce.epoch || p.prev != ce.current.seed { return false; }
      var d := ChalDuration(version);
      if d.None? || slot - ce.current.slot < d.value { return false; }
      ce := ce.(epoch := ce.epoch + 1);
      ce := ce.(previous := ce.current);
      ce := ce.(current := ChalEpoch(p.epoch, slot, crypto.seedOf(p)));
      ce := ce.(stored := ce.stored[ce.current.epoch := ce.current]);
      return true;
    }

    method ProofPrice(from: nat, p: SegProof) returns (r: Result<int>)
      requires Valid()
      modifies this`oInfo, this`sInfo
      ensures var k := Pair(p.user, p.pro);
              && Valid() && View() == Touch(old(View()), k)
              && k in oInfo && oInfo[k] == OrderOf(old(View()), k)
              && r == ProvenPrice(crypto, orders, oInfo[k], Find(fs.verifyKey, p.user), ce.current, ce.previous, from,
                                  p, false)
    {
      var info := GetOrder(Pair(p.user, p.pro));
      var u := GetUser(p.user);
      var vk := if u.Some? then Some(u.value.verifyKey) else None;
      r := CheckProof(crypto, orders, info, vk, ce.current, ce.previous, from, p, false);
    }

    method AddSegProof(from: nat, p: SegProof) returns (ok: bool)
      requires Valid()
      modifies this
      ensures ok == ApplyProof(crypto, old(View()), from, p).Ok?
      ensures ok ==> Valid() && ApplyProof(crypto, old(View()), from, p) == Ok(View())
    {
      var r := ProofPrice(from, p);
      if r.Err? { return false; }
      PayProof(Pair(p.user, p.pro), p.epoch, r.value);
      return true;
    }

    method PayProof(k: Pair, epoch: nat, price: int)
      requires Valid() && k in oInfo
      modifies this`oInfo, this`pay, this`orders
      ensures Valid() && View() == Paid(old(View()), k, epoch, price)
    {
      assert OrderCoherent(orders, pay, k, oInfo[k]);
      SaveIncome(k, epoch, price, 0);
      SaveProof(k, epoch);
    }

    method SaveProof(k: Pair, epoch: nat)
      requires Valid() && k in oInfo
      modifies this`oInfo, this`pay, this`orders
      ensures Valid()
      ensures View() == old(View()).(pay := old(pay).(prove := old(pay).prove[k := epoch + 1]),
                                     orders := old(orders).(
                                       stateAt := old(orders).stateAt[PairEpoch(k, ce.epoch) := old(oInfo)[k].ns]))
    {
      var info := oInfo[k].(prove := epoch + 1);
      var o := orders.(stateAt := orders.stateAt[PairEpoch(k, ce.epoch) := info.ns]);
      var p := pay.(prove := pay.prove[k := info.prove]);
      DatesUpdate(oInfo, k, info);
      PaidCoherent(orders, o, pay, p, oInfo, k, info);
      oInfo, pay, orders := oInfo[k := info], p, o;
    }

    method AddPay(from: nat, epoch: nat, income: AccIncome, sig: Signature) returns (ok: bool)
      requires Valid()
      modifies this
      ensures ok == ApplyConfirm(crypto, old(View()), from, epoch, income, sig).Ok?
      ensures ok ==> Valid() && ApplyConfirm(crypto, old(View()), from, epoch, income, sig) == Ok(View())
    {
      if epoch != ce.previous.epoch { return false; }
      var role := GetRole(from);
      if role.base.None? || role.base.value.typ != Keeper { return false; }
      var key := ProEpoch(income.pro, epoch);
      if key !in pay.proAt { return false; }
      var spi := pay.proAt[key];
      if !IncomeMatches(income, income.pro, spi) || !Signed(crypto, role.base, IncomeDigest(income), sig) {
        return false;
      }
      var rec := NewConfirmation(income);
      if key in pay.confirm { rec := pay.confirm[key]; }
      if !IncomeMatches(rec.income, income.pro, spi) { return false; }
      var ms := AddSignature(crypto, rec.sig, from, sig);
      if ms.Err? { return false; }
      pay := pay.(confirm := pay.confirm[key := rec.(sig := ms.value)]);
      UnseenWrites(orders, old(pay), oInfo, orders, pay);
      return true;
    }

    // ---- Messages and blocks ----

    method Dispatch(from: nat, body: Payload) returns (ok: bool)
      requires Valid()
      modifies this
      ensures (body.CreateFs? ==> from !in old(fs).verifyKey || from in old(sInfo)) ==>
                && ok == Step(crypto, old(View()), from, body).Ok?
                && (ok ==> Valid() && Step(crypto, old(View()), from, body) == Ok(View()))
    {
      match body
      case AddRole(role) => ok := AddRole(from, role);
      case CreateFs(vk) => ok := AddUser(from, vk);
      case CreateBucket(b, n) => ok := AddBucket(from, b, n);
      case PreDataOrder(o) => ok := CreateOrder(from, o);
      case AddDataOrder(q) => ok := AddSeq(from, q);
      case CommitDataOrder(u, p, n, q) => ok := CommitOrder(from, u, p, n, q);
      case SubDataOrder(u, p, n) => ok := SubOrder(from, u, p, n);
      case UpdateNet(_) => ok := true;
      case AddMeta(b) => ok := AddMeta(from, b);
      case Malformed(_) => ok := false;
      case _ => ok := DispatchPay(from, body);
    }

    /** The messages about faults, epochs, proofs and confirmations. */
    method DispatchPay(from: nat, body: Payload) returns (ok: bool)
      requires Valid() && (body.SegmentFault? || body.UpdateChalEpoch? || body.SegmentProof? || body.ConfirmPostIncome?)
      modifies this
      ensures ok == Step(crypto, old(View()), from, body).Ok?
      ensures ok ==> Valid() && Step(crypto, old(View()), from, body) == Ok(View())
    {
      match body
      case SegmentFault(f) => ok := RemoveSeg(from, f);
      case UpdateChalEpoch(p) => ok := AdvanceEpoch(p);
      case SegmentProof(p) => ok := AddSegProof(from, p);
      case ConfirmPostIncome(e, i, g) => ok := AddPay(from, e, i, g);
    }

    /** Count the message: nonce in cache and store, and the root. */
    method Admit(m: Message) returns (ok: bool)
      requires Valid()
      modifies this`rInfo, this`roles, this`root
      ensures Valid() && ok == (m.nonce == NonceOf(old(roles), m.from))
      ensures View() == if ok then Charge(crypto, old(View()), m) else old(View())
    {
      var role := GetRole(m.from);
      if m.nonce != role.nonce { return false; }
      rInfo := rInfo[m.from := role.(nonce := role.nonce + 1)];
      roles := roles.(nonce := roles.nonce[m.from := role.nonce + 1]);
      root := crypto.nextRoot(root, ParamsBlob(m.body));
      return true;
    }

    /** Nothing is promised for an accepted second CreateFs of a user that is not cached: see AddUser. */
    method ApplyMessage(m: Message, rejected: bool) returns (ok: bool)
      requires Valid()
      modifies this
      ensures FirstFs(old(View()), m, rejected) || m.from in old(sInfo) ==>
                && ok == ApplyMsg(crypto, old(View()), m, rejected).Ok?
                && (ok ==> Valid() && ApplyMsg(crypto, old(View()), m, rejected) == Ok(View()))
    {
      ok := Admit(m);
      if ok && !rejected {
        ok := Dispatch(m.from, m.body);
      }
    }

    method ApplyMessages(msgs: seq<Message>, receipts: seq<bool>) returns (ok: bool)
      requires Valid() && |msgs| <= |receipts| && FirstFsOnly(crypto, View(), msgs, receipts)
      modifies this
      ensures ok == ApplyMsgs(crypto, old(View()), msgs, receipts).Ok?
      ensures ok ==> Valid() && ApplyMsgs(crypto, old(View()), msgs, receipts) == Ok(View())
    {
      for i := 0 to |msgs|
        invariant Valid() && ApplyMsgs(crypto, old(View()), msgs[..i], receipts) == Ok(View())
      {
        assert msgs[..i + 1][..i] == msgs[..i];
        ok := ApplyMessage(msgs[i], receipts[i]);
        if !ok {
          MessagesStop(crypto, old(View()), msgs, receipts, i + 1);
          return false;
        }
      }
      assert msgs[..|msgs|] == msgs;
      return true;
    }

    /** Everything ApplyBlock checks before the messages. */
    method CheckBlock(b: Block) returns (ok: bool)
      ensures ok == Admissible(View(), b)
    {
      var r := b.raw;
      if r.header.height != height || r.header.slot <= slot || r.header.prevId != blk || r.parentRoot != root
        || |r.receipts| < |r.msgs| {
        return false;
      }
      if r.header.height == 0 { return KeepersOnly(r.msgs); }
      var thr := 2 * (|roles.keepers| + 1) / 3;
      if thr <= threshold { thr := threshold; }
      var found := CountSigners(roles.keepers, b.signers);
      return |b.signers| >= thr && |found| >= thr;
    }

    method FinishBlock(r: RawBlock)
      requires Valid()
      modifies this`height, this`slot, this`blk, this`version
      ensures Valid() && View() == Finish(crypto, old(View()), r)
    {
      height, slot, blk := height + 1, r.header.slot, crypto.blockId(r);
      version := NextVersion(version, height);
    }

    method ApplySignedBlock(b: Block) returns (ok: bool)
      requires Valid()
      requires |b.raw.msgs| <= |b.raw.receipts| ==>
               FirstFsOnly(crypto, Opened(crypto, View(), b.raw.header), b.raw.msgs, b.raw.receipts)
      modifies this
      ensures ok == ApplyBlock(crypto, old(View()), b).Ok?
      ensures ok ==> Valid() && ApplyBlock(crypto, old(View()), b) == Ok(View())
    {
      var r := b.raw;
      ok := CheckBlock(b);
      if !ok { return false; }
      root := crypto.nextRoot(root, HeaderBlob(r.header));
      assert View() == Opened(crypto, old(View()), r.header);
      ok := ApplyMessages(r.msgs, r.receipts);
      if !ok || root != r.root { return false; }
      FinishBlock(r);
    }
  }


  lemma CachedBucketCoherent(fs: FsDb, cache: map<nat, UserInfo>, user: nat, bucket: nat, b: Bucket)
    requires UsersCoherent(fs, cache) && user in cache && BucketCoherent(fs, user, bucket, b)
    ensures UsersCoherent(fs, cache[user := cache[user].(buckets := cache[user].buckets[bucket := b])])
  {
    var cache' := cache[user := cache[user].(buckets := cache[user].buckets[bucket := b])];
    forall u | u in cache' ensures UserCoherent(fs, u, cache'[u]) {
      assert UserCoherent(fs, u, cache[u]);
      forall x | x in cache'[u].buckets ensures BucketCoherent(fs, u, x, cache'[u].buckets[x]) {
        if u != user || x != bucket { assert BucketCoherent(fs, u, x, cache[u].buckets[x]); }
      }
    }
  }

  /** Writing a segment to store and cache keeps every cached bucket what a reload would give. */
  lemma ChunkCoherent(fs: FsDb, cache: map<nat, UserInfo>, user: nat, pro: nat, nonce: nat, seg: AggSegs, b: Bucket,
                      fs': FsDb, cache': map<nat, UserInfo>)
    requires UsersCoherent(fs, cache) && user in cache && seg.bucket in cache[user].buckets
    requires var held := cache[user].buckets[seg.bucket];
             && seg.chunk < |held.chunks|
             && pro in held.stripes
             && var info := ExtendStripe(held.chunks[seg.chunk], pro, nonce, seg.start, seg.length);
             && b == Bucket(held.chunks[seg.chunk := Some(info)],
                            held.stripes[pro := held.stripes[pro] + Range(seg.start, seg.length)])
             && fs' == fs.(bits := fs.bits[BitsKey(user, seg.bucket, pro) := b.stripes[pro]],
                           locAt := fs.locAt[StripeKey(user, seg.bucket, seg.chunk, seg.start) := info],
                           loc := fs.loc[ChunkKey(user, seg.bucket, seg.chunk) := seg.start])
    requires cache' == cache[user := cache[user].(buckets := cache[user].buckets[seg.bucket := b])]
    ensures UsersCoherent(fs', cache')
  {
    assert UserCoherent(fs, user, cache[user]);
    assert BucketCoherent(fs, user, seg.bucket, cache[user].buckets[seg.bucket]);
    forall u | u in cache' ensures UserCoherent(fs', u, cache'[u]) {
      assert UserCoherent(fs, u, cache[u]);
      forall x | x in cache'[u].buckets ensures BucketCoherent(fs', u, x, cache'[u].buckets[x]) {
        if u != user || x != seg.bucket { assert BucketCoherent(fs, u, x, cache[u].buckets[x]); }
      }
    }
  }

  lemma {:induction false} MessagesStop(c: Crypto, s: State, msgs: seq<Message>, receipts: seq<bool>, i: nat)
    requires i <= |msgs| <= |receipts| && ApplyMsgs(c, s, msgs[..i], receipts).Err?
    ensures ApplyMsgs(c, s, msgs, receipts).Err?
  {
    if i == |msgs| {
      assert msgs[..i] == msgs;
    } else {
      assert msgs[..|msgs| - 1][..i] == msgs[..i];
      MessagesStop(c, s, msgs[..|msgs| - 1], receipts, i);
    }
  }

  lemma {:induction false} ChunksStop(fs: FsDb, user: nat, pro: nat, nonce: nat, segs: seq<AggSegs>, i: nat)
    requires i <= |segs| && ApplyAddChunks(fs, user, pro, nonce, segs[..i]).Err?
    ensures ApplyAddChunks(fs, user, pro, nonce, segs).Err?
  {
    if i == |segs| {
      assert segs[..i] == segs;
    } else {
      var init := segs[..|segs| - 1];
      assert init[..i] == segs[..i];
      ChunksStop(fs, user, pro, nonce, init, i);
    }
  }

  lemma LoadedCoherent(o: OrderDb, p: PayDb, cache: map<Pair, OrderInfo>, k: Pair)
    requires OrdersCoherent(o, p, cache)
    ensures OrdersCoherent(o, p, cache[k := LoadOrder(o, p, k)])
  {
    forall j | j in cache && j != k ensures OrderCoherent(o, p, j, cache[j]) { }
  }

  /** Writes that reloading an order does not see. */
  lemma UnseenWrites(o: OrderDb, p: PayDb, cache: map<Pair, OrderInfo>, o': OrderDb, p': PayDb)
    requires OrdersCoherent(o, p, cache) && OrdersNumbered(o)
    requires p'.pair == p.pair && p'.prove == p.prove && o'.state == o.state
    requires o'.base.Keys == o.base.Keys
    requires forall x | x in o.base :: o'.base[x].order == o.base[x].order && o'.base[x].fr == o.base[x].fr
    ensures OrdersCoherent(o', p', cache) && OrdersNumbered(o')
  {
    forall j | j in cache ensures OrderCoherent(o', p', j, cache[j]) {
      assert OrderCoherent(o, p, j, cache[j]);
    }
  }

  lemma CachedIncome(o: OrderDb, p: PayDb, cache: map<Pair, OrderInfo>, k: Pair)
    requires OrdersCoherent(o, p, cache) && k in cache
    ensures cache[k].income == Get(p.pair, k, Income(0, 0))
  {
    assert OrderCoherent(o, p, k, cache[k]);
  }

  lemma PaidCoherent(o: OrderDb, o': OrderDb, p: PayDb, p': PayDb, cache: map<Pair, OrderInfo>, k: Pair,
                     info: OrderInfo)
    requires OrdersCoherent(o, p, cache) && OrdersNumbered(o) && k in cache && o' == o.(stateAt := o'.stateAt)
    requires p'.pair == p.pair[k := info.income] || (p'.pair == p.pair && info.income == cache[k].income)
    requires p'.prove == p.prove[k := info.prove] || (p'.prove == p.prove && info.prove == cache[k].prove)
    requires info == cache[k].(income := info.income, prove := info.prove)
    ensures OrdersCoherent(o', p', cache[k := info]) && OrdersNumbered(o')
  {
    var cache' := cache[k := info];
    forall j | j in cache' ensures OrderCoherent(o', p', j, cache'[j]) {
      assert OrderCoherent(o, p, j, cache[j]);
    }
  }

  lemma OpenedCoherent(o: OrderDb, p: PayDb, cache: map<Pair, OrderInfo>, k: Pair, of: OrderFull, o': OrderDb,
                       cache': map<Pair, OrderInfo>)
    requires OrdersCoherent(o, p, cache) && OrdersNumbered(o) && k in cache && cache[k].base.None?
    requires of.order.ob.nonce == cache[k].ns.nonce && of.fr == 0
    requires o'.base == o.base[OrderKey(k, of.order.ob.nonce) := of] && forall j :: Ns(o', j) == Ns(o, j)
    requires cache' == cache[k := cache[k].(base := Some(of.order))]
    ensures OrdersCoherent(o', p, cache') && OrdersNumbered(o')
  {
    assert OrderCoherent(o, p, k, cache[k]);
    forall j | j in cache' ensures OrderCoherent(o', p, j, cache'[j]) {
      assert OrderCoherent(o, p, j, cache[j]);
    }
  }

  lemma ExtendedCoherent(o: OrderDb, p: PayDb, cache: map<Pair, OrderInfo>, k: Pair, o': OrderDb, info: OrderInfo)
    requires OrdersCoherent(o, p, cache) && OrdersNumbered(o)
    requires var key := OrderKey(k, Ns(o, k).nonce);
             && key in o.base && key in o'.base && o'.base == o.base[key := o'.base[key]]
             && o'.base[key].order.ob == o.base[key].order.ob
             && forall j :: Ns(o', j) == if j == k then Ns(o, k).(seqNum := Ns(o, k).seqNum + 1) else Ns(o, j)
    requires info == LoadOrder(o', p, k).(dates := info.dates)
    ensures OrdersCoherent(o', p, cache[k := info]) && OrdersNumbered(o')
  {
    var cache' := cache[k := info];
    forall j | j in cache' ensures OrderCoherent(o', p, j, cache'[j]) {
      if j != k { assert OrderCoherent(o, p, j, cache[j]); }
    }
  }

  lemma NsCoherent(o: OrderDb, p: PayDb, cache: map<Pair, OrderInfo>, k: Pair, epoch: nat, info: OrderInfo)
    requires OrdersCoherent(o, p, cache) && OrdersNumbered(o) && k in cache
    requires info.prove == cache[k].prove && info.income == cache[k].income
    requires || (info.ns.nonce == cache[k].ns.nonce && info.fr == cache[k].fr && info.base == cache[k].base)
             || (info.ns.nonce == cache[k].ns.nonce + 1 && info.fr == 0 && info.base == None)
    ensures OrdersCoherent(PutNs(o, k, epoch, info.ns), p, cache[k := info])
    ensures OrdersNumbered(PutNs(o, k, epoch, info.ns))
  {
    assert OrderCoherent(o, p, k, cache[k]);
    var cache', o' := cache[k := info], PutNs(o, k, epoch, info.ns);
    forall j | j in cache' ensures OrderCoherent(o', p, j, cache'[j]) {
      assert OrderCoherent(o, p, j, cache[j]);
    }
  }

  lemma NewBucketCoherent(fs: FsDb, cache: map<nat, UserInfo>, user: nat, bucket: nat, chunks: nat, fs': FsDb,
                          cache': map<nat, UserInfo>)
    requires UsersCoherent(fs, cache) && user in cache && NextBucket(fs, user) == bucket
    requires var w := cache[user].(buckets := cache[user].buckets[bucket := NewBucket(chunks)], next := bucket + 1);
             cache' == cache[user := w]
    requires fs' == fs.(buckets := fs.buckets[BucketKey(user, bucket) := chunks], next := fs.next[user := bucket + 1])
    requires forall i: nat :: ChunkKey(user, bucket, i) !in fs.loc
    ensures UsersCoherent(fs', cache')
  {
    forall u | u in cache' ensures UserCoherent(fs', u, cache'[u]) {
      assert UserCoherent(fs, u, cache[u]);
      forall b | b in cache'[u].buckets ensures BucketCoherent(fs', u, b, cache'[u].buckets[b]) {
        if u != user || b != bucket { assert BucketCoherent(fs, u, b, cache[u].buckets[b]); }
      }
    }
  }
}
