/** The replicated data-chain state machine as its store sees it: every transition reads and writes
    stored records only. The single piece of cache history the code lets through, the remembered
    dates of the previous order, is the field `dates`. */
module Chain {
  import opened Types
  import opened SegQueues

  // ---- Stored records, one map per key family ----

  datatype OrderDb = OrderDb(
    state: map<Pair, NonceSeq>,
    stateAt: map<PairEpoch, NonceSeq>,
    base: map<OrderKey, OrderFull>,
    seqs: map<SeqKey, SeqFull>)

  datatype PayDb = PayDb(
    prove: map<Pair, nat>,
    pair: map<Pair, Income>,
    pairAt: map<PairEpoch, Income>,
    pro: map<nat, Income>,
    proAt: map<ProEpoch, Income>,
    confirm: map<ProEpoch, Confirmation>)

  datatype BucketKey = BucketKey(user: nat, bucket: nat)
  datatype BitsKey = BitsKey(user: nat, bucket: nat, pro: nat)
  datatype ChunkKey = ChunkKey(user: nat, bucket: nat, chunk: nat)
  datatype StripeKey = StripeKey(user: nat, bucket: nat, chunk: nat, stripe: nat)

  datatype FsDb = FsDb(
    verifyKey: map<nat, nat>,
    next: map<nat, nat>,
    buckets: map<BucketKey, nat>,
    bits: map<BitsKey, set<nat>>,
    loc: map<ChunkKey, nat>,
    locAt: map<StripeKey, AggStripe>)

  datatype RoleDb = RoleDb(base: map<nat, RoleBase>, nonce: map<nat, nat>, keepers: seq<nat>)

  datatype Clock = Clock(epoch: nat, current: ChalEpoch, previous: ChalEpoch, stored: map<nat, ChalEpoch>)

  datatype Dates = Dates(start: int, end: int)

  datatype State = State(
    orders: OrderDb, pay: PayDb, fs: FsDb, roles: RoleDb, ce: Clock,
    dates: map<Pair, Dates>,
    version: nat, height: nat, slot: nat, blk: nat, root: nat, threshold: nat)

  /** orderInfo: what the node keeps in memory about a user/provider pair. */
  datatype OrderInfo = OrderInfo(prove: nat, income: Income, ns: NonceSeq, fr: Fr, base: Option<SignedOrder>,
                                 dates: Dates)

  /** The empty state; `id` is the hash of contract address and group. */
  function Genesis(id: nat, threshold: nat): State
  {
    State(OrderDb(map[], map[], map[], map[]),
          PayDb(map[], map[], map[], map[], map[], map[]),
          FsDb(map[], map[], map[], map[], map[], map[]),
          RoleDb(map[], map[], []),
          Clock(0, ChalEpoch(0, 0, id), ChalEpoch(0, 0, id), map[]),
          map[], 0, 0, 0, id, id, threshold)
  }

  // ---- Lookups ----

  function Get<K, V>(m: map<K, V>, k: K, default: V): V
  {
    if k in m then m[k] else default
  }

  function Find<K, V>(m: map<K, V>, k: K): Option<V>
  {
    if k in m then Some(m[k]) else None
  }

  function Ns(o: OrderDb, k: Pair): NonceSeq
  {
    Get(o.state, k, NonceSeq(0, 0, 0))
  }

  function NextBucket(fs: FsDb, user: nat): nat
  {
    Get(fs.next, user, 0)
  }

  /** The dates loadOrder remembers: only when a current order exists and has a predecessor. */
  function LoadDates(o: OrderDb, k: Pair): Dates
  {
    var n := Ns(o, k).nonce;
    if OrderKey(k, n) in o.base && n > 0 && OrderKey(k, n - 1) in o.base then
      var prev := o.base[OrderKey(k, n - 1)].order.ob;
      Dates(prev.start, prev.end)
    else
      Dates(0, 0)
  }

  function LoadOrder(o: OrderDb, p: PayDb, k: Pair): OrderInfo
  {
    var ns := Ns(o, k);
    var cur := OrderKey(k, ns.nonce);
    OrderInfo(Get(p.prove, k, 0), Get(p.pair, k, Income(0, 0)), ns,
              if cur in o.base then o.base[cur].fr else 0,
              if cur in o.base then Some(o.base[cur].order) else None,
              LoadDates(o, k))
  }

  /** The order record a transition works on: the stored one, with remembered dates if any. */
  function OrderOf(s: State, k: Pair): OrderInfo
  {
    LoadOrder(s.orders, s.pay, k).(dates := Get(s.dates, k, LoadDates(s.orders, k)))
  }

  function Touch(s: State, k: Pair): State
  {
    s.(dates := s.dates[k := OrderOf(s, k).dates])
  }

  predicate Signed(c: Crypto, role: Option<RoleBase>, d: Digest, sig: Signature)
  {
    role.Some? && sig.typ != SigUnknown && c.sigOk(role.value, d, sig)
  }

  // ---- Roles, users and buckets ----

  function ApplyAddRole(s: State, from: nat, role: RoleBase): Result<State>
  {
    if role.id != from || from in s.roles.base then Err
    else
      Ok(s.(roles := s.roles.(
              base := s.roles.base[from := role],
              keepers := if role.typ == Keeper then s.roles.keepers + [from] else s.roles.keepers)))
  }

  predicate MayOwnFs(role: Option<RoleBase>, verifyKey: nat)
  {
    role.Some? && role.value.typ == User && role.value.extra == Some(verifyKey)
  }

  function ApplyCreateFs(s: State, from: nat, verifyKey: nat): Result<State>
  {
    if from in s.fs.verifyKey then Ok(s)
    else if !MayOwnFs(Find(s.roles.base, from), verifyKey) then Err
    else Ok(s.(fs := s.fs.(verifyKey := s.fs.verifyKey[from := verifyKey])))
  }

  function ApplyCreateBucket(s: State, from: nat, bucket: nat, chunks: nat): Result<State>
  {
    if from !in s.fs.verifyKey || NextBucket(s.fs, from) != bucket then Err
    else
      Ok(s.(fs := s.fs.(buckets := s.fs.buckets[BucketKey(from, bucket) := chunks],
                        next := s.fs.next[from := bucket + 1])))
  }

  function ApplyAddMeta(s: State, from: nat, bucket: nat): Result<State>
  {
    if from !in s.fs.verifyKey || NextBucket(s.fs, from) <= bucket then Err else Ok(s)
  }

  // ---- Stripes ----

  /** The stripes start, .., start + length - 1. */
  function Range(start: nat, length: nat): (r: set<nat>)
    ensures forall i: nat :: i in r <==> start <= i < start + length
  {
    if length == 0 then {} else Range(start, length - 1) + {start + length - 1}
  }

  lemma {:induction false} RangeSize(start: nat, length: nat)
    ensures |Range(start, length)| == length
  {
    if length > 0 { RangeSize(start, length - 1); }
  }

  function BitsOf(fs: FsDb, user: nat, bucket: nat, pro: nat): set<nat>
  {
    Get(fs.bits, BitsKey(user, bucket, pro), {})
  }

  /** The latest stripe run recorded for a chunk position. */
  function LatestStripe(fs: FsDb, user: nat, bucket: nat, chunk: nat): Option<AggStripe>
  {
    var ck := ChunkKey(user, bucket, chunk);
    if ck !in fs.loc then None else Find(fs.locAt, StripeKey(user, bucket, chunk, fs.loc[ck]))
  }

  function ExtendStripe(latest: Option<AggStripe>, pro: nat, nonce: nat, start: nat, length: nat): AggStripe
  {
    if latest.Some? && latest.value.pro == pro && latest.value.order == nonce
       && latest.value.start + latest.value.length == start
    then latest.value.(length := latest.value.length + length)
    else AggStripe(nonce, pro, start, length)
  }

  function ApplyAddChunk(fs: FsDb, user: nat, pro: nat, nonce: nat, seg: AggSegs): Result<FsDb>
  {
    var bits := BitsOf(fs, user, seg.bucket, pro);
    if user !in fs.verifyKey || NextBucket(fs, user) <= seg.bucket then Err
    else if seg.chunk >= Get(fs.buckets, BucketKey(user, seg.bucket), 0) then Err
    else if bits !! Range(seg.start, seg.length) then
      var info := ExtendStripe(LatestStripe(fs, user, seg.bucket, seg.chunk), pro, nonce, seg.start, seg.length);
      Ok(fs.(bits := fs.bits[BitsKey(user, seg.bucket, pro) := bits + Range(seg.start, seg.length)],
             loc := fs.loc[ChunkKey(user, seg.bucket, seg.chunk) := seg.start],
             locAt := fs.locAt[StripeKey(user, seg.bucket, seg.chunk, seg.start) := info]))
    else Err
  }

  function ApplyAddChunks(fs: FsDb, user: nat, pro: nat, nonce: nat, segs: seq<AggSegs>): Result<FsDb>
  {
    if segs == [] then Ok(fs)
    else
      match ApplyAddChunks(fs, user, pro, nonce, segs[..|segs| - 1])
      case Err => Err
      case Ok(fs1) => ApplyAddChunk(fs1, user, pro, nonce, segs[|segs| - 1])
  }

  function CountSegs(segs: seq<AggSegs>): nat
  {
    if segs == [] then 0 else CountSegs(segs[..|segs| - 1]) + segs[|segs| - 1].length
  }

  function RunFr(c: Crypto, fsId: nat, seg: AggSegs, n: nat, acc: Fr): Fr
  {
    if n == 0 then acc
    else FrAdd(RunFr(c, fsId, seg, n - 1, acc), c.segFr(fsId, seg.bucket, seg.start + n - 1, seg.chunk))
  }

  /** Sum of the field elements of all segments of a sequence. */
  function SegsFr(c: Crypto, fsId: nat, segs: seq<AggSegs>): Fr
  {
    if segs == [] then 0
    else RunFr(c, fsId, segs[|segs| - 1], segs[|segs| - 1].length, SegsFr(c, fsId, segs[..|segs| - 1]))
  }

  // ---- Orders ----

  predicate CheckOrder(b: OrderBase)
  {
    b.start > BASE_TIME && b.end > BASE_TIME && b.end - b.start <= ORDER_MAX && b.end % DAY == 0
  }

  predicate WellFormedOrder(from: nat, o: SignedOrder)
  {
    && o.size == 0 && o.price == 0
    && o.ob.end - o.ob.start >= ORDER_MIN
    && CheckOrder(o.ob)
    && from == o.ob.user
  }

  /** What createOrder and canCreateOrder both demand of the pair's record. */
  predicate FitsPair(info: OrderInfo, o: SignedOrder)
  {
    && o.ob.nonce == info.ns.nonce
    && info.base.None?
    && o.ob.start < o.ob.end
    && info.dates.start <= o.ob.start
    && info.dates.end <= o.ob.end
  }

  /** Write a pair's nonce record under both keys it is kept at. */
  function PutNs(o: OrderDb, k: Pair, epoch: nat, ns: NonceSeq): OrderDb
  {
    o.(state := o.state[k := ns], stateAt := o.stateAt[PairEpoch(k, epoch) := ns])
  }

  function ApplyCreateOrder(c: Crypto, s: State, from: nat, o: SignedOrder): Result<State>
  {
    var k := Pair(o.ob.user, o.ob.pro);
    var info := OrderOf(s, k);
    if !WellFormedOrder(from, o)
       || !Signed(c, Find(s.roles.base, o.ob.user), OrderHash(o), o.usign)
       || !Signed(c, Find(s.roles.base, o.ob.pro), OrderHash(o), o.psign)
       || !FitsPair(info, o) || info.ns.seqNum != 0
    then Err
    else
      var of := OrderFull(o, info.ns.seqNum, 0, DelPart(0, 0, 0));
      var t := Touch(s, k);
      Ok(t.(orders := PutNs(s.orders.(base := s.orders.base[OrderKey(k, o.ob.nonce) := of]), k, s.ce.epoch, info.ns)))
  }

  /** The price of a number of segments; CostIsProduct says it is their product. */
  function Cost(segPrice: nat, count: nat): nat
  {
    if count == 0 then 0 else Cost(segPrice, count - 1) + segPrice
  }

  lemma {:induction false} CostIsProduct(segPrice: nat, count: nat)
    ensures Cost(segPrice, count) == segPrice * count
  {
    if count > 0 { CostIsProduct(segPrice, count - 1); }
  }

  /** The order as both parties must sign it once the sequence is added. */
  function Extended(base: SignedOrder, d: OrderSeq): SignedOrder
  {
    base.(size := d.size, price := Cost(base.ob.segPrice, CountSegs(d.segments)) + base.price)
  }

  /** Checks shared by addSeq and canAddSeq. */
  predicate SeqAcceptable(c: Crypto, from: nat, q: SignedSeq, uri: Option<RoleBase>, pri: Option<RoleBase>,
                          info: OrderInfo)
  {
    && from == q.data.user
    && Signed(c, uri, SeqDigest(q.data), q.userDataSig)
    && Signed(c, pri, SeqDigest(q.data), q.proDataSig)
    && info.base.Some?
    && info.ns.nonce == q.data.nonce
    && info.ns.seqNum == q.data.seqNum
    && var base := info.base.value;
    && base.size + CountSegs(q.data.segments) * SEG_SIZE == q.data.size
    && Cost(base.ob.segPrice, CountSegs(q.data.segments)) + base.price == q.data.price
    && Signed(c, uri, OrderHash(Extended(base, q.data)), q.userSig)
    && Signed(c, pri, OrderHash(Extended(base, q.data)), q.proSig)
  }

  function NewBase(base: SignedOrder, q: SignedSeq): SignedOrder
  {
    base.(size := q.data.size, price := q.data.price, usign := q.userSig, psign := q.proSig)
  }

  /** The order records once sequence q with field element fr is added to the pair's current order. */
  function ExtendDb(o: OrderDb, k: Pair, epoch: nat, info: OrderInfo, q: SignedSeq, fr: Fr): OrderDb
    requires info.base.Some? && OrderKey(k, info.base.value.ob.nonce) in o.base
  {
    var d := q.data;
    var ns := info.ns.(seqNum := info.ns.seqNum + 1);
    var bk := OrderKey(k, info.base.value.ob.nonce);
    var of := o.base[bk].(order := NewBase(info.base.value, q), seqNum := ns.seqNum, fr := FrAdd(info.fr, fr));
    PutNs(o.(base := o.base[bk := of],
             seqs := o.seqs[SeqKey(k, d.nonce, d.seqNum) := SeqFull(d, fr, DelPart(0, 0, 0))]), k, epoch, ns)
  }

  function ApplyAddSeq(c: Crypto, s: State, from: nat, q: SignedSeq): Result<State>
  {
    var d := q.data;
    var k := Pair(d.user, d.pro);
    var info := OrderOf(s, k);
    if !SeqAcceptable(c, from, q, Find(s.roles.base, d.user), Find(s.roles.base, d.pro), info)
       || d.user !in s.fs.verifyKey
       || OrderKey(k, info.base.value.ob.nonce) !in s.orders.base
    then Err
    else
      match ApplyAddChunks(s.fs, d.user, d.pro, d.nonce, d.segments)
      case Err => Err
      case Ok(fs1) =>
        var fr := SegsFr(c, s.fs.verifyKey[d.user], d.segments);
        Ok(Touch(s, k).(orders := ExtendDb(s.orders, k, s.ce.epoch, info, q, fr), fs := fs1))
  }

  function ApplyCommit(s: State, from: nat, user: nat, pro: nat, nonce: nat, seqNum: nat): Result<State>
  {
    var k := Pair(user, pro);
    var info := OrderOf(s, k);
    if from != user || nonce != info.ns.nonce || seqNum != info.ns.seqNum || info.base.None?
      || info.base.value.size == 0
    then Err
    else
      var ns := NonceSeq(info.ns.nonce + 1, 0, info.ns.subNonce);
      Ok(Touch(s, k).(orders := PutNs(s.orders, k, s.ce.epoch, ns)))
  }

  function ApplySub(s: State, from: nat, user: nat, pro: nat, nonce: nat): Result<State>
  {
    var k := Pair(user, pro);
    var info := OrderOf(s, k);
    if from != pro || nonce != info.ns.subNonce || nonce > info.ns.nonce || OrderKey(k, nonce) !in s.orders.base
       || s.orders.base[OrderKey(k, nonce)].order.ob.end > SlotTime(s.ce.previous.slot)
    then Err
    else
      var ns := info.ns.(subNonce := info.ns.subNonce + 1);
      Ok(Touch(s, k).(orders := PutNs(s.orders, k, s.ce.epoch, ns)))
  }

  // ---- Income ledger ----

  function Plus(a: Income, value: int, penalty: int): Income
  {
    Income(a.value + value, a.penalty + penalty)
  }

  /** Book an amount for a pair in an epoch, in all five places it is kept. */
  function Book(p: PayDb, k: Pair, epoch: nat, value: int, penalty: int): PayDb
  {
    var zero := Income(0, 0);
    var total := Plus(Get(p.pro, k.pro, zero), value, penalty);
    p.(pair := p.pair[k := Plus(Get(p.pair, k, zero), value, penalty)],
       pairAt := p.pairAt[PairEpoch(k, epoch) := Plus(Get(p.pairAt, PairEpoch(k, epoch), zero), value, penalty)],
       pro := p.pro[k.pro := total],
       proAt := p.proAt[ProEpoch(k.pro, epoch) := total])
  }

  // ---- Segment faults ----

  predicate AllHeld(held: seq<AggSegs>, segs: seq<AggSegs>)
  {
    forall j, i | 0 <= j < |segs| && segs[j].start <= i < segs[j].start + segs[j].length ::
      AggHas(held, segs[j].bucket, i, segs[j].chunk)
  }

  function AddDel(d: DelPart, fr: Fr, size: nat, price: int): DelPart
  {
    DelPart(FrAdd(d.fr, fr), d.size + size, d.price + price)
  }

  /** Checks shared by removeSeg and canRemoveSeg. */
  predicate FaultAcceptable(o: OrderDb, previous: nat, current: nat, from: nat, f: SegRemove)
  {
    var k := Pair(f.user, f.pro);
    && from == f.pro
    && OrderKey(k, f.nonce) in o.base
    && SlotTime(previous) <= o.base[OrderKey(k, f.nonce)].order.ob.end
    && SlotTime(current) >= o.base[OrderKey(k, f.nonce)].order.ob.start
    && SeqKey(k, f.nonce, f.seqNum) in o.seqs
    && AllHeld(o.seqs[SeqKey(k, f.nonce, f.seqNum)].data.segments, f.segments)
  }

  /** What the provider forfeits: the price of the lost segments for the rest of the order. */
  function Penalty(b: OrderBase, count: nat, since: int): int
  {
    Cost(b.segPrice, count) * (b.end - since)
  }

  function ApplyFault(c: Crypto, s: State, from: nat, f: SegRemove): Result<State>
  {
    var k := Pair(f.user, f.pro);
    if f.user !in s.fs.verifyKey || !FaultAcceptable(s.orders, s.ce.previous.slot, s.ce.current.slot, from, f) then Err
    else
      var ok, sk := OrderKey(k, f.nonce), SeqKey(k, f.nonce, f.seqNum);
      var of, sf := s.orders.base[ok], s.orders.seqs[sk];
      var fr := SegsFr(c, s.fs.verifyKey[f.user], f.segments);
      var size := CountSegs(f.segments) * SEG_SIZE;
      var price := Cost(of.order.ob.segPrice, CountSegs(f.segments));
      var penalty := Penalty(of.order.ob, CountSegs(f.segments), SlotTime(s.ce.previous.slot));
      Ok(Touch(s, k).(
           orders := s.orders.(base := s.orders.base[ok := of.(del := AddDel(of.del, fr, size, price))],
                               seqs := s.orders.seqs[sk := sf.(del := AddDel(sf.del, fr, size, price))]),
           pay := Book(s.pay, k, s.ce.current.epoch, 0, penalty)))
  }

  // ---- Challenge epochs ----

  function ApplyUpdateEpoch(c: Crypto, s: State, p: EpochParams): Result<State>
  {
    var d := ChalDuration(s.version);
    if p.epoch != s.ce.epoch || p.prev != s.ce.current.seed || d.None? || s.slot - s.ce.current.slot < d.value
    then Err
    else
      var cur := ChalEpoch(p.epoch, s.slot, c.seedOf(p));
      Ok(s.(ce := Clock(s.ce.epoch + 1, cur, s.ce.current, s.ce.stored[p.epoch := cur])))
  }

  // ---- Storage proofs ----

  /** Running totals of a challenge: price, size, deleted size, field element, last duration. */
  datatype Acc = Acc(price: int, size: nat, del: nat, fr: Fr, dur: int)

  /** The code's case distinction; an order strictly inside the window keeps the previous value. */
  function Duration(start: int, end: int, cs: int, ce: int, previous: int): int
  {
    if start <= cs && end >= ce then ce - cs
    else if start >= cs && end >= ce then ce - start
    else if start <= cs && end <= ce then end - cs
    else previous
  }

  /** Sequences 0..m of the challenged current order; `total` is the number challenged. */
  function SeqTotals(o: OrderDb, k: Pair, n: nat, m: nat, total: nat, acc: Acc): Result<Acc>
    requires m <= total
  {
    if m == 0 then Ok(acc)
    else
      match SeqTotals(o, k, n, m - 1, total, acc)
      case Err => Err
      case Ok(a) =>
        if SeqKey(k, n, m - 1) !in o.seqs then Err
        else
          var sf := o.seqs[SeqKey(k, n, m - 1)];
          var b := a.(price := a.price - sf.del.price * a.dur, del := a.del + sf.del.size,
                      fr := FrAdd(a.fr, FrSub(sf.fr, sf.del.fr)));
          Ok(if m == total then b.(size := b.size + sf.data.size, price := b.price + sf.data.price * a.dur) else b)
  }

  function CurrentTotals(o: OrderDb, k: Pair, ns: NonceSeq, cs: int, ce: int): Result<Acc>
  {
    var zero := Acc(0, 0, 0, 0, 0);
    if ns.seqNum == 0 then Ok(zero)
    else if OrderKey(k, ns.nonce) !in o.base then Err
    else
      var b := o.base[OrderKey(k, ns.nonce)].order.ob;
      if b.start >= ce then Ok(zero)
      else if b.end <= cs then Err
      else SeqTotals(o, k, ns.nonce, ns.seqNum, ns.seqNum, zero.(dur := Duration(b.start, b.end, cs, ce, 0)))
  }

  /** Add one committed order in aggregate form. */
  function AddOrder(a: Acc, of: OrderFull, cs: int, ce: int): Acc
  {
    var d := Duration(of.order.ob.start, of.order.ob.end, cs, ce, a.dur);
    Acc(a.price + (of.order.price - of.del.price) * d, a.size + of.order.size, a.del + of.del.size,
        FrAdd(a.fr, FrSub(of.fr, of.del.fr)), d)
  }

  /** Orders lo..hi in aggregate form. Validation skips an order that starts after the window
      (`skipLate`), the real transition refuses it. */
  function PastTotals(o: OrderDb, k: Pair, lo: nat, hi: nat, cs: int, ce: int, acc: Acc, skipLate: bool): Result<Acc>
    requires lo <= hi
    decreases hi
  {
    if lo == hi then Ok(acc)
    else
      match PastTotals(o, k, lo, hi - 1, cs, ce, acc, skipLate)
      case Err => Err
      case Ok(a) =>
        if OrderKey(k, hi - 1) !in o.base then Err
        else
          var of := o.base[OrderKey(k, hi - 1)];
          if of.order.ob.start >= ce then (if skipLate then Ok(a) else Err)
          else if of.order.ob.end <= cs then Err
          else Ok(AddOrder(a, of, cs, ce))
  }

  function ChalTotals(o: OrderDb, k: Pair, ns: NonceSeq, lo: nat, cs: int, ce: int, skipLate: bool): Result<Acc>
    requires lo <= ns.nonce
  {
    match CurrentTotals(o, k, ns, cs, ce)
    case Err => Err
    case Ok(a) => PastTotals(o, k, lo, ns.nonce, cs, ce, a, skipLate)
  }

  /** The nonces under challenge: those recorded for the epoch, else the present ones. */
  function Challenged(o: OrderDb, k: Pair, epoch: nat, ns: NonceSeq): NonceSeq
  {
    Get(o.stateAt, PairEpoch(k, epoch), NonceSeq(ns.nonce, ns.seqNum, 0))
  }

  /** Everything addSegProof checks; the result is the price owed. */
  function ProvenPrice(c: Crypto, o: OrderDb, info: OrderInfo, verifyKey: Option<nat>, current: ChalEpoch,
                       previous: ChalEpoch, from: nat, p: SegProof, skipLate: bool): Result<int>
  {
    var k := Pair(p.user, p.pro);
    var ns := Challenged(o, k, p.epoch, info.ns);
    var cs, ce := SlotTime(previous.slot), SlotTime(current.slot);
    if from != p.pro || p.epoch != current.epoch || info.prove > p.epoch || verifyKey.None?
       || (ns.nonce == 0 && ns.seqNum == 0) || p.orderStart > p.orderEnd || ns.nonce != p.orderEnd || ce <= cs
    then Err
    else
      match ChalTotals(o, k, ns, p.orderStart, cs, ce, skipLate)
      case Err => Err
      case Ok(a) =>
        if (a.size - a.del) % UINT64 != p.size || a.price != p.price
           || !c.proofOk(verifyKey.value, Challenge(verifyKey.value, p.user, current.seed, a.fr), p.proof)
        then Err
        else Ok(a.price)
  }

  /** The state after a proof worth `price` has been accepted for a pair. */
  function Paid(s: State, k: Pair, epoch: nat, price: int): State
  {
    s.(pay := Book(s.pay, k, epoch, price, 0).(prove := s.pay.prove[k := epoch + 1]),
       orders := s.orders.(stateAt := s.orders.stateAt[PairEpoch(k, s.ce.epoch) := Ns(s.orders, k)]))
  }

  function ApplyProof(c: Crypto, s: State, from: nat, p: SegProof): Result<State>
  {
    var k := Pair(p.user, p.pro);
    match ProvenPrice(c, s.orders, OrderOf(s, k), Find(s.fs.verifyKey, p.user), s.ce.current, s.ce.previous, from,
                      p, false)
    case Err => Err
    case Ok(price) => Ok(Paid(Touch(s, k), k, p.epoch, price))
  }

  // ---- Confirmations ----

  /** MultiSignature.Add */
  function AddSigner(c: Crypto, ms: MultiSignature, id: nat, sig: Signature): Result<MultiSignature>
  {
    if sig.typ != ms.typ || id in ms.signers then Err
    else if ms.typ == SigBLS && ms.data != [] then
      match c.aggregate(ms.data, sig.data)
      case None => Err
      case Some(data) => Ok(MultiSignature(ms.typ, ms.signers + [id], data))
    else Ok(MultiSignature(ms.typ, ms.signers + [id], ms.data + sig.data))
  }

  function NewConfirmation(income: AccIncome): Confirmation
  {
    Confirmation(income, MultiSignature(SigSecp256k1, [], []))
  }

  predicate IncomeMatches(a: AccIncome, pro: nat, b: Income)
  {
    a.pro == pro && a.value == b.value && a.penalty == b.penalty
  }

  function ApplyConfirm(c: Crypto, s: State, from: nat, epoch: nat, income: AccIncome, sig: Signature): Result<State>
  {
    var key := ProEpoch(income.pro, epoch);
    var role := Find(s.roles.base, from);
    if epoch != s.ce.previous.epoch || role.None? || role.value.typ != Keeper || key !in s.pay.proAt
       || !IncomeMatches(income, income.pro, s.pay.proAt[key])
       || !Signed(c, role, IncomeDigest(income), sig)
    then Err
    else
      var rec := Get(s.pay.confirm, key, NewConfirmation(income));
      if !IncomeMatches(rec.income, income.pro, s.pay.proAt[key]) then Err
      else
        match AddSigner(c, rec.sig, from, sig)
        case Err => Err
        case Ok(ms) => Ok(s.(pay := s.pay.(confirm := s.pay.confirm[key := rec.(sig := ms)])))
  }

  // ---- Messages and blocks ----

  function Step(c: Crypto, s: State, from: nat, body: Payload): Result<State>
  {
    match body
    case AddRole(role) => ApplyAddRole(s, from, role)
    case CreateFs(vk) => ApplyCreateFs(s, from, vk)
    case CreateBucket(b, n) => ApplyCreateBucket(s, from, b, n)
    case PreDataOrder(o) => ApplyCreateOrder(c, s, from, o)
    case AddDataOrder(q) => ApplyAddSeq(c, s, from, q)
    case CommitDataOrder(u, p, n, q) => ApplyCommit(s, from, u, p, n, q)
    case SubDataOrder(u, p, n) => ApplySub(s, from, u, p, n)
    case SegmentFault(f) => ApplyFault(c, s, from, f)
    case UpdateChalEpoch(p) => ApplyUpdateEpoch(c, s, p)
    case SegmentProof(p) => ApplyProof(c, s, from, p)
    case ConfirmPostIncome(e, i, g) => ApplyConfirm(c, s, from, e, i, g)
    case UpdateNet(_) => Ok(s)
    case AddMeta(b) => ApplyAddMeta(s, from, b)
    case Malformed(_) => Err
  }

  function NonceOf(r: RoleDb, id: nat): nat
  {
    Get(r.nonce, id, 0)
  }

  /** The part of applyMsg that also happens for a message marked rejected. */
  function Charge(c: Crypto, s: State, m: Message): State
  {
    s.(roles := s.roles.(nonce := s.roles.nonce[m.from := m.nonce + 1]), root := c.nextRoot(s.root, ParamsBlob(m.body)))
  }

  function ApplyMsg(c: Crypto, s: State, m: Message, rejected: bool): Result<State>
  {
    if m.nonce != NonceOf(s.roles, m.from) then Err
    else if rejected then Ok(Charge(c, s, m))
    else Step(c, Charge(c, s, m), m.from, m.body)
  }

  function ApplyMsgs(c: Crypto, s: State, msgs: seq<Message>, receipts: seq<bool>): Result<State>
    requires |msgs| <= |receipts|
  {
    if msgs == [] then Ok(s)
    else
      var n := |msgs| - 1;
      match ApplyMsgs(c, s, msgs[..n], receipts)
      case Err => Err
      case Ok(t) => ApplyMsg(c, t, msgs[n], receipts[n])
  }

  /** A message is not an accepted second CreateFs. */
  predicate FirstFs(s: State, m: Message, rejected: bool)
  {
    m.body.CreateFs? && !rejected ==> m.from !in s.fs.verifyKey
  }

  /** No message of the list is an accepted second CreateFs when its turn comes. */
  ghost predicate FirstFsOnly(c: Crypto, s: State, msgs: seq<Message>, receipts: seq<bool>)
    requires |msgs| <= |receipts|
  {
    forall i | 0 <= i < |msgs| ::
      ApplyMsgs(c, s, msgs[..i], receipts).Ok? ==>
        FirstFs(ApplyMsgs(c, s, msgs[..i], receipts).value, msgs[i], receipts[i])
  }

  function Threshold(s: State): nat
  {
    var t := 2 * (|s.roles.keepers| + 1) / 3;
    if t > s.threshold then t else s.threshold
  }

  function ValidSigners(keepers: seq<nat>, signers: seq<nat>): set<nat>
  {
    set x | x in signers && x in keepers
  }

  predicate EnoughSigners(s: State, signers: seq<nat>)
  {
    |signers| >= Threshold(s) && |ValidSigners(s.roles.keepers, signers)| >= Threshold(s)
  }

  predicate KeepersOnly(msgs: seq<Message>)
  {
    forall m | m in msgs :: m.body.AddRole? && m.body.role.typ == Keeper
  }

  predicate Fits(s: State, h: Header)
  {
    h.height == s.height && h.slot > s.slot && h.prevId == s.blk
  }

  function NextVersion(version: nat, height: nat): nat
  {
    var u := UpdateHeight(version + 1);
    if u.Some? && height >= u.value then version + 1 else version
  }

  function Finish(c: Crypto, s: State, raw: RawBlock): State
  {
    s.(height := s.height + 1, slot := raw.header.slot, blk := c.blockId(raw),
       version := NextVersion(s.version, s.height + 1))
  }

  /** Everything a block must satisfy before its messages are looked at. */
  predicate Admissible(s: State, b: Block)
  {
    && Fits(s, b.raw.header)
    && b.raw.parentRoot == s.root
    && |b.raw.msgs| <= |b.raw.receipts|
    && (if b.raw.header.height > 0 then EnoughSigners(s, b.signers) else KeepersOnly(b.raw.msgs))
  }

  /** The state in which the messages of a block are applied. */
  function Opened(c: Crypto, s: State, h: Header): State
  {
    s.(root := c.nextRoot(s.root, HeaderBlob(h)))
  }

  function ApplyBlock(c: Crypto, s: State, b: Block): Result<State>
  {
    if !Admissible(s, b) then Err
    else
      match ApplyMsgs(c, Opened(c, s, b.raw.header), b.raw.msgs, b.raw.receipts)
      case Err => Err
      case Ok(t) => if t.root != b.raw.root then Err else Ok(Finish(c, t, b.raw))
  }

  // ---- Runs ----

  /** A node applies blocks and may be restarted in between, which empties its caches. */
  datatype Event = Applied(block: Block) | Restarted

  function Run(c: Crypto, s: State, events: seq<Event>): Result<State>
  {
    if events == [] then Ok(s)
    else
      match Run(c, s, events[..|events| - 1])
      case Err => Err
      case Ok(t) =>
        match events[|events| - 1]
        case Applied(b) => ApplyBlock(c, t, b)
        case Restarted => Ok(t.(dates := map[]))
  }

  ghost predicate Reachable(c: Crypto, s: State)
  {
    exists id: nat, threshold: nat, events :: Run(c, Genesis(id, threshold), events) == Ok(s)
  }
}
