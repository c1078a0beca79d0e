/** The other direction: what apply would accept, validation accepts too, so that nobody's messages are
    turned away for good. */
module Converse {
  import opened Types
  import opened Chain
  import opened Cache
  import opened Validation
  import opened OrderBook
  import opened Stripes
  import opened Growth
  import opened Confirmations
  import opened Invariants
  import opened Restarts
  import opened Agreement
  import opened Differences
  import opened BlockAgreement

  // ---- Segments ----

  /** The scratch marks of a pair are the applied ones. */
  ghost predicate SameMarks(fs0: FsDb, users: map<nat, UserInfo>, fs: FsDb, u: nat, p: nat)
  {
    var w := VUser(fs0, users, u);
    w.Some? ==> forall b: nat :: SameBucketMarks(fs0, w.value, fs, u, b, p)
  }

  ghost predicate SameBucketMarks(fs0: FsDb, w: UserInfo, fs: FsDb, u: nat, b: nat, p: nat)
  {
    StripesOf(fs0, u, b, BucketOf(fs0, u, w, b), p) == BitsOf(fs, u, b, p)
  }

  lemma ChunkWelcome(fs0: FsDb, users: map<nat, UserInfo>, fs: FsDb, user: nat, pro: nat, nonce: nat, seg: AggSegs)
    requires UsersSim(fs0, users, fs) && SameMarks(fs0, users, fs, user, pro)
    requires ApplyAddChunk(fs, user, pro, nonce, seg).Ok?
    ensures CanAddChunk(fs0, users, user, pro, nonce, seg).1
    ensures SameMarks(fs0, CanAddChunk(fs0, users, user, pro, nonce, seg).0,
                      ApplyAddChunk(fs, user, pro, nonce, seg).value, user, pro)
  {
    assert UserSim(fs0, users, fs, user);
    var w := VUser(fs0, users, user).value;
    assert BucketSim(fs0, w, fs, user, seg.bucket) && SameBucketMarks(fs0, w, fs, user, seg.bucket, pro);
    var users' := CanAddChunk(fs0, users, user, pro, nonce, seg).0;
    var fs' := ApplyAddChunk(fs, user, pro, nonce, seg).value;
    forall b: nat ensures SameBucketMarks(fs0, users'[user], fs', user, b, pro) {
      assert SameBucketMarks(fs0, w, fs, user, b, pro);
    }
  }

  /** Segments that apply accepts are accepted by validation, as long as no extra marks are left. */
  lemma {:induction false} ChunksWelcome(fs0: FsDb, users: map<nat, UserInfo>, fs: FsDb, user: nat, pro: nat,
                                         nonce: nat, segs: seq<AggSegs>)
    requires UsersSim(fs0, users, fs) && SameMarks(fs0, users, fs, user, pro)
    requires ApplyAddChunks(fs, user, pro, nonce, segs).Ok?
    ensures CanAddChunks(fs0, users, user, pro, nonce, segs).1
    ensures SameMarks(fs0, CanAddChunks(fs0, users, user, pro, nonce, segs).0,
                      ApplyAddChunks(fs, user, pro, nonce, segs).value, user, pro)
  {
    if segs != [] {
      var init, last := segs[..|segs| - 1], segs[|segs| - 1];
      ChunksWelcome(fs0, users, fs, user, pro, nonce, init);
      ChunksAgree(fs0, users, fs, user, pro, nonce, init);
      ChunkWelcome(fs0, CanAddChunks(fs0, users, user, pro, nonce, init).0,
                   ApplyAddChunks(fs, user, pro, nonce, init).value, user, pro, nonce, last);
    }
  }

  // ---- One method at a time ----

  lemma RoleWelcome(s0: State, v: Val, s: State, from: nat, role: RoleBase)
    requires Sim(s0, v, s) && ApplyAddRole(s, from, role).Ok?
    ensures CanAddRole(s0, v, from, role).1
  {
    assert RoleSim(s0, v, s, from);
  }

  /** Apply answers a second CreateFs of a user with success, validation does not. */
  lemma FsWelcome(s0: State, v: Val, s: State, from: nat, vk: nat)
    requires Sim(s0, v, s) && ApplyCreateFs(s, from, vk).Ok?
    ensures CanCreateFs(s0, v, from, vk).1 <==> from !in s.fs.verifyKey
  {
    assert RoleSim(s0, v, s, from) && UserSim(s0.fs, v.users, s.fs, from);
  }

  lemma BucketWelcome(s0: State, v: Val, s: State, from: nat, bucket: nat, chunks: nat)
    requires Sim(s0, v, s) && ApplyCreateBucket(s, from, bucket, chunks).Ok?
    ensures CanCreateBucket(s0, v, from, bucket, chunks).1
  {
    assert UserSim(s0.fs, v.users, s.fs, from);
  }

  lemma MetaWelcome(s0: State, v: Val, s: State, from: nat, bucket: nat)
    requires Sim(s0, v, s) && ApplyAddMeta(s, from, bucket).Ok?
    ensures CanAddMeta(s0, v, from, bucket).1
  {
    assert UserSim(s0.fs, v.users, s.fs, from);
  }

  lemma CanCreateWhen(c: Crypto, s0: State, v: Val, from: nat, o: SignedOrder)
    ensures var info := VOrder(s0, v, Pair(o.ob.user, o.ob.pro));
            CanCreateOrder(c, s0, v, from, o).1 <==>
            && WellFormedOrder(from, o) && FitsPair(info, o)
            && Signed(c, VRole(s0, v, o.ob.user).base, OrderHash(o), o.usign)
            && Signed(c, VRole(s0, v, o.ob.pro).base, OrderHash(o), o.psign)
  {
  }

  /** The dates in the scratch record decide. */
  lemma OrderWelcome(c: Crypto, s0: State, v: Val, s: State, from: nat, o: SignedOrder)
    requires Sim(s0, v, s) && ApplyCreateOrder(c, s, from, o).Ok?
    ensures CanCreateOrder(c, s0, v, from, o).1 <==> DatesAllow(VOrder(s0, v, Pair(o.ob.user, o.ob.pro)).dates, o)
  {
    CreateOrderVerdict(c, s, s, from, o);
    CanCreateWhen(c, s0, v, from, o);
    assert RoleSim(s0, v, s, o.ob.user) && RoleSim(s0, v, s, o.ob.pro);
    assert OrderSim(s0, v, s, Pair(o.ob.user, o.ob.pro));
  }

  lemma CanAddSeqWhen(c: Crypto, s0: State, v: Val, from: nat, q: SignedSeq)
    ensures var d := q.data;
            CanAddSeq(c, s0, v, from, q).1 <==>
            && SeqAcceptable(c, from, q, VRole(s0, v, d.user).base, VRole(s0, v, d.pro).base,
                             VOrder(s0, v, Pair(d.user, d.pro)))
            && CanAddChunks(s0.fs, v.users, d.user, d.pro, d.nonce, d.segments).1
  {
  }

  lemma ApplyAddSeqNeeds(c: Crypto, s: State, from: nat, q: SignedSeq)
    requires ApplyAddSeq(c, s, from, q).Ok?
    ensures var d := q.data;
            && SeqAcceptable(c, from, q, Find(s.roles.base, d.user), Find(s.roles.base, d.pro),
                             OrderOf(s, Pair(d.user, d.pro)))
            && ApplyAddChunks(s.fs, d.user, d.pro, d.nonce, d.segments).Ok?
  {
  }

  lemma SequenceWelcome(c: Crypto, s0: State, v: Val, s: State, from: nat, q: SignedSeq)
    requires Sim(s0, v, s) && ApplyAddSeq(c, s, from, q).Ok?
    requires SameMarks(s0.fs, v.users, s.fs, q.data.user, q.data.pro)
    ensures CanAddSeq(c, s0, v, from, q).1
  {
    var d := q.data;
    var k := Pair(d.user, d.pro);
    assert RoleSim(s0, v, s, d.user) && RoleSim(s0, v, s, d.pro) && OrderSim(s0, v, s, k);
    ApplyAddSeqNeeds(c, s, from, q);
    CanAddSeqWhen(c, s0, v, from, q);
    SameRecordSameVerdict(c, from, q, Find(s.roles.base, d.user), Find(s.roles.base, d.pro), OrderOf(s, k),
                          VOrder(s0, v, k));
    ChunksWelcome(s0.fs, v.users, s.fs, d.user, d.pro, d.nonce, d.segments);
  }

  lemma CommitWelcome(s0: State, v: Val, s: State, from: nat, user: nat, pro: nat, nonce: nat, seqNum: nat)
    requires Sim(s0, v, s) && ApplyCommit(s, from, user, pro, nonce, seqNum).Ok?
    ensures CanCommit(s0, v, from, user, pro, nonce, seqNum).1
  {
    assert OrderSim(s0, v, s, Pair(user, pro));
  }

  /** Validation looks for the order, and for the start of the window, in the last applied state. */
  lemma SubWelcome(s0: State, v: Val, s: State, from: nat, user: nat, pro: nat, nonce: nat)
    requires Sim(s0, v, s) && ApplySub(s, from, user, pro, nonce).Ok?
    ensures var key := OrderKey(Pair(user, pro), nonce);
            CanSub(s0, v, from, user, pro, nonce).1 <==>
            key in s0.orders.base && s0.orders.base[key].order.ob.end <= SlotTime(s0.ce.previous.slot)
  {
    assert OrderSim(s0, v, s, Pair(user, pro));
  }

  lemma FaultNeeds(c: Crypto, s: State, from: nat, f: SegRemove)
    requires ApplyFault(c, s, from, f).Ok?
    ensures FaultAcceptable(s.orders, s.ce.previous.slot, s.ce.current.slot, from, f)
  {
  }

  lemma OlderFault(o: OrderDb, o': OrderDb, previous: nat, current: nat, from: nat, f: SegRemove)
    requires OrdersGrow(o, o') && SeqsKept(o, o') && FaultAcceptable(o', previous, current, from, f)
    ensures FaultAcceptable(o, previous, current, from, f) <==>
            OrderKey(Pair(f.user, f.pro), f.nonce) in o.base && SeqKey(Pair(f.user, f.pro), f.nonce, f.seqNum) in o.seqs
  {
    assert OrderGrows(o, o', OrderKey(Pair(f.user, f.pro), f.nonce));
  }

  /** Validation looks for the sequence in the last applied state. */
  lemma FaultWelcome(c: Crypto, s0: State, v: Val, s: State, from: nat, f: SegRemove)
    requires Sim(s0, v, s) && ApplyFault(c, s, from, f).Ok?
    ensures FaultAcceptable(s0.orders, v.previous.slot, v.current.slot, from, f) <==>
            OrderKey(Pair(f.user, f.pro), f.nonce) in s0.orders.base
            && SeqKey(Pair(f.user, f.pro), f.nonce, f.seqNum) in s0.orders.seqs
  {
    FaultNeeds(c, s, from, f);
    OlderFault(s0.orders, s.orders, s.ce.previous.slot, s.ce.current.slot, from, f);
  }

  lemma EpochWelcome(c: Crypto, s0: State, v: Val, s: State, p: EpochParams)
    requires Sim(s0, v, s) && s.slot <= v.slot && ApplyUpdateEpoch(c, s, p).Ok?
    ensures CanUpdateEpoch(c, s0, v, p).1
  {
  }

  lemma ProofWelcome(c: Crypto, s0: State, v: Val, s: State, from: nat, p: SegProof)
    requires Sim(s0, v, s) && ApplyProof(c, s, from, p).Ok?
    requires SameStored(s.orders, s0.orders, Pair(p.user, p.pro), p.epoch)
    ensures CanProve(c, s0, v, from, p).1
  {
    var k := Pair(p.user, p.pro);
    var vk := Find(s.fs.verifyKey, p.user);
    assert OrderSim(s0, v, s, k) && UserSim(s0.fs, v.users, s.fs, p.user);
    ProofApplies(c, s, from, p);
    SamePriceStored(c, s.orders, s0.orders, OrderOf(s, k), VOrder(s0, v, k), vk, s.ce.current, s.ce.previous, from, p);
  }

  lemma SamePriceStored(c: Crypto, o: OrderDb, o': OrderDb, x: OrderInfo, y: OrderInfo, vk: Option<nat>,
                        current: ChalEpoch, previous: ChalEpoch, from: nat, p: SegProof)
    requires SameStored(o, o', Pair(p.user, p.pro), p.epoch) && x.ns == y.ns && x.prove == y.prove
    ensures ProvenPrice(c, o, x, vk, current, previous, from, p, true)
            == ProvenPrice(c, o', y, vk, current, previous, from, p, true)
  {
    var k := Pair(p.user, p.pro);
    var ns := Challenged(o, k, p.epoch, x.ns);
    assert ns == Challenged(o', k, p.epoch, y.ns);
    if p.orderStart <= ns.nonce {
      SameChalTotals(o, o', k, p.epoch, ns, p.orderStart, SlotTime(previous.slot), SlotTime(current.slot), true);
    }
  }

  /** The snapshot and the amounts of the record are those of the last applied state. */
  ghost predicate SameConfirmation(s0: State, s: State, key: ProEpoch)
  {
    && Find(s0.pay.proAt, key) == Find(s.pay.proAt, key)
    && (key in s0.pay.confirm ==> key in s.pay.confirm && s0.pay.confirm[key].income == s.pay.confirm[key].income)
  }

  lemma ConfirmWelcome(c: Crypto, s0: State, v: Val, s: State, from: nat, epoch: nat, income: AccIncome, sig: Signature)
    requires Sim(s0, v, s) && ConfirmsOk(c, s) && ApplyConfirm(c, s, from, epoch, income, sig).Ok?
    requires SameConfirmation(s0, s, ProEpoch(income.pro, epoch))
    ensures CanConfirm(c, s0, v, from, epoch, income, sig).1
  {
    var key := ProEpoch(income.pro, epoch);
    assert RoleSim(s0, v, s, from);
    if key in s.pay.confirm { assert RecordOk(c, s, key, s.pay.confirm[key]); }
  }

  // ---- All methods together ----

  /** What validation wants to find besides what apply finds. */
  ghost predicate Steady(s0: State, v: Val, s: State, from: nat, body: Payload)
  {
    match body
    case CreateFs(_) => from !in s.fs.verifyKey
    case PreDataOrder(o) => DatesAllow(VOrder(s0, v, Pair(o.ob.user, o.ob.pro)).dates, o)
    case AddDataOrder(q) => SameMarks(s0.fs, v.users, s.fs, q.data.user, q.data.pro)
    case SubDataOrder(u, p, n) =>
      var key := OrderKey(Pair(u, p), n);
      key in s0.orders.base && s0.orders.base[key].order.ob.end <= SlotTime(s0.ce.previous.slot)
    case SegmentFault(f) =>
      && OrderKey(Pair(f.user, f.pro), f.nonce) in s0.orders.base
      && SeqKey(Pair(f.user, f.pro), f.nonce, f.seqNum) in s0.orders.seqs
    case SegmentProof(p) => SameStored(s.orders, s0.orders, Pair(p.user, p.pro), p.epoch)
    case ConfirmPostIncome(e, i, _) => SameConfirmation(s0, s, ProEpoch(i.pro, e))
    case _ => true
  }

  /** A message that apply would accept is accepted by validation, at any point of a block at which it
      finds its records steady. */
  lemma Welcome(c: Crypto, s0: State, v: Val, s: State, from: nat, body: Payload)
    requires Sim(s0, v, s) && ConfirmsOk(c, s) && s.slot <= v.slot && Step(c, s, from, body).Ok?
    requires Steady(s0, v, s, from, body)
    ensures Can(c, s0, v, from, body).1
  {
    match body
    case AddRole(role) => RoleWelcome(s0, v, s, from, role);
    case CreateFs(vk) => FsWelcome(s0, v, s, from, vk);
    case CreateBucket(b, n) => BucketWelcome(s0, v, s, from, b, n);
    case AddMeta(b) => MetaWelcome(s0, v, s, from, b);
    case PreDataOrder(o) => OrderWelcome(c, s0, v, s, from, o);
    case AddDataOrder(q) => SequenceWelcome(c, s0, v, s, from, q);
    case CommitDataOrder(u, p, n, q) => CommitWelcome(s0, v, s, from, u, p, n, q);
    case SubDataOrder(u, p, n) => SubWelcome(s0, v, s, from, u, p, n);
    case SegmentFault(f) => FaultWelcome(c, s0, v, s, from, f);
    case UpdateChalEpoch(p) => EpochWelcome(c, s0, v, s, p);
    case SegmentProof(p) => ProofWelcome(c, s0, v, s, from, p);
    case ConfirmPostIncome(e, i, g) => ConfirmWelcome(c, s0, v, s, from, e, i, g);
    case UpdateNet(_) =>
    case Malformed(_) =>
  }

  // ---- The first message of a block ----

  /** In every reachable state and for every header that fits: a message with the right nonce that apply
      would accept is accepted by validation, but for a second CreateFs and for an order that the dates
      of its predecessor, as stored, forbid. */
  lemma FirstWelcome(c: Crypto, s: State, header: Header, m: Message)
    requires Reachable(c, s) && ValidateHeader(c, s, Reset(s), header).Ok? && m.nonce == NonceOf(s.roles, m.from)
    requires Step(c, Charge(c, Opened(c, s, header), m), m.from, m.body).Ok?
    ensures ValidateMsg(c, s, ValidateHeader(c, s, Reset(s), header).value, m).1 <==>
            && (m.body.CreateFs? ==> m.from !in s.fs.verifyKey)
            && (m.body.PreDataOrder? ==>
                  DatesAllow(LoadDates(s.orders, Pair(m.body.order.ob.user, m.body.order.ob.pro)), m.body.order))
  {
    var v, h := ValidateHeader(c, s, Reset(s), header).value, Opened(c, s, header);
    FirstReady(c, s, v, h, header, m);
    FirstVerdict(c, s, Admit(c, s, v, m).value, Charge(c, h, m), m.from, m.body);
  }

  lemma FirstReady(c: Crypto, s: State, v: Val, h: State, header: Header, m: Message)
    requires Reachable(c, s) && ValidateHeader(c, s, Reset(s), header) == Ok(v) && h == Opened(c, s, header)
    requires m.nonce == NonceOf(s.roles, m.from)
    ensures Admit(c, s, v, m).Some?
    ensures var w, t := Admit(c, s, v, m).value, Charge(c, h, m);
            && Sim(s, w, t) && ConfirmsOk(c, t) && t.slot <= w.slot && w.users == map[] && w.orders == map[]
            && t.fs == s.fs && t.orders == s.orders && t.pay == s.pay && t.ce == s.ce
  {
    OpenedReady(c, s, v, h, header);
    AdmitAgrees(c, s, v, h, m);
    ChargedConfirms(c, h, m);
  }

  lemma FirstVerdict(c: Crypto, s: State, w: Val, t: State, from: nat, body: Payload)
    requires Sim(s, w, t) && ConfirmsOk(c, t) && t.slot <= w.slot && w.users == map[] && w.orders == map[]
    requires t.fs == s.fs && t.orders == s.orders && t.pay == s.pay && t.ce == s.ce && Step(c, t, from, body).Ok?
    ensures Can(c, s, w, from, body).1 <==>
            && (body.CreateFs? ==> from !in s.fs.verifyKey)
            && (body.PreDataOrder? ==>
                  DatesAllow(LoadDates(s.orders, Pair(body.order.ob.user, body.order.ob.pro)), body.order))
  {
    match body
    case CreateFs(vk) => FsWelcome(s, w, t, from, vk);
    case PreDataOrder(o) => OrderWelcome(c, s, w, t, from, o);
    case _ =>
      FirstSteady(c, s, w, t, from, body);
      Welcome(c, s, w, t, from, body);
  }

  /** Before anything is applied all records are steady. */
  lemma FirstSteady(c: Crypto, s: State, v: Val, t: State, from: nat, body: Payload)
    requires v.users == map[] && t.fs == s.fs && t.orders == s.orders && t.pay == s.pay && t.ce == s.ce
    requires Step(c, t, from, body).Ok?
    ensures body.CreateFs? || body.PreDataOrder? || Steady(s, v, t, from, body)
  {
    match body
    case AddDataOrder(q) => FreshMarks(s, q.data.user, q.data.pro);
    case SubDataOrder(u, p, n) => SubNeeds(t, from, u, p, n);
    case SegmentFault(f) => FaultNeeds(c, t, from, f);
    case SegmentProof(p) => StoredAsIs(s.orders, Pair(p.user, p.pro), p.epoch);
    case ConfirmPostIncome(e, i, g) => ConfirmedAsIs(s, t, ProEpoch(i.pro, e));
    case _ =>
  }

  lemma StoredAsIs(o: OrderDb, k: Pair, epoch: nat)
    ensures SameStored(o, o, k, epoch)
  {
  }

  lemma ConfirmedAsIs(s: State, t: State, key: ProEpoch)
    requires t.pay == s.pay
    ensures SameConfirmation(s, t, key)
  {
  }

  lemma SubNeeds(s: State, from: nat, user: nat, pro: nat, nonce: nat)
    requires ApplySub(s, from, user, pro, nonce).Ok?
    ensures var key := OrderKey(Pair(user, pro), nonce);
            key in s.orders.base && s.orders.base[key].order.ob.end <= SlotTime(s.ce.previous.slot)
  {
  }

  // ---- Later messages ----

  /** What the scratch records say is marked for a pair in a bucket. */
  function ScratchMarks(fs0: FsDb, users: map<nat, UserInfo>, u: nat, b: nat, p: nat): Option<set<nat>>
  {
    match VUser(fs0, users, u)
    case None => None
    case Some(w) => Some(StripesOf(fs0, u, b, BucketOf(fs0, u, w, b), p))
  }

  lemma SameScratch(fs0: FsDb, users: map<nat, UserInfo>, fs: FsDb, users': map<nat, UserInfo>, fs': FsDb,
                    u: nat, p: nat)
    requires SameMarks(fs0, users, fs, u, p)
    requires forall b: nat :: ScratchMarks(fs0, users', u, b, p) == ScratchMarks(fs0, users, u, b, p)
    requires forall b: nat :: BitsOf(fs', u, b, p) == BitsOf(fs, u, b, p)
    ensures SameMarks(fs0, users', fs', u, p)
  {
    var w, w' := VUser(fs0, users, u), VUser(fs0, users', u);
    assert ScratchMarks(fs0, users', u, 0, p) == ScratchMarks(fs0, users, u, 0, p);
    if w'.Some? {
      forall b: nat ensures SameBucketMarks(fs0, w'.value, fs', u, b, p) {
        assert SameBucketMarks(fs0, w.value, fs, u, b, p);
        assert ScratchMarks(fs0, users', u, b, p) == ScratchMarks(fs0, users, u, b, p);
      }
    }
  }

  /** Segments of one pair do not mark stripes of another, whatever the verdict. */
  lemma ChunkLeaves(fs0: FsDb, users: map<nat, UserInfo>, user: nat, pro: nat, nonce: nat, seg: AggSegs, u: nat,
                    b: nat, p: nat)
    requires u != user || p != pro
    ensures ScratchMarks(fs0, CanAddChunk(fs0, users, user, pro, nonce, seg).0, u, b, p)
            == ScratchMarks(fs0, users, u, b, p)
  {
  }

  lemma {:induction false} ChunksLeave(fs0: FsDb, users: map<nat, UserInfo>, user: nat, pro: nat, nonce: nat,
                                       segs: seq<AggSegs>, u: nat, b: nat, p: nat)
    requires u != user || p != pro
    ensures ScratchMarks(fs0, CanAddChunks(fs0, users, user, pro, nonce, segs).0, u, b, p)
            == ScratchMarks(fs0, users, u, b, p)
  {
    if segs != [] {
      var init, last := segs[..|segs| - 1], segs[|segs| - 1];
      ChunksLeave(fs0, users, user, pro, nonce, init, u, b, p);
      ChunkLeaves(fs0, CanAddChunks(fs0, users, user, pro, nonce, init).0, user, pro, nonce, last, u, b, p);
    }
  }

  lemma SameUsersMarks(fs0: FsDb, users: map<nat, UserInfo>, fs: FsDb, users': map<nat, UserInfo>, u: nat, p: nat)
    requires SameMarks(fs0, users, fs, u, p) && VUser(fs0, users', u) == VUser(fs0, users, u)
    ensures SameMarks(fs0, users', fs, u, p)
  {
  }

  lemma FsMarks(s0: State, v: Val, s: State, from: nat, vk: nat, u: nat, p: nat)
    requires Sim(s0, v, s) && UsersOk(s0) && SameMarks(s0.fs, v.users, s.fs, u, p)
    requires CanCreateFs(s0, v, from, vk).1 && ApplyCreateFs(s, from, vk).Ok?
    ensures SameMarks(s0.fs, CanCreateFs(s0, v, from, vk).0.users, ApplyCreateFs(s, from, vk).value.fs, u, p)
  {
    var users', fs' := CanCreateFs(s0, v, from, vk).0.users, ApplyCreateFs(s, from, vk).value.fs;
    assert UserSim(s0.fs, v.users, s.fs, from);
    if VUser(s0.fs, users', u).Some? {
      forall b: nat ensures SameBucketMarks(s0.fs, VUser(s0.fs, users', u).value, fs', u, b, p) {
        if u != from { assert SameBucketMarks(s0.fs, VUser(s0.fs, v.users, u).value, s.fs, u, b, p); }
      }
    }
  }

  /** Buckets are never taken back. */
  ghost predicate NextGrows(fs: FsDb, fs': FsDb)
  {
    forall u: nat :: NextBucket(fs, u) <= NextBucket(fs', u)
  }

  lemma BucketMarks(s0: State, v: Val, s: State, from: nat, bucket: nat, chunks: nat, u: nat, p: nat)
    requires Sim(s0, v, s) && UsersOk(s0) && NextGrows(s0.fs, s.fs) && SameMarks(s0.fs, v.users, s.fs, u, p)
    requires CanCreateBucket(s0, v, from, bucket, chunks).1 && ApplyCreateBucket(s, from, bucket, chunks).Ok?
    ensures SameMarks(s0.fs, CanCreateBucket(s0, v, from, bucket, chunks).0.users,
                      ApplyCreateBucket(s, from, bucket, chunks).value.fs, u, p)
  {
    var users' := CanCreateBucket(s0, v, from, bucket, chunks).0.users;
    var fs' := ApplyCreateBucket(s, from, bucket, chunks).value.fs;
    assert UserSim(s0.fs, v.users, s.fs, from);
    if u == from {
      NewBucketMarks(s0, s, VUser(s0.fs, v.users, u).value, users'[u], fs', u, bucket, chunks, p);
    } else {
      assert VUser(s0.fs, users', u) == VUser(s0.fs, v.users, u);
      OthersMarks(s0.fs, v.users, s.fs, users', fs', u, p);
    }
  }

  lemma OthersMarks(fs0: FsDb, users: map<nat, UserInfo>, fs: FsDb, users': map<nat, UserInfo>, fs': FsDb,
                    u: nat, p: nat)
    requires SameMarks(fs0, users, fs, u, p) && VUser(fs0, users', u) == VUser(fs0, users, u) && fs'.bits == fs.bits
    ensures SameMarks(fs0, users', fs', u, p)
  {
    var w := VUser(fs0, users, u);
    if w.Some? {
      forall b: nat ensures SameBucketMarks(fs0, w.value, fs', u, b, p) {
        assert SameBucketMarks(fs0, w.value, fs, u, b, p);
      }
    }
  }

  lemma NewBucketMarks(s0: State, s: State, w: UserInfo, w': UserInfo, fs': FsDb, u: nat, bucket: nat,
                       chunks: nat, p: nat)
    requires UsersOk(s0) && UsersOk(s) && NextGrows(s0.fs, s.fs)
    requires fs'.bits == s.fs.bits && NextBucket(s.fs, u) <= bucket
    requires forall b: nat :: SameBucketMarks(s0.fs, w, s.fs, u, b, p)
    requires w' == w.(buckets := w.buckets[bucket := NewBucket(chunks)], next := w'.next)
    ensures forall b: nat :: SameBucketMarks(s0.fs, w', fs', u, b, p)
  {
    assert NextBucket(s0.fs, u) <= NextBucket(s.fs, u);
    forall b: nat ensures SameBucketMarks(s0.fs, w', fs', u, b, p) { assert SameBucketMarks(s0.fs, w, s.fs, u, b, p); }
  }

  /** Accepted and applied segments, of this pair or another. */
  lemma SequenceMarks(c: Crypto, s0: State, v: Val, s: State, from: nat, q: SignedSeq, u: nat, p: nat)
    requires Sim(s0, v, s) && SameMarks(s0.fs, v.users, s.fs, u, p) && CanAddSeq(c, s0, v, from, q).1
    requires ApplyAddSeq(c, s, from, q).Ok?
    ensures SameMarks(s0.fs, CanAddSeq(c, s0, v, from, q).0.users, ApplyAddSeq(c, s, from, q).value.fs, u, p)
  {
    var d := q.data;
    CanAddSeqEffect(c, s0, v, from, q, CanAddSeq(c, s0, v, from, q).0);
    AppliedSegments(c, s, from, q);
    var users', fs' := CanAddChunks(s0.fs, v.users, d.user, d.pro, d.nonce, d.segments).0,
      ApplyAddChunks(s.fs, d.user, d.pro, d.nonce, d.segments).value;
    if u == d.user && p == d.pro {
      ChunksWelcome(s0.fs, v.users, s.fs, d.user, d.pro, d.nonce, d.segments);
    } else {
      OtherSegments(s0.fs, v.users, s.fs, d.user, d.pro, d.nonce, d.segments, u, p);
    }
  }

  lemma AppliedSegments(c: Crypto, s: State, from: nat, q: SignedSeq)
    requires ApplyAddSeq(c, s, from, q).Ok?
    ensures ApplyAddChunks(s.fs, q.data.user, q.data.pro, q.data.nonce, q.data.segments)
            == Ok(ApplyAddSeq(c, s, from, q).value.fs)
  {
  }

  lemma OtherSegments(fs0: FsDb, users: map<nat, UserInfo>, fs: FsDb, user: nat, pro: nat, nonce: nat,
                      segs: seq<AggSegs>, u: nat, p: nat)
    requires SameMarks(fs0, users, fs, u, p) && (u != user || p != pro)
    requires ApplyAddChunks(fs, user, pro, nonce, segs).Ok?
    ensures SameMarks(fs0, CanAddChunks(fs0, users, user, pro, nonce, segs).0,
                      ApplyAddChunks(fs, user, pro, nonce, segs).value, u, p)
  {
    forall b: nat
      ensures ScratchMarks(fs0, CanAddChunks(fs0, users, user, pro, nonce, segs).0, u, b, p)
              == ScratchMarks(fs0, users, u, b, p)
      ensures BitsOf(ApplyAddChunks(fs, user, pro, nonce, segs).value, u, b, p) == BitsOf(fs, u, b, p)
    {
      ChunksLeave(fs0, users, user, pro, nonce, segs, u, b, p);
      AddChunksMark(fs, user, pro, nonce, segs, ApplyAddChunks(fs, user, pro, nonce, segs).value, u, b, p);
    }
    SameScratch(fs0, users, fs, CanAddChunks(fs0, users, user, pro, nonce, segs).0,
                ApplyAddChunks(fs, user, pro, nonce, segs).value, u, p);
  }

  /** Rejected segments of another pair. */
  lemma RejectedMarks(c: Crypto, s0: State, v: Val, s: State, from: nat, q: SignedSeq, u: nat, p: nat)
    requires SameMarks(s0.fs, v.users, s.fs, u, p) && !CanAddSeq(c, s0, v, from, q).1
    requires u != q.data.user || p != q.data.pro
    ensures SameMarks(s0.fs, CanAddSeq(c, s0, v, from, q).0.users, s.fs, u, p)
  {
    var d := q.data;
    var w := CanAddSeq(c, s0, v, from, q).0;
    RejectedSeqEffect(c, s0, v, from, q, w);
    if w.users != v.users {
      forall b: nat ensures ScratchMarks(s0.fs, w.users, u, b, p) == ScratchMarks(s0.fs, v.users, u, b, p) {
        ChunksLeave(s0.fs, v.users, d.user, d.pro, d.nonce, d.segments, u, b, p);
      }
      SameScratch(s0.fs, v.users, s.fs, w.users, s.fs, u, p);
    }
  }

  /** An accepted message that is applied leaves the marks of every pair the same. */
  lemma AcceptedMarks(c: Crypto, s0: State, v: Val, s: State, from: nat, body: Payload, u: nat, p: nat)
    requires Sim(s0, v, s) && UsersOk(s0) && NextGrows(s0.fs, s.fs) && SameMarks(s0.fs, v.users, s.fs, u, p)
    requires Can(c, s0, v, from, body).1 && Step(c, s, from, body).Ok?
    ensures SameMarks(s0.fs, Can(c, s0, v, from, body).0.users, Step(c, s, from, body).value.fs, u, p)
  {
    match body
    case CreateFs(vk) => FsMarks(s0, v, s, from, vk, u, p);
    case CreateBucket(b, n) => BucketMarks(s0, v, s, from, b, n, u, p);
    case AddDataOrder(q) => SequenceMarks(c, s0, v, s, from, q, u, p);
    case Malformed(_) =>
    case _ => QuietMarks(c, s0, v, s, from, body, u, p);
  }

  /** Methods that have nothing to do with segments. */
  lemma QuietMarks(c: Crypto, s0: State, v: Val, s: State, from: nat, body: Payload, u: nat, p: nat)
    requires !body.CreateFs? && !body.CreateBucket? && !body.AddDataOrder? && !body.Malformed?
    requires SameMarks(s0.fs, v.users, s.fs, u, p) && Step(c, s, from, body).Ok?
    ensures SameMarks(s0.fs, Can(c, s0, v, from, body).0.users, Step(c, s, from, body).value.fs, u, p)
  {
    SameFs(c, s, from, body);
    ScratchStays(c, s0, v, from, body, u);
    SameUsersMarks(s0.fs, v.users, s.fs, Can(c, s0, v, from, body).0.users, u, p);
  }

  lemma SameFs(c: Crypto, s: State, from: nat, body: Payload)
    requires !body.CreateFs? && !body.CreateBucket? && !body.AddDataOrder? && Step(c, s, from, body).Ok?
    ensures Step(c, s, from, body).value.fs == s.fs
  {
    match body
    case Malformed(_) =>
    case _ =>
  }

  lemma ScratchStays(c: Crypto, s0: State, v: Val, from: nat, body: Payload, u: nat)
    requires !body.CreateFs? && !body.CreateBucket? && !body.AddDataOrder?
    ensures VUser(s0.fs, Can(c, s0, v, from, body).0.users, u) == VUser(s0.fs, v.users, u)
  {
    match body
    case AddMeta(b) =>
    case _ =>
  }

  lemma RejectedStays(c: Crypto, s0: State, v: Val, from: nat, body: Payload, u: nat)
    requires !body.AddDataOrder? && !Can(c, s0, v, from, body).1
    ensures VUser(s0.fs, Can(c, s0, v, from, body).0.users, u) == VUser(s0.fs, v.users, u)
  {
    match body
    case CreateFs(vk) =>
    case CreateBucket(b, n) =>
    case _ => ScratchStays(c, s0, v, from, body, u);
  }

  lemma NextStep(c: Crypto, s: State, from: nat, body: Payload)
    requires UsersOk(s) && Step(c, s, from, body).Ok?
    ensures NextGrows(s.fs, Step(c, s, from, body).value.fs)
  {
    match body
    case AddDataOrder(q) =>
      AppliedSegments(c, s, from, q);
      ChunksKeepUsers(s.fs, q.data.user, q.data.pro, q.data.nonce, q.data.segments, Step(c, s, from, body).value.fs);
    case CreateFs(_) =>
    case CreateBucket(_, _) =>
    case _ => SameFs(c, s, from, body);
  }

  /** The message is a rejected sequence of the pair. */
  predicate LeavesMarks(body: Payload, rejected: bool, u: nat, p: nat)
  {
    rejected && body.AddDataOrder? && body.sseq.data.user == u && body.sseq.data.pro == p
  }

  lemma JudgedMarks(c: Crypto, s0: State, v: Val, s: State, from: nat, body: Payload, u: nat, p: nat)
    requires SameMarks(s0.fs, v.users, s.fs, u, p) && !Can(c, s0, v, from, body).1 && !LeavesMarks(body, true, u, p)
    ensures SameMarks(s0.fs, Can(c, s0, v, from, body).0.users, s.fs, u, p)
  {
    if body.AddDataOrder? {
      RejectedMarks(c, s0, v, s, from, body.sseq, u, p);
    } else {
      RejectedStays(c, s0, v, from, body, u);
      SameUsersMarks(s0.fs, v.users, s.fs, Can(c, s0, v, from, body).0.users, u, p);
    }
  }

  lemma PassedMarks(c: Crypto, s0: State, v: Val, s: State, from: nat, body: Payload, u: nat, p: nat)
    requires Sim(s0, v, s) && UsersOk(s0) && NextGrows(s0.fs, s.fs) && SameMarks(s0.fs, v.users, s.fs, u, p)
    requires Can(c, s0, v, from, body).1 && Step(c, s, from, body).Ok?
    ensures SameMarks(s0.fs, Can(c, s0, v, from, body).0.users, Step(c, s, from, body).value.fs, u, p)
    ensures NextGrows(s0.fs, Step(c, s, from, body).value.fs)
  {
    AcceptedMarks(c, s0, v, s, from, body, u, p);
    NextStep(c, s, from, body);
  }

  lemma MessageMarks(c: Crypto, s0: State, v: Val, s: State, m: Message, u: nat, p: nat, t: State)
    requires Sim(s0, v, s) && UsersOk(s0) && NextGrows(s0.fs, s.fs) && SameMarks(s0.fs, v.users, s.fs, u, p)
    requires m.nonce == NonceOf(s.roles, m.from) && !LeavesMarks(m.body, !ValidateMsg(c, s0, v, m).1, u, p)
    requires ApplyMsg(c, s, m, !ValidateMsg(c, s0, v, m).1) == Ok(t)
    ensures SameMarks(s0.fs, ValidateMsg(c, s0, v, m).0.users, t.fs, u, p) && NextGrows(s0.fs, t.fs)
  {
    AdmitAgrees(c, s0, v, s, m);
    var v1, s1 := Admit(c, s0, v, m).value, Charge(c, s, m);
    if ValidateMsg(c, s0, v, m).1 {
      PassedMarks(c, s0, v1, s1, m.from, m.body, u, p);
    } else {
      JudgedMarks(c, s0, v1, s1, m.from, m.body, u, p);
    }
  }

  /** No sequence of the pair has been rejected. */
  ghost predicate NoneRejected(msgs: seq<Message>, receipts: seq<bool>, u: nat, p: nat)
    requires |msgs| <= |receipts|
  {
    forall i | 0 <= i < |msgs| :: !LeavesMarks(msgs[i].body, receipts[i], u, p)
  }

  /** As long as no sequence of a pair is rejected, its scratch marks are the applied ones. */
  lemma {:induction false} MarksStay(c: Crypto, s0: State, v: Val, s: State, msgs: seq<Message>, u: nat, p: nat,
                                     t: State)
    requires Sim(s0, v, s) && UsersOk(s0) && Inv(c, s) && Gapless(s.roles, msgs)
    requires NextGrows(s0.fs, s.fs) && SameMarks(s0.fs, v.users, s.fs, u, p)
    requires ApplyMsgs(c, s, msgs, ValidateMsgs(c, s0, v, msgs).1) == Ok(t)
    requires NoneRejected(msgs, ValidateMsgs(c, s0, v, msgs).1, u, p)
    ensures SameMarks(s0.fs, ValidateMsgs(c, s0, v, msgs).0.users, t.fs, u, p) && NextGrows(s0.fs, t.fs)
  {
    if msgs != [] {
      var n := |msgs| - 1;
      var (v1, flags) := ValidateMsgs(c, s0, v, msgs[..n]);
      GaplessPrefix(s.roles, msgs, n);
      FlagAt(c, s0, v, msgs, n);
      LastTurn(c, s, msgs, flags, !ValidateMsg(c, s0, v1, msgs[n]).1);
      var before := ApplyMsgs(c, s, msgs[..n], flags).value;
      assert NoneRejected(msgs[..n], flags, u, p);
      MarksStay(c, s0, v, s, msgs[..n], u, p, before);
      MessagesAgree(c, s0, v, s, msgs[..n]);
      LastReady(c, s, msgs, flags, before);
      MessageMarks(c, s0, v1, before, msgs[n], u, p, t);
    }
  }

  /** What the messages before it in the block must have left alone. */
  ghost predicate LeftAlone(s: State, msgs: seq<Message>, receipts: seq<bool>, w: Val, t: State, from: nat,
                            body: Payload)
    requires |msgs| <= |receipts|
  {
    match body
    case AddDataOrder(q) => NoneRejected(msgs, receipts, q.data.user, q.data.pro)
    case SegmentProof(p) => Undisturbed(msgs, receipts, Pair(p.user, p.pro))
    case _ => Steady(s, w, t, from, body)
  }

  /** At any point of a block that agrees with validation so far: a message with the right nonce that
      apply would accept is accepted by validation, if the messages before it left its records alone. */
  lemma LaterWelcome(c: Crypto, s: State, header: Header, msgs: seq<Message>, t: State, m: Message)
    requires Reachable(c, s) && ValidateHeader(c, s, Reset(s), header).Ok? && Gapless(s.roles, msgs)
    requires var v := ValidateHeader(c, s, Reset(s), header).value;
             var (w, flags) := ValidateMsgs(c, s, v, msgs);
             && ApplyMsgs(c, Opened(c, s, header), msgs, flags) == Ok(t)
             && LeftAlone(s, msgs, flags, w, t, m.from, m.body)
    requires m.nonce == NonceOf(t.roles, m.from) && Step(c, Charge(c, t, m), m.from, m.body).Ok?
    ensures ValidateMsg(c, s, ValidateMsgs(c, s, ValidateHeader(c, s, Reset(s), header).value, msgs).0, m).1
  {
    LaterReady(c, s, header, msgs, t, m.from, m.body);
    WelcomeNow(c, s, ValidateMsgs(c, s, ValidateHeader(c, s, Reset(s), header).value, msgs).0, t, m);
  }

  lemma LaterReady(c: Crypto, s: State, header: Header, msgs: seq<Message>, t: State, from: nat, body: Payload)
    requires Reachable(c, s) && ValidateHeader(c, s, Reset(s), header).Ok? && Gapless(s.roles, msgs)
    requires var v := ValidateHeader(c, s, Reset(s), header).value;
             var (w, flags) := ValidateMsgs(c, s, v, msgs);
             ApplyMsgs(c, Opened(c, s, header), msgs, flags) == Ok(t) && LeftAlone(s, msgs, flags, w, t, from, body)
    ensures var w := ValidateMsgs(c, s, ValidateHeader(c, s, Reset(s), header).value, msgs).0;
            Sim(s, w, t) && ConfirmsOk(c, t) && t.slot <= w.slot && Steady(s, w, t, from, body)
  {
    var v, h := ValidateHeader(c, s, Reset(s), header).value, Opened(c, s, header);
    OpenedReady(c, s, v, h, header);
    AppliedReady(c, s, v, h, msgs, t);
    StillSteady(c, s, v, h, msgs, t, from, body);
  }

  lemma AppliedReady(c: Crypto, s: State, v: Val, h: State, msgs: seq<Message>, t: State)
    requires Sim(s, v, h) && UsersOk(s) && Inv(c, h) && Gapless(h.roles, msgs) && s.slot <= v.slot
    requires ApplyMsgs(c, h, msgs, ValidateMsgs(c, s, v, msgs).1) == Ok(t)
    ensures var w := ValidateMsgs(c, s, v, msgs).0; Sim(s, w, t) && ConfirmsOk(c, t) && t.slot <= w.slot
  {
    MessagesAgree(c, s, v, h, msgs);
    MsgsKeep(c, h, msgs, ValidateMsgs(c, s, v, msgs).1, t);
    SlotStays(c, s, v, msgs);
  }

  lemma WelcomeNow(c: Crypto, s0: State, w: Val, t: State, m: Message)
    requires Sim(s0, w, t) && ConfirmsOk(c, t) && t.slot <= w.slot && Steady(s0, w, t, m.from, m.body)
    requires m.nonce == NonceOf(t.roles, m.from) && Step(c, Charge(c, t, m), m.from, m.body).Ok?
    ensures ValidateMsg(c, s0, w, m).1
  {
    AdmitAgrees(c, s0, w, t, m);
    ChargedConfirms(c, t, m);
    ChargedSteady(c, s0, w, t, m);
    Welcome(c, s0, Admit(c, s0, w, m).value, Charge(c, t, m), m.from, m.body);
  }

  lemma ChargedSteady(c: Crypto, s0: State, w: Val, t: State, m: Message)
    requires Steady(s0, w, t, m.from, m.body) && Admit(c, s0, w, m).Some?
    ensures Steady(s0, Admit(c, s0, w, m).value, Charge(c, t, m), m.from, m.body)
  {
  }

  lemma {:induction false} SlotStays(c: Crypto, s: State, v: Val, msgs: seq<Message>)
    ensures ValidateMsgs(c, s, v, msgs).0.slot == v.slot
  {
    if msgs != [] {
      var w := ValidateMsgs(c, s, v, msgs[..|msgs| - 1]).0;
      SlotStays(c, s, v, msgs[..|msgs| - 1]);
      OneSlotStays(c, s, w, msgs[|msgs| - 1]);
    }
  }

  lemma OneSlotStays(c: Crypto, s: State, v: Val, m: Message)
    ensures ValidateMsg(c, s, v, m).0.slot == v.slot
  {
    if Admit(c, s, v, m).Some? { CanKeepsSlot(c, s, Admit(c, s, v, m).value, m.from, m.body); }
  }

  lemma CanKeepsSlot(c: Crypto, s: State, v: Val, from: nat, body: Payload)
    ensures Can(c, s, v, from, body).0.slot == v.slot
  {
    match body
    case AddDataOrder(q) =>
    case _ =>
  }

  lemma StillSteady(c: Crypto, s: State, v: Val, h: State, msgs: seq<Message>, t: State, from: nat, body: Payload)
    requires Sim(s, v, h) && UsersOk(s) && Inv(c, h) && Gapless(h.roles, msgs) && v.users == map[]
    requires h.fs == s.fs && h.orders == s.orders
    requires ApplyMsgs(c, h, msgs, ValidateMsgs(c, s, v, msgs).1) == Ok(t)
    requires LeftAlone(s, msgs, ValidateMsgs(c, s, v, msgs).1, ValidateMsgs(c, s, v, msgs).0, t, from, body)
    ensures Steady(s, ValidateMsgs(c, s, v, msgs).0, t, from, body)
  {
    match body
    case AddDataOrder(q) =>
      FreshMarks(s, q.data.user, q.data.pro);
      MarksStay(c, s, v, h, msgs, q.data.user, q.data.pro, t);
    case SegmentProof(p) =>
      MsgsKeepStored(c, h, msgs, ValidateMsgs(c, s, v, msgs).1, t, Pair(p.user, p.pro), p.epoch);
      StoredBack(s.orders, t.orders, Pair(p.user, p.pro), p.epoch);
    case _ =>
  }

  lemma FreshMarks(s: State, u: nat, p: nat)
    ensures SameMarks(s.fs, map[], s.fs, u, p) && NextGrows(s.fs, s.fs)
  {
    if u in s.fs.verifyKey {
      forall b: nat ensures SameBucketMarks(s.fs, LoadUser(s.fs, u).value, s.fs, u, b, p) { }
    }
  }

  lemma StoredBack(o: OrderDb, o': OrderDb, k: Pair, epoch: nat)
    requires SameStored(o, o', k, epoch)
    ensures SameStored(o', o, k, epoch)
  {
  }
}
