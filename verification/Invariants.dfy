/** All invariants together, over every run of blocks and restarts, and what follows for every
    reachable state. */
module Invariants {
  import opened Types
  import opened Chain
  import opened OrderBook
  import opened Epochs
  import opened Growth
  import opened Earnings
  import opened Sums
  import opened Ledger
  import opened Confirmations
  import opened Stripes
  import opened Challenges
  import opened Quorum

  /** File systems belong to registered users; only they have sequences, and buckets and marks only
      below their next bucket. */
  ghost predicate UsersOk(s: State)
  {
    && (forall u | u in s.fs.next :: u in s.fs.verifyKey)
    && (forall key | key in s.orders.seqs :: key.pair.user in s.fs.verifyKey)
    && (forall u | u in s.fs.verifyKey :: MayOwnFs(Find(s.roles.base, u), s.fs.verifyKey[u]))
    && (forall b | b in s.fs.buckets :: b.bucket < NextBucket(s.fs, b.user))
    && (forall b | b in s.fs.bits :: b.bucket < NextBucket(s.fs, b.user))
  }

  lemma {:induction false} ChunksKeepUsers(fs: FsDb, user: nat, pro: nat, nonce: nat, segs: seq<AggSegs>, fs': FsDb)
    requires ApplyAddChunks(fs, user, pro, nonce, segs) == Ok(fs')
    ensures fs'.verifyKey == fs.verifyKey && fs'.next == fs.next && fs'.buckets == fs.buckets
    ensures forall b | b in fs'.bits :: b in fs.bits || b.bucket < NextBucket(fs, b.user)
  {
    if segs != [] {
      ChunksKeepUsers(fs, user, pro, nonce, segs[..|segs| - 1],
                      ApplyAddChunks(fs, user, pro, nonce, segs[..|segs| - 1]).value);
    }
  }

  lemma NewSeqKeepsUsers(s: State, t: State, user: nat, pro: nat, nonce: nat, segs: seq<AggSegs>)
    requires UsersOk(s) && user in s.fs.verifyKey
    requires ApplyAddChunks(s.fs, user, pro, nonce, segs) == Ok(t.fs) && t.roles == s.roles
    requires forall key | key in t.orders.seqs :: key in s.orders.seqs || key.pair.user == user
    ensures UsersOk(t)
  {
    ChunksKeepUsers(s.fs, user, pro, nonce, segs, t.fs);
  }

  lemma AddSeqKeepsUsers(c: Crypto, s: State, from: nat, q: SignedSeq, t: State)
    requires UsersOk(s) && ApplyAddSeq(c, s, from, q) == Ok(t)
    ensures UsersOk(t)
  {
    NewSeqKeepsUsers(s, t, q.data.user, q.data.pro, q.data.nonce, q.data.segments);
  }

  lemma SameUsers(s: State, t: State)
    requires UsersOk(s) && t.fs == s.fs && t.roles == s.roles
    requires forall key | key in t.orders.seqs :: key in s.orders.seqs
    ensures UsersOk(t)
  {
  }

  lemma NewBucketKeepsUsers(s: State, from: nat, bucket: nat, chunks: nat, t: State)
    requires UsersOk(s) && ApplyCreateBucket(s, from, bucket, chunks) == Ok(t)
    ensures UsersOk(t)
  {
  }

  lemma NewRoleKeepsUsers(s: State, from: nat, role: RoleBase, t: State)
    requires UsersOk(s) && ApplyAddRole(s, from, role) == Ok(t)
    ensures UsersOk(t)
  {
  }

  lemma NewFsKeepsUsers(s: State, from: nat, verifyKey: nat, t: State)
    requires UsersOk(s) && ApplyCreateFs(s, from, verifyKey) == Ok(t)
    ensures UsersOk(t)
  {
  }

  lemma UsersStep(c: Crypto, s: State, from: nat, body: Payload, t: State)
    requires UsersOk(s) && Step(c, s, from, body) == Ok(t)
    ensures UsersOk(t)
  {
    match body
    case AddDataOrder(q) => AddSeqKeepsUsers(c, s, from, q, t);
    case AddRole(role) => NewRoleKeepsUsers(s, from, role, t);
    case CreateFs(vk) => NewFsKeepsUsers(s, from, vk, t);
    case CreateBucket(b, n) => NewBucketKeepsUsers(s, from, b, n, t);
    case Malformed(_) =>
    case _ => SameUsers(s, t);
  }

  ghost predicate Inv(c: Crypto, s: State)
  {
    && ClockOk(s)
    && OrdersOk(s.orders)
    && EarningsOk(s)
    && LedgerOk(s.pay, s.ce.current.epoch)
    && ConfirmsOk(c, s)
    && StripesOk(s)
    && SubsOk(s)
    && KeepersOk(s)
    && UsersOk(s)
  }

  lemma InvGenesis(c: Crypto, id: nat, threshold: nat)
    ensures Inv(c, Genesis(id, threshold))
  {
    var s := Genesis(id, threshold);
    GenesisLedger(id, threshold);
    forall k: Pair ensures SizeOk(s, k) {
      assert PairBits(s.fs, k) == map[] && BitCount(s.fs, k) == 0;
      assert SizeBelow(s.orders, k, 0) == 0;
    }
    forall k: Pair ensures PairPaid(s, k) && PairOk(s.orders, k) { }
  }

  lemma InvStep(c: Crypto, s: State, from: nat, body: Payload, t: State)
    requires Inv(c, s) && Step(c, s, from, body) == Ok(t)
    ensures Inv(c, t)
  {
    ClockStep(c, s, from, body, t);
    OrdersStep(c, s, from, body, t);
    EarningsStep(c, s, from, body, t);
    LedgerStep(c, s, from, body, t);
    ConfirmsStep(c, s, from, body, t);
    StripesStep(c, s, from, body, t);
    SubsStep(c, s, from, body, t);
    KeepersStep(c, s, from, body, t);
    UsersStep(c, s, from, body, t);
  }

  /** Height, slot, nonces, roots and remembered dates are not what the invariants speak about. */
  lemma InvFrame(c: Crypto, s: State, t: State)
    requires Inv(c, s) && t.orders == s.orders && t.pay == s.pay && t.fs == s.fs && t.ce == s.ce && t.slot >= s.slot
    requires t.roles.base == s.roles.base && t.roles.keepers == s.roles.keepers
    ensures Inv(c, t)
  {
    forall k: Pair ensures PairPaid(t, k) { assert PairPaid(s, k); }
    OtherKeepsConfirms(c, s, t);
    SameStripes(s, t);
    forall key: OrderKey | key.nonce < Ns(t.orders, key.pair).subNonce ensures Expired(t, key) {
      assert Expired(s, key);
    }
  }

  /** What a run never takes back. */
  ghost predicate Later(s: State, t: State)
  {
    && OrdersGrow(s.orders, t.orders)
    && s.ce.current.epoch <= t.ce.current.epoch
    && s.slot <= t.slot
    && (forall k: Pair :: Prove(s, k) <= Prove(t, k))
    && (forall key: ProEpoch | key.epoch < s.ce.current.epoch :: Find(t.pay.proAt, key) == Find(s.pay.proAt, key))
    && (forall key | key in s.pay.confirm :: SameRecord(s.pay, t.pay, key))
  }

  lemma SameLater(s: State, t: State)
    requires t.orders == s.orders && t.pay == s.pay && t.ce == s.ce && t.slot >= s.slot
    ensures Later(s, t)
  {
  }

  lemma LaterTransitive(a: State, b: State, d: State)
    requires Later(a, b) && Later(b, d)
    ensures Later(a, d)
  {
    GrowTransitive(a.orders, b.orders, d.orders);
    forall k: Pair ensures Prove(a, k) <= Prove(d, k) {
      assert Prove(a, k) <= Prove(b, k) && Prove(b, k) <= Prove(d, k);
    }
    forall key: ProEpoch | key.epoch < a.ce.current.epoch ensures Find(d.pay.proAt, key) == Find(a.pay.proAt, key) {
      assert Find(b.pay.proAt, key) == Find(a.pay.proAt, key);
    }
    forall key | key in a.pay.confirm ensures SameRecord(a.pay, d.pay, key) {
      assert SameRecord(a.pay, b.pay, key) && SameRecord(b.pay, d.pay, key);
    }
  }

  lemma ProveGrows(c: Crypto, s: State, from: nat, body: Payload, t: State, k: Pair)
    requires Step(c, s, from, body) == Ok(t)
    ensures Prove(s, k) <= Prove(t, k)
  {
    match body
    case SegmentProof(p) => ProofGrowsProve(c, s, from, p, t, k);
    case UpdateChalEpoch(_) =>
    case _ => EarningsFrame(c, s, from, body, t);
  }

  lemma ProofGrowsProve(c: Crypto, s: State, from: nat, p: SegProof, t: State, k: Pair)
    requires ApplyProof(c, s, from, p) == Ok(t)
    ensures Prove(s, k) <= Prove(t, k)
  {
  }

  lemma StepLater(c: Crypto, s: State, from: nat, body: Payload, t: State)
    requires Inv(c, s) && Step(c, s, from, body) == Ok(t)
    ensures Later(s, t)
  {
    GrowStep(c, s, from, body, t);
    SnapshotsStay(c, s, from, body, t);
    forall k: Pair ensures Prove(s, k) <= Prove(t, k) {
      ProveGrows(c, s, from, body, t, k);
    }
    RecordsGrow(c, s, from, body, t);
    StepClock(c, s, from, body, t);
  }

  lemma StepClock(c: Crypto, s: State, from: nat, body: Payload, t: State)
    requires ClockOk(s) && Step(c, s, from, body) == Ok(t)
    ensures t.slot == s.slot && s.ce.current.epoch <= t.ce.current.epoch
    ensures t.height == s.height && t.version == s.version
    ensures t.roles.nonce == s.roles.nonce && t.root == s.root && t.blk == s.blk && t.threshold == s.threshold
  {
  }

  lemma MsgKeeps(c: Crypto, s: State, m: Message, rejected: bool, t: State)
    requires Inv(c, s) && ApplyMsg(c, s, m, rejected) == Ok(t)
    ensures Inv(c, t) && Later(s, t)
  {
    var u := Charge(c, s, m);
    InvFrame(c, s, u);
    SameLater(s, u);
    if !rejected {
      InvStep(c, u, m.from, m.body, t);
      StepLater(c, u, m.from, m.body, t);
      LaterTransitive(s, u, t);
    }
  }

  lemma {:induction false} MsgsKeep(c: Crypto, s: State, msgs: seq<Message>, receipts: seq<bool>, t: State)
    requires Inv(c, s) && |msgs| <= |receipts| && ApplyMsgs(c, s, msgs, receipts) == Ok(t)
    ensures Inv(c, t) && Later(s, t)
  {
    if msgs != [] {
      var n := |msgs| - 1;
      var u := ApplyMsgs(c, s, msgs[..n], receipts).value;
      MsgsKeep(c, s, msgs[..n], receipts, u);
      MsgKeeps(c, u, msgs[n], receipts[n], t);
      LaterTransitive(s, u, t);
    }
  }

  lemma {:induction false} MsgsKeepSlot(c: Crypto, s: State, msgs: seq<Message>, receipts: seq<bool>, t: State)
    requires Inv(c, s) && |msgs| <= |receipts| && ApplyMsgs(c, s, msgs, receipts) == Ok(t)
    ensures t.slot == s.slot
  {
    if msgs != [] {
      var n := |msgs| - 1;
      var u := ApplyMsgs(c, s, msgs[..n], receipts).value;
      MsgsKeepSlot(c, s, msgs[..n], receipts, u);
      MsgsKeep(c, s, msgs[..n], receipts, u);
      if !receipts[n] {
        InvFrame(c, u, Charge(c, u, msgs[n]));
        StepClock(c, Charge(c, u, msgs[n]), msgs[n].from, msgs[n].body, t);
      }
    }
  }

  lemma BlockKeeps(c: Crypto, s: State, b: Block, t: State)
    requires Inv(c, s) && ApplyBlock(c, s, b) == Ok(t)
    ensures Inv(c, t) && Later(s, t)
  {
    var h := Opened(c, s, b.raw.header);
    InvFrame(c, s, h);
    var u := ApplyMsgs(c, h, b.raw.msgs, b.raw.receipts).value;
    MsgsKeep(c, h, b.raw.msgs, b.raw.receipts, u);
    MsgsKeepSlot(c, h, b.raw.msgs, b.raw.receipts, u);
    InvFrame(c, u, t);
    SameLater(s, h);
    SameLater(u, t);
    LaterTransitive(s, h, u);
    LaterTransitive(s, u, t);
  }

  lemma {:induction false} RunKeeps(c: Crypto, s: State, events: seq<Event>, t: State)
    requires Inv(c, s) && Run(c, s, events) == Ok(t)
    ensures Inv(c, t) && Later(s, t)
  {
    if events != [] {
      var n := |events| - 1;
      var u := Run(c, s, events[..n]).value;
      RunKeeps(c, s, events[..n], u);
      if events[n].Applied? {
        BlockKeeps(c, u, events[n].block, t);
      } else {
        InvFrame(c, u, t);
        SameLater(u, t);
      }
      LaterTransitive(s, u, t);
    }
  }

  /** Every reachable state satisfies every invariant. */
  lemma ReachableInv(c: Crypto, s: State)
    requires Reachable(c, s)
    ensures Inv(c, s)
  {
    var id: nat, threshold: nat, events :| Run(c, Genesis(id, threshold), events) == Ok(s);
    InvGenesis(c, id, threshold);
    RunKeeps(c, Genesis(id, threshold), events, s);
  }

  // ---- Theorems about every reachable state ----

  /** If no order of a pair lies strictly inside a recorded challenge window, the pair has earned at
      most the sum over its orders of final price times duration. */
  lemma IncomeWithinWorth(c: Crypto, s: State, k: Pair)
    requires Reachable(c, s) && ClearWindows(s.orders, s.ce, k)
    ensures IncomeOf(s, k) <= Worth(s.orders, k, OrderCount(s.orders, k))
  {
    ReachableInv(c, s);
    assert PairPaid(s, k);
    EarnedWithinWorth(s.orders, k, OrderCount(s.orders, k), SlotTime(Boundary(s.ce, Prove(s, k))));
  }

  /** In particular when no recorded window is longer than the shortest order. */
  lemma IncomeInShortWindows(c: Crypto, s: State, k: Pair)
    requires Reachable(c, s) && ShortWindows(s.ce)
    ensures IncomeOf(s, k) <= Worth(s.orders, k, OrderCount(s.orders, k))
  {
    ReachableInv(c, s);
    ShortWindowsClear(s.orders, s.ce, k);
    IncomeWithinWorth(c, s, k);
  }

  /** An epoch pays a pair at most once: after an accepted proof, no later state of any run accepts
      another for the same pair and epoch. */
  lemma PaidOncePerEpoch(c: Crypto, s: State, from: nat, p: SegProof, t: State, events: seq<Event>, u: State,
                         from2: nat, q: SegProof)
    requires Reachable(c, s) && ApplyProof(c, s, from, p) == Ok(t) && Run(c, t, events) == Ok(u)
    requires q.user == p.user && q.pro == p.pro && q.epoch == p.epoch
    ensures ApplyProof(c, u, from2, q).Err?
  {
    AfterProof(c, s, from, p, t, events, u);
    ProvenRefused(c, u, from2, q);
  }

  lemma StepThenRun(c: Crypto, s: State, from: nat, body: Payload, t: State, events: seq<Event>, u: State)
    requires Reachable(c, s) && Step(c, s, from, body) == Ok(t) && Run(c, t, events) == Ok(u)
    ensures Inv(c, u) && Later(t, u)
  {
    ReachableInv(c, s);
    InvStep(c, s, from, body, t);
    RunKeeps(c, t, events, u);
  }

  lemma AfterProof(c: Crypto, s: State, from: nat, p: SegProof, t: State, events: seq<Event>, u: State)
    requires Reachable(c, s) && Step(c, s, from, SegmentProof(p)) == Ok(t) && Run(c, t, events) == Ok(u)
    ensures Prove(u, Pair(p.user, p.pro)) > p.epoch
  {
    ProofAdvances(c, s, from, p, t);
    StepThenRun(c, s, from, SegmentProof(p), t, events, u);
    assert Prove(t, Pair(p.user, p.pro)) <= Prove(u, Pair(p.user, p.pro));
  }

  lemma ProofAdvances(c: Crypto, s: State, from: nat, p: SegProof, t: State)
    requires ApplyProof(c, s, from, p) == Ok(t)
    ensures Prove(t, Pair(p.user, p.pro)) == p.epoch + 1
  {
  }

  lemma ProvenRefused(c: Crypto, s: State, from: nat, p: SegProof)
    requires Prove(s, Pair(p.user, p.pro)) > p.epoch
    ensures ApplyProof(c, s, from, p).Err?
  {
  }

  /** Ledger conservation in every reachable state: a provider's account is the sum over its users and
      the sum over users and epochs, and the snapshot of an epoch is the sum up to it. */
  lemma LedgerConserved(c: Crypto, s: State, pro: nat, epoch: nat)
    requires Reachable(c, s)
    ensures Get(s.pay.pro, pro, NONE) == SumIncome(OfPro(s.pay.pair, pro))
            == SumIncome(UpTo(s.pay.pairAt, pro, s.ce.current.epoch))
    ensures forall user: nat ::
              Get(s.pay.pair, Pair(user, pro), NONE) == SumIncome(OfPair(s.pay.pairAt, Pair(user, pro)))
    ensures ProEpoch(pro, epoch) in s.pay.proAt ==>
            s.pay.proAt[ProEpoch(pro, epoch)] == SumIncome(UpTo(s.pay.pairAt, pro, epoch))
  {
    ReachableInv(c, s);
    assert ProOk(s.pay, pro, s.ce.current.epoch) && SnapshotOk(s.pay, ProEpoch(pro, epoch));
    forall user: nat
      ensures Get(s.pay.pair, Pair(user, pro), NONE) == SumIncome(OfPair(s.pay.pairAt, Pair(user, pro))) {
      assert PairLedgerOk(s.pay, Pair(user, pro));
    }
  }

  /** In every reachable state the orders of a pair hold one segment for every stripe marked. */
  lemma SizesAreBits(c: Crypto, s: State, k: Pair)
    requires Reachable(c, s)
    ensures TotalSize(s.orders, k) == SEG_SIZE * BitCount(s.fs, k)
  {
    ReachableInv(c, s);
    assert SizeOk(s, k);
  }

  /** What committing the current order changes about a challenge of the orders from lo on, in any
      window. What must be proved stays the same if and only if the order starts before the window ends
      (or the challenge was refused anyway); the price moves by exactly PriceShift; so nothing owed
      changes if and only if, besides, that is zero. */
  lemma CommitChangesNothingOwed(c: Crypto, s: State, k: Pair, t: State, lo: nat, cs: int, ce: int)
    requires Reachable(c, s) && cs < ce
    requires var ns := Ns(s.orders, k);
             ApplyCommit(s, k.user, k.user, k.pro, ns.nonce, ns.seqNum) == Ok(t) && lo <= ns.nonce
    ensures var n := Ns(s.orders, k).nonce;
            var before := ChalTotals(s.orders, k, Ns(s.orders, k), lo, cs, ce, false);
            var after := ChalTotals(t.orders, k, Ns(t.orders, k), lo, cs, ce, false);
            var early, shift :=
              s.orders.base[OrderKey(k, n)].order.ob.start < ce, PriceShift(s.orders, k, n, lo, cs, ce);
            && (SameDemand(before, after) <==> early || before.Err?)
            && (before.Ok? && after.Ok? ==> after.value.price - before.value.price == shift)
            && (SameChallenge(before, after) <==> before.Err? || (early && shift == 0))
  {
    ReachableOrders(c, s);
    CommitOwes(s, k, t, lo, cs, ce);
  }

  /** In particular in a window that no order of the pair lies strictly inside of. */
  lemma CommitInClearWindow(c: Crypto, s: State, k: Pair, t: State, lo: nat, cs: int, ce: int)
    requires Reachable(c, s) && cs < ce && ClearOf(s.orders, k, cs, ce)
    requires var ns := Ns(s.orders, k);
             ApplyCommit(s, k.user, k.user, k.pro, ns.nonce, ns.seqNum) == Ok(t) && lo <= ns.nonce
    ensures var before := ChalTotals(s.orders, k, Ns(s.orders, k), lo, cs, ce, false);
            SameChallenge(before, ChalTotals(t.orders, k, Ns(t.orders, k), lo, cs, ce, false))
            <==> s.orders.base[OrderKey(k, Ns(s.orders, k).nonce)].order.ob.start < ce || before.Err?
  {
    CommitChangesNothingOwed(c, s, k, t, lo, cs, ce);
    var ns := Ns(s.orders, k);
    var b := s.orders.base[OrderKey(k, ns.nonce)].order.ob;
    if b.start < ce && b.end > cs {
      ClearMeansNoShift(s.orders, k, ns.nonce, lo, cs, ce);
    } else if b.start < ce {
      ReachableOrders(c, s);
      EndedRefused(s, k, t, lo, cs, ce);
    }
  }

  /** A current order that ended before the window makes the challenge refused. */
  lemma EndedRefused(s: State, k: Pair, t: State, lo: nat, cs: int, ce: int)
    requires OrdersOk(s.orders) && lo <= Ns(s.orders, k).nonce
    requires var ns := Ns(s.orders, k); ApplyCommit(s, k.user, k.user, k.pro, ns.nonce, ns.seqNum) == Ok(t)
    requires var b := s.orders.base[OrderKey(k, Ns(s.orders, k).nonce)].order.ob; b.start < ce && b.end <= cs
    ensures ChalTotals(s.orders, k, Ns(s.orders, k), lo, cs, ce, false).Err?
  {
    assert PairOk(s.orders, k) && OrderOk(s.orders, OrderKey(k, Ns(s.orders, k).nonce));
  }

  lemma ReachableOrders(c: Crypto, s: State)
    requires Reachable(c, s)
    ensures OrdersOk(s.orders)
  {
    ReachableInv(c, s);
  }

  lemma CommitOwes(s: State, k: Pair, t: State, lo: nat, cs: int, ce: int)
    requires OrdersOk(s.orders) && cs < ce
    requires var ns := Ns(s.orders, k);
             ApplyCommit(s, k.user, k.user, k.pro, ns.nonce, ns.seqNum) == Ok(t) && lo <= ns.nonce
    ensures var n := Ns(s.orders, k).nonce;
            var before := ChalTotals(s.orders, k, Ns(s.orders, k), lo, cs, ce, false);
            var after := ChalTotals(t.orders, k, Ns(t.orders, k), lo, cs, ce, false);
            var early, shift :=
              s.orders.base[OrderKey(k, n)].order.ob.start < ce, PriceShift(s.orders, k, n, lo, cs, ce);
            && (SameDemand(before, after) <==> early || before.Err?)
            && (before.Ok? && after.Ok? ==> after.value.price - before.value.price == shift)
            && (SameChallenge(before, after) <==> before.Err? || (early && shift == 0))
  {
    var ns := Ns(s.orders, k);
    assert PairOk(s.orders, k) && OrderOk(s.orders, OrderKey(k, ns.nonce));
    CommitOutcome(s.orders, k, ns.nonce, ns.subNonce, lo, cs, ce);
    CommittedChallenge(s, k, t, lo, cs, ce);
  }

  lemma CommittedChallenge(s: State, k: Pair, t: State, lo: nat, cs: int, ce: int)
    requires var ns := Ns(s.orders, k);
             ApplyCommit(s, k.user, k.user, k.pro, ns.nonce, ns.seqNum) == Ok(t) && lo <= ns.nonce
    ensures var ns := Ns(s.orders, k);
            ChalTotals(t.orders, k, Ns(t.orders, k), lo, cs, ce, false) ==
            ChalTotals(s.orders, k, NonceSeq(ns.nonce + 1, 0, ns.subNonce), lo, cs, ce, false)
  {
    SamePast(s.orders, t.orders, k, lo, Ns(s.orders, k).nonce + 1, cs, ce, Acc(0, 0, 0, 0, 0));
  }

  lemma {:induction false} SamePast(o: OrderDb, o': OrderDb, k: Pair, lo: nat, hi: nat, cs: int, ce: int, acc: Acc)
    requires o'.base == o.base && lo <= hi
    ensures PastTotals(o', k, lo, hi, cs, ce, acc, false) == PastTotals(o, k, lo, hi, cs, ce, acc, false)
    decreases hi
  {
    if lo < hi { SamePast(o, o', k, lo, hi - 1, cs, ce, acc); }
  }

  /** Once an order is subtracted, no later state of the node accepts a proof over it. */
  lemma SubtractedForever(c: Crypto, s: State, events: seq<Event>, t: State, from: nat, p: SegProof, n: nat)
    requires Reachable(c, s) && Run(c, s, events) == Ok(t)
    requires var k := Pair(p.user, p.pro);
             var ns := Challenged(t.orders, k, p.epoch, Ns(t.orders, k));
             n < Ns(s.orders, k).subNonce && (p.orderStart <= n < p.orderEnd || (n == ns.nonce && ns.seqNum > 0))
    ensures ApplyProof(c, t, from, p).Err?
  {
    ReachableInv(c, s);
    RunKeeps(c, s, events, t);
    assert PairGrows(s.orders, t.orders, Pair(p.user, p.pro));
    SubtractedNeverEarns(c, t, from, p, n, false);
  }

  /** A sequence accepted in any reachable state covers no stripe of a stored sequence of its pair. */
  lemma NoStripeTwice(c: Crypto, s: State, from: nat, q: SignedSeq, t: State, key: SeqKey, bucket: nat)
    requires Reachable(c, s) && ApplyAddSeq(c, s, from, q) == Ok(t)
    requires key in s.orders.seqs && key.pair == Pair(q.data.user, q.data.pro)
    ensures Covered(q.data.segments, bucket) !! Covered(s.orders.seqs[key].data.segments, bucket)
  {
    ReachableInv(c, s);
    assert Marked(s, key);
    AddChunksMark(s.fs, q.data.user, q.data.pro, q.data.nonce, q.data.segments, t.fs, q.data.user, bucket, q.data.pro);
  }

  /** From the second epoch update on, a record agrees with the snapshot of its epoch in every later
      state if and only if it does now; a record of an epoch from 1 on always does. */
  lemma ConfirmedForever(c: Crypto, s: State, events: seq<Event>, t: State, key: ProEpoch)
    requires Reachable(c, s) && Run(c, s, events) == Ok(t) && key in s.pay.confirm
    ensures s.ce.epoch >= 2 ==>
            Find(t.pay.proAt, key) == Find(s.pay.proAt, key) && (Confirmed(t.pay, key) <==> Confirmed(s.pay, key))
    ensures key.epoch >= 1 ==> Confirmed(t.pay, key)
  {
    ReachableInv(c, s);
    RunKeeps(c, s, events, t);
    assert RecordOk(c, s, key, s.pay.confirm[key]) && SameRecord(s.pay, t.pay, key);
    if s.ce.epoch >= 2 {
      assert Find(t.pay.proAt, key) == Find(s.pay.proAt, key);
    }
  }
}
