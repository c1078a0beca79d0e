/** Runs from the empty store to the states in which validation and apply part, or a commit changes what
    is owed. */
module Divergences {
  import opened Types
  import opened Chain
  import opened Validation
  import opened OrderBook
  import opened Challenges
  import opened Invariants
  import opened Differences
  import opened Scenarios
  import C = Contracts

  // ---- An epoch update that cannot be applied ----

  /** After block zero, an update is accepted for a block in slot 120 or later and refused by apply, which
      looks at the slot of block zero. */
  lemma FirstUpdateRefused(c: Crypto, slot: nat, sig: MultiSignature) returns (s: State)
    requires slot >= 120
    ensures Reachable(c, s) && s.height == 1
    ensures var p := EpochParams(0, s.ce.current.seed, sig);
            var v := ValidateHeader(c, s, Reset(s), Header(0, 0, 1, slot, 0, s.blk));
            v.Ok? && CanUpdateEpoch(c, s, v.value, p).1 && ApplyUpdateEpoch(c, s, p).Err?
  {
    s := Begin(c);
    IsReachable(c, s);
  }

  // ---- Proofs made to measure ----

  /** The challenge of the pair over orders lo and later. */
  function Owed(s: State, lo: nat): Result<Acc>
    requires lo <= Challenged(s.orders, PAIR, s.ce.current.epoch, Ns(s.orders, PAIR)).nonce
  {
    ChalTotals(s.orders, PAIR, Challenged(s.orders, PAIR, s.ce.current.epoch, Ns(s.orders, PAIR)), lo,
               SlotTime(s.ce.previous.slot), SlotTime(s.ce.current.slot), false)
  }

  /** A proof that offers what the challenge asks for. */
  ghost function Fitting(c: Crypto, s: State, lo: nat, a: Acc): SegProof
    requires Usable(c)
  {
    SegProof(USER, PRO, s.ce.current.epoch, lo,
             Challenged(s.orders, PAIR, s.ce.current.epoch, Ns(s.orders, PAIR)).nonce,
               (a.size - a.del) % UINT64, a.price,
             Prove(c, VERIFY_KEY, Challenge(VERIFY_KEY, USER, s.ce.current.seed, a.fr)))
  }

  lemma FittingAccepted(c: Crypto, s: State, lo: nat)
    requires Usable(c) && Staffed(c, s) && s.pay == EmptyPay && s.ce.previous.slot < s.ce.current.slot
    requires var ns := Challenged(s.orders, PAIR, s.ce.current.epoch, Ns(s.orders, PAIR));
             lo <= ns.nonce && (ns.nonce > 0 || ns.seqNum > 0)
    requires Owed(s, lo).Ok?
    ensures ApplyProof(c, s, PRO, Fitting(c, s, lo, Owed(s, lo).value)).Ok?
  {
  }

  // ---- A late order, committed before the epoch update ----

  /** One order that starts ten days from now is committed, and the first epoch is over: a proof of
      nothing is accepted by validation and refused by apply. */
  lemma LateProofReached(c: Crypto) returns (s: State, p: SegProof)
    requires Usable(c)
    ensures Reachable(c, s) && CanProve(c, s, Reset(s), PRO, p).1 && ApplyProof(c, s, PRO, p).Err?
  {
    var a := Prepare(c);
    var b := Whole(c, a, 0, A, B);
    var d := Wait(c, b, 120);
    s := FirstEpoch(c, d);
    p := SegProof(USER, PRO, 0, 0, 1, 0, 0, Prove(c, VERIFY_KEY, Challenge(VERIFY_KEY, USER, s.ce.current.seed, 0)));
    LateProofRefused(c, s.orders, OrderOf(s, PAIR), VERIFY_KEY, s.ce.current, s.ce.previous, p);
    LateProofRefused(c, s.orders, LoadOrder(s.orders, s.pay, PAIR), VERIFY_KEY, s.ce.current, s.ce.previous, p);
    IsReachable(c, s);
  }

  lemma NotRecorded(c: Crypto, s: State, k: Pair, epoch: nat)
    requires Real(c, s) && epoch > s.ce.epoch
    ensures PairEpoch(k, epoch) !in s.orders.stateAt
  {
    IsReachable(c, s);
    C.ReachableRecords(c, s);
  }

  // ---- A commit in the epoch after ----

  /** The second epoch update. */
  lemma NextEpoch(c: Crypto, s: State) returns (t: State)
    requires Staffed(c, s) && s.height < 490 && s.ce.epoch == 1 && s.slot >= s.ce.current.slot + 120
    ensures Staffed(c, t) && t.height == s.height + 1 && SameStore(s, t)
    ensures t.ce.epoch == 2 && t.ce.current.epoch == 1 && t.ce.current.slot == s.slot
    ensures t.ce.previous.slot == s.ce.current.slot
  {
    var p := EpochParams(1, s.ce.current.seed, MultiSignature(SigSecp256k1, [], []));
    assert Step(c, s, USER, UpdateChalEpoch(p)) == ApplyUpdateEpoch(c, s, p);
    t := Play(c, s, USER, UpdateChalEpoch(p), s.slot + 1);
  }

  /** Two epoch updates that bound a window. */
  lemma TwoEpochs(c: Crypto, s: State, first: nat, second: nat) returns (t: State)
    requires Staffed(c, s) && s.height < 480 && s.ce == Genesis(0, 0).ce && s.slot < first
    requires first >= 120 && second >= first + 120
    ensures Staffed(c, t) && t.height < 490 && SameStore(s, t)
    ensures t.ce.epoch == 2 && t.ce.current.epoch == 1 && t.ce.current.slot == second && t.ce.previous.slot == first
    ensures PairEpoch(PAIR, 1) !in t.orders.stateAt
  {
    NotRecorded(c, s, PAIR, 1);
    var a := Wait(c, s, first);
    var b := FirstEpoch(c, a);
    var d := Wait(c, b, second);
    t := NextEpoch(c, d);
  }

  /** The commit of order n as a block of its own. */
  ghost predicate Committed(s: State, t: State, n: nat)
  {
    && ApplyCommit(s, USER, USER, PRO, n, 1).Ok? && t.orders == ApplyCommit(s, USER, USER, PRO, n, 1).value.orders
    && t.ce == s.ce
  }

  lemma CommitNow(c: Crypto, s: State, n: nat) returns (t: State)
    requires Staffed(c, s) && s.height < 490 && Ns(s.orders, PAIR) == NonceSeq(n, 1, 0)
    requires OrderKey(PAIR, n) in s.orders.base && s.orders.base[OrderKey(PAIR, n)].order.size == SEG_SIZE
    ensures Staffed(c, t) && t.pay == s.pay && Committed(s, t, n)
    ensures t.orders == PutNs(s.orders, PAIR, s.ce.epoch, NonceSeq(n + 1, 0, 0))
  {
    t := Commit(c, s, n);
  }

  /** An order that starts after the window is current: a proof of nothing is accepted. Once it is
      committed every proof from it on is refused. */
  lemma LateCommitReached(c: Crypto) returns (s: State, t: State, p: SegProof)
    requires Usable(c)
    ensures Reachable(c, s) && p.orderStart == 0 && ApplyProof(c, s, PRO, p).Ok?
    ensures Reachable(c, t) && Committed(s, t, 0)
    ensures forall from: nat, q: SegProof | q.user == USER && q.pro == PRO && q.orderStart == 0 ::
              ApplyProof(c, t, from, q).Err?
  {
    s := LateOrderCurrent(c);
    t := CommitNow(c, s, 0);
    p := LateCurrentProof(c, s);
    IsReachable(c, s);
    IsReachable(c, t);
    forall from: nat, q: SegProof | q.user == USER && q.pro == PRO && q.orderStart == 0
      ensures ApplyProof(c, t, from, q).Err?
    {
      LateRefused(c, t, from, q);
    }
  }

  lemma LateCurrentProof(c: Crypto, s: State) returns (p: SegProof)
    requires Usable(c) && Staffed(c, s) && s.pay == EmptyPay && Ns(s.orders, PAIR) == NonceSeq(0, 1, 0)
    requires Held(s.orders, 0, A, B) && PairEpoch(PAIR, 1) !in s.orders.stateAt
    requires s.ce.current.epoch == 1 && s.ce.current.slot == 240 && s.ce.previous.slot == 120
    ensures p.orderStart == 0 && ApplyProof(c, s, PRO, p).Ok?
  {
    LateCommitRefused(s.orders, PAIR, 0, 1, 0, 0, SlotTime(120), SlotTime(240));
    assert Owed(s, 0).Ok?;
    p := Fitting(c, s, 0, Owed(s, 0).value);
    FittingAccepted(c, s, 0);
  }

  lemma LateOrderCurrent(c: Crypto) returns (s: State)
    requires Usable(c)
    ensures Staffed(c, s) && s.height < 490 && s.pay == EmptyPay && Ns(s.orders, PAIR) == NonceSeq(0, 1, 0)
    ensures Held(s.orders, 0, A, B) && PairEpoch(PAIR, 1) !in s.orders.stateAt
    ensures s.ce.epoch == 2 && s.ce.current.epoch == 1 && s.ce.current.slot == 240 && s.ce.previous.slot == 120
  {
    var a := Prepare(c);
    var b := OpenAndFill(c, a, 0, A, B);
    s := TwoEpochs(c, b, 120, 240);
  }

  lemma LateRefused(c: Crypto, t: State, from: nat, q: SegProof)
    requires Held(t.orders, 0, A, B) && Ns(t.orders, PAIR) == NonceSeq(1, 0, 0)
    requires PairEpoch(PAIR, 1) !in t.orders.stateAt
    requires t.ce.current.epoch == 1 && t.ce.current.slot == 240
    requires q.user == USER && q.pro == PRO && q.orderStart == 0
    ensures ApplyProof(c, t, from, q).Err?
  {
    var cs, ce := SlotTime(t.ce.previous.slot), SlotTime(240);
    assert PastTotals(t.orders, PAIR, 0, 1, cs, ce, Acc(0, 0, 0, 0, 0), false).Err?;
  }

  // ---- A commit that is paid ----

  /** Order 0 covers the window, order 1 lies strictly inside it and is current. Proofs over both are
      accepted before and after the commit of order 1, and the later one is paid more. */
  lemma CommitPaysReached(c: Crypto) returns (s: State, t: State, p: SegProof, q: SegProof)
    requires Usable(c)
    ensures Reachable(c, s) && p.orderStart == 0 && ApplyProof(c, s, PRO, p).Ok?
    ensures Reachable(c, t) && Committed(s, t, 1)
    ensures q.orderStart == 0 && ApplyProof(c, t, PRO, q).Ok? && q.price > p.price
  {
    s := InsideOrderCurrent(c);
    t := CommitNow(c, s, 1);
    IsReachable(c, s);
    IsReachable(c, t);
    CommitPays(c, s, t);
    ChallengedNow(s, t);
    p := FittingProof(c, s);
    q := FittingProof(c, t);
  }

  lemma ChallengedNow(s: State, t: State)
    requires PairEpoch(PAIR, 1) !in s.orders.stateAt && t.orders == PutNs(s.orders, PAIR, 2, NonceSeq(2, 0, 0))
    ensures Challenged(t.orders, PAIR, 1, Ns(t.orders, PAIR)).nonce == 2
  {
  }

  lemma FittingProof(c: Crypto, s: State) returns (p: SegProof)
    requires Usable(c) && Staffed(c, s) && s.pay == EmptyPay && s.ce.previous.slot < s.ce.current.slot
    requires Challenged(s.orders, PAIR, s.ce.current.epoch, Ns(s.orders, PAIR)).nonce > 0 && Owed(s, 0).Ok?
    ensures p.orderStart == 0 && p.price == Owed(s, 0).value.price && ApplyProof(c, s, PRO, p).Ok?
  {
    p := Fitting(c, s, 0, Owed(s, 0).value);
    FittingAccepted(c, s, 0);
  }

  lemma InsideOrderCurrent(c: Crypto) returns (s: State)
    requires Usable(c)
    ensures Staffed(c, s) && s.height < 490 && s.pay == EmptyPay && Ns(s.orders, PAIR) == NonceSeq(1, 1, 0)
    ensures Held(s.orders, 0, X0, Y0) && Held(s.orders, 1, X1, Y1) && PairEpoch(PAIR, 1) !in s.orders.stateAt
    ensures s.ce.epoch == 2 && s.ce.current.epoch == 1
    ensures s.ce.current.slot == 200 * 2880 && s.ce.previous.slot == 2880
  {
    var a := Prepare(c);
    var b := Whole(c, a, 0, X0, Y0);
    var d := OpenAndFill(c, b, 1, X1, Y1);
    s := TwoEpochs(c, d, 2880, 200 * 2880);
  }

  lemma CommitPays(c: Crypto, s: State, t: State)
    requires Reachable(c, s) && Ns(s.orders, PAIR) == NonceSeq(1, 1, 0) && PairEpoch(PAIR, 1) !in s.orders.stateAt
    requires Held(s.orders, 0, X0, Y0) && Held(s.orders, 1, X1, Y1)
    requires s.ce.epoch == 2 && s.ce.current.epoch == 1
    requires s.ce.current.slot == 200 * 2880 && s.ce.previous.slot == 2880
    requires t.ce == s.ce && t.orders == PutNs(s.orders, PAIR, 2, NonceSeq(2, 0, 0))
    ensures Owed(s, 0).Ok? && Owed(t, 0).Ok? && Owed(t, 0).value.price > Owed(s, 0).value.price
  {
    var cs, ce := SlotTime(2880), SlotTime(200 * 2880);
    ReachableOrders(c, s);
    assert PairOk(s.orders, PAIR);
    CommitInsidePaysMore(s.orders, PAIR, 0, cs, ce);
    assert SameStored(s.orders, t.orders, PAIR, 1);
    SameChalTotals(s.orders, t.orders, PAIR, 1, NonceSeq(2, 0, 0), 0, cs, ce, false);
  }
}
