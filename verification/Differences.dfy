/** The methods whose two copies differ: exactly when a message that validation accepts is also
    accepted by the real transition, after which both states still agree. As in Agreement, s0 is the
    state of the last applied block, v the scratch records and s the state in which the message is
    applied. */
module Differences {
  import opened Types
  import opened Chain
  import opened Cache
  import opened Validation
  import opened OrderBook
  import opened Growth
  import opened Invariants
  import opened Confirmations
  import opened Restarts
  import opened Agreement

  // ---- PreDataOrder: the remembered dates ----

  /** Validation compares with the dates loaded or left in the scratch record, apply with those the
      node remembers; nothing else divides them. */
  lemma OrderApplies(c: Crypto, s0: State, v: Val, s: State, from: nat, o: SignedOrder)
    requires Sim(s0, v, s) && CanCreateOrder(c, s0, v, from, o).1
    ensures ApplyCreateOrder(c, s, from, o).Ok? <==> DatesAllow(Remembered(s, Pair(o.ob.user, o.ob.pro)), o)
  {
    var k := Pair(o.ob.user, o.ob.pro);
    assert RoleSim(s0, v, s, o.ob.user) && RoleSim(s0, v, s, o.ob.pro);
    assert OrderSim(s0, v, s, k) && PairOk(s.orders, k);
    CreateOrderVerdict(c, s, s, from, o);
  }

  /** What an accepted order leaves in the scratch records. */
  lemma CanCreateEffect(c: Crypto, s0: State, v: Val, from: nat, o: SignedOrder, w: Val)
    requires CanCreateOrder(c, s0, v, from, o) == (w, true)
    ensures var k := Pair(o.ob.user, o.ob.pro);
            var info := VOrder(s0, v, k);
            && w == v.(roles := w.roles, orders := w.orders)
            && (forall id: nat :: VRole(s0, w, id) == VRole(s0, v, id))
            && (forall j: Pair | j != k :: VOrder(s0, w, j) == VOrder(s0, v, j))
            && VOrder(s0, w, k) == info.(base := Some(o), ns := info.ns.(seqNum := 0), fr := 0)
            && o.ob.nonce == info.ns.nonce
  {
  }

  /** What an applied one changes in the state. */
  lemma CreateEffect(c: Crypto, s: State, from: nat, o: SignedOrder, t: State)
    requires ApplyCreateOrder(c, s, from, o) == Ok(t)
    ensures var k := Pair(o.ob.user, o.ob.pro);
            var x, y := LoadOrder(s.orders, s.pay, k), LoadOrder(t.orders, t.pay, k);
            && t.roles == s.roles && SameTime(s, t) && t.root == s.root && t.fs == s.fs && SeqsKept(s.orders, t.orders)
            && (forall j: Pair | j != k :: InStep(LoadOrder(t.orders, t.pay, j), LoadOrder(s.orders, s.pay, j)))
            && x.ns.seqNum == 0 && y.ns == x.ns && y.prove == x.prove && y.base == Some(o)
  {
  }

  lemma OrderKeepsSim(c: Crypto, s0: State, v: Val, s: State, from: nat, o: SignedOrder, w: Val, t: State)
    requires Sim(s0, v, s) && CanCreateOrder(c, s0, v, from, o) == (w, true)
    requires ApplyCreateOrder(c, s, from, o) == Ok(t)
    ensures Sim(s0, w, t)
  {
    BooksKept(c, s, from, PreDataOrder(o), t);
    CanCreateEffect(c, s0, v, from, o, w);
    CreateEffect(c, s, from, o, t);
    OpenedSim(s0, v, s, o, w, t);
  }

  lemma OpenedSim(s0: State, v: Val, s: State, o: SignedOrder, w: Val, t: State)
    requires Sim(s0, v, s) && UsersOk(t) && OrdersOk(t.orders) && OrdersGrow(s.orders, t.orders)
    requires t.roles == s.roles && SameTime(s, t) && t.root == s.root && t.fs == s.fs && SeqsKept(s.orders, t.orders)
    requires w == v.(roles := w.roles, orders := w.orders)
    requires forall id: nat :: VRole(s0, w, id) == VRole(s0, v, id)
    requires var k := Pair(o.ob.user, o.ob.pro);
             && (forall j: Pair | j != k :: VOrder(s0, w, j) == VOrder(s0, v, j))
             && (forall j: Pair | j != k :: InStep(LoadOrder(t.orders, t.pay, j), LoadOrder(s.orders, s.pay, j)))
             && var info, x, y := VOrder(s0, v, k), LoadOrder(s.orders, s.pay, k), LoadOrder(t.orders, t.pay, k);
             && VOrder(s0, w, k) == info.(base := Some(o), ns := info.ns.(seqNum := 0), fr := 0)
             && x.ns.seqNum == 0 && y.ns == x.ns && y.prove == x.prove && y.base == Some(o)
    ensures Sim(s0, w, t)
  {
    var k := Pair(o.ob.user, o.ob.pro);
    assert OrderSim(s0, v, s, k);
    OrderMoves(s0, v, s, k, w, t);
  }

  // ---- UpdateChalEpoch: the slot that is compared ----

  /** Slots enough have passed in the last applied block. */
  predicate EpochOver(s: State)
  {
    match ChalDuration(s.version)
    case None => false
    case Some(d) => s.slot - s.ce.current.slot >= d
  }

  /** Validation compares the slot of the block being built, apply the slot of the last applied one. */
  lemma EpochApplies(c: Crypto, s0: State, v: Val, s: State, p: EpochParams)
    requires Sim(s0, v, s) && CanUpdateEpoch(c, s0, v, p).1
    ensures ApplyUpdateEpoch(c, s, p).Ok? <==> EpochOver(s)
  {
  }

  lemma EpochKeepsSim(c: Crypto, s0: State, v: Val, s: State, p: EpochParams)
    requires Sim(s0, v, s) && CanUpdateEpoch(c, s0, v, p).1 && ApplyUpdateEpoch(c, s, p).Ok?
    ensures Sim(s0, CanUpdateEpoch(c, s0, v, p).0, ApplyUpdateEpoch(c, s, p).value)
  {
    var w, t := CanUpdateEpoch(c, s0, v, p).0, ApplyUpdateEpoch(c, s, p).value;
    BooksKept(c, s, 0, UpdateChalEpoch(p), t);
    ClockMoves(s0, v, s, w, t);
  }

  lemma ClockMoves(s0: State, v: Val, s: State, w: Val, t: State)
    requires Sim(s0, v, s) && UsersOk(t) && t == s.(ce := t.ce)
    requires w == v.(epoch := w.epoch, current := w.current, previous := w.previous) && ClockSim(s0, w, t)
    ensures Sim(s0, w, t)
  {
    forall id: nat ensures RoleSim(s0, w, t, id) { assert RoleSim(s0, v, s, id); }
    forall k: Pair ensures OrderSim(s0, w, t, k) { assert OrderSim(s0, v, s, k); }
  }

  // ---- ConfirmPostIncome: the record that is compared ----

  /** The announced income is the snapshot's, and the record, if there is one, neither holds the signer
      nor, in epoch 0, has been overtaken by the snapshot. */
  predicate MayConfirm(s: State, from: nat, epoch: nat, income: AccIncome)
  {
    var key := ProEpoch(income.pro, epoch);
    && key in s.pay.proAt && IncomeMatches(income, income.pro, s.pay.proAt[key])
    && (key in s.pay.confirm ==>
          && from !in s.pay.confirm[key].sig.signers
          && (epoch == 0 ==> IncomeMatches(s.pay.confirm[key].income, income.pro, s.pay.proAt[key])))
  }

  /** Validation looks for the signer in an empty list, apply in the record; validation reads the
      snapshot of the last applied state, apply the present one; and apply wants the record to agree
      with the snapshot, which only a record of epoch 0 can fail to. */
  lemma ConfirmApplies(c: Crypto, s0: State, v: Val, s: State, from: nat, epoch: nat, income: AccIncome, sig: Signature)
    requires Sim(s0, v, s) && ConfirmsOk(c, s) && CanConfirm(c, s0, v, from, epoch, income, sig).1
    ensures ApplyConfirm(c, s, from, epoch, income, sig).Ok? <==> MayConfirm(s, from, epoch, income)
  {
    var key := ProEpoch(income.pro, epoch);
    assert RoleSim(s0, v, s, from);
    if key in s.pay.confirm { assert RecordOk(c, s, key, s.pay.confirm[key]); }
  }

  lemma ConfirmKeepsSim(c: Crypto, s0: State, v: Val, s: State, from: nat, epoch: nat, income: AccIncome,
                        sig: Signature)
    requires Sim(s0, v, s) && CanConfirm(c, s0, v, from, epoch, income, sig).1
    requires ApplyConfirm(c, s, from, epoch, income, sig).Ok?
    ensures Sim(s0, CanConfirm(c, s0, v, from, epoch, income, sig).0,
                ApplyConfirm(c, s, from, epoch, income, sig).value)
  {
    var t := ApplyConfirm(c, s, from, epoch, income, sig).value;
    RoleLoadKeepsSim(s0, v, s, from);
    OrderStays(s0, WithRole(s0, v, from), s, t, Pair(0, 0));
  }

  /** Confirming twice: whatever confirmation has been applied, validation accepts it once more and
      apply does not. */
  lemma SecondConfirmRefused(c: Crypto, s: State, from: nat, epoch: nat, income: AccIncome, sig: Signature, t: State)
    requires ConfirmsOk(c, s) && ApplyConfirm(c, s, from, epoch, income, sig) == Ok(t)
    ensures CanConfirm(c, t, Reset(t), from, epoch, income, sig).1 && ApplyConfirm(c, t, from, epoch, income, sig).Err?
  {
    var key := ProEpoch(income.pro, epoch);
    if key in s.pay.confirm { assert RecordOk(c, s, key, s.pay.confirm[key]); }
  }

  // ---- AddDataOrder: the user ----

  /** With no segments validation never looks at the user, whom apply wants to exist; with segments an
      accepted sequence always has one. */
  lemma SequenceApplies(c: Crypto, s0: State, v: Val, s: State, from: nat, q: SignedSeq)
    requires Sim(s0, v, s) && CanAddSeq(c, s0, v, from, q).1
    ensures ApplyAddSeq(c, s, from, q).Ok? <==> q.data.user in s.fs.verifyKey
    ensures q.data.segments != [] ==> q.data.user in s.fs.verifyKey
  {
    var d := q.data;
    var k := Pair(d.user, d.pro);
    CanAddSeqEffect(c, s0, v, from, q, CanAddSeq(c, s0, v, from, q).0);
    assert RoleSim(s0, v, s, d.user) && RoleSim(s0, v, s, d.pro) && OrderSim(s0, v, s, k);
    ChunksAgree(s0.fs, v.users, s.fs, d.user, d.pro, d.nonce, d.segments);
    if d.user in s.fs.verifyKey {
      SameRecordSameVerdict(c, from, q, VRole(s0, v, d.user).base, VRole(s0, v, d.pro).base, VOrder(s0, v, k),
                            OrderOf(s, k));
      AcceptableSeqApplies(c, s, from, q);
    }
  }

  // ---- SegmentProof: orders that start after the window ----

  /** The records a challenge of the pair reads are the same in both stores. */
  ghost predicate SameStored(o: OrderDb, o': OrderDb, k: Pair, epoch: nat)
  {
    && Find(o.stateAt, PairEpoch(k, epoch)) == Find(o'.stateAt, PairEpoch(k, epoch))
    && (forall n: nat :: Find(o.base, OrderKey(k, n)) == Find(o'.base, OrderKey(k, n)))
    && (forall n: nat, i: nat :: Find(o.seqs, SeqKey(k, n, i)) == Find(o'.seqs, SeqKey(k, n, i)))
  }

  lemma {:induction false} SameSeqTotals(o: OrderDb, o': OrderDb, k: Pair, epoch: nat, n: nat, m: nat, total: nat,
                                         acc: Acc)
    requires SameStored(o, o', k, epoch) && m <= total
    ensures SeqTotals(o, k, n, m, total, acc) == SeqTotals(o', k, n, m, total, acc)
  {
    if m > 0 {
      SameSeqTotals(o, o', k, epoch, n, m - 1, total, acc);
      assert Find(o.seqs, SeqKey(k, n, m - 1)) == Find(o'.seqs, SeqKey(k, n, m - 1));
    }
  }

  lemma SameCurrentTotals(o: OrderDb, o': OrderDb, k: Pair, epoch: nat, ns: NonceSeq, cs: int, ce: int)
    requires SameStored(o, o', k, epoch)
    ensures CurrentTotals(o, k, ns, cs, ce) == CurrentTotals(o', k, ns, cs, ce)
  {
    assert Find(o.base, OrderKey(k, ns.nonce)) == Find(o'.base, OrderKey(k, ns.nonce));
    if OrderKey(k, ns.nonce) in o.base {
      var b := o.base[OrderKey(k, ns.nonce)].order.ob;
      SameSeqTotals(o, o', k, epoch, ns.nonce, ns.seqNum, ns.seqNum,
                    Acc(0, 0, 0, 0, Duration(b.start, b.end, cs, ce, 0)));
    }
  }

  lemma {:induction false} SamePastTotals(o: OrderDb, o': OrderDb, k: Pair, epoch: nat, lo: nat, hi: nat,
                                          cs: int, ce: int, acc: Acc, skipLate: bool)
    requires SameStored(o, o', k, epoch) && lo <= hi
    ensures PastTotals(o, k, lo, hi, cs, ce, acc, skipLate) == PastTotals(o', k, lo, hi, cs, ce, acc, skipLate)
    decreases hi
  {
    if lo < hi {
      SamePastTotals(o, o', k, epoch, lo, hi - 1, cs, ce, acc, skipLate);
      assert Find(o.base, OrderKey(k, hi - 1)) == Find(o'.base, OrderKey(k, hi - 1));
    }
  }

  lemma SameChalTotals(o: OrderDb, o': OrderDb, k: Pair, epoch: nat, ns: NonceSeq, lo: nat, cs: int, ce: int,
                       skipLate: bool)
    requires SameStored(o, o', k, epoch) && lo <= ns.nonce
    ensures ChalTotals(o, k, ns, lo, cs, ce, skipLate) == ChalTotals(o', k, ns, lo, cs, ce, skipLate)
  {
    SameCurrentTotals(o, o', k, epoch, ns, cs, ce);
    var cur := CurrentTotals(o, k, ns, cs, ce);
    if cur.Ok? { SamePastTotals(o, o', k, epoch, lo, ns.nonce, cs, ce, cur.value, skipLate); }
  }

  ghost predicate Late(o: OrderDb, k: Pair, n: nat, ce: int)
  {
    OrderKey(k, n) in o.base && o.base[OrderKey(k, n)].order.ob.start >= ce
  }

  /** Skipping late orders and refusing them come to the same if and only if there is none. */
  lemma {:induction false} LateOrdersDivide(o: OrderDb, k: Pair, lo: nat, hi: nat, cs: int, ce: int, acc: Acc)
    requires lo <= hi && PastTotals(o, k, lo, hi, cs, ce, acc, true).Ok?
    ensures var strict := PastTotals(o, k, lo, hi, cs, ce, acc, false);
            && (strict.Ok? <==> forall n: nat | lo <= n < hi :: !Late(o, k, n, ce))
            && (strict.Ok? ==> strict == PastTotals(o, k, lo, hi, cs, ce, acc, true))
    decreases hi
  {
    if lo < hi {
      LateOrdersDivide(o, k, lo, hi - 1, cs, ce, acc);
      assert Late(o, k, hi - 1, ce) <==> o.base[OrderKey(k, hi - 1)].order.ob.start >= ce;
    }
  }

  /** A proof that is worth something to validation is worth the same to apply, or nothing. */
  lemma PriceDivides(c: Crypto, o: OrderDb, o': OrderDb, x: OrderInfo, y: OrderInfo, vk: Option<nat>,
                     current: ChalEpoch, previous: ChalEpoch, from: nat, p: SegProof)
    requires SameStored(o, o', Pair(p.user, p.pro), p.epoch) && x.ns == y.ns && x.prove == y.prove
    requires ProvenPrice(c, o, x, vk, current, previous, from, p, true).Ok?
    ensures var strict := ProvenPrice(c, o', y, vk, current, previous, from, p, false);
            && (strict.Ok? <==>
                forall n: nat | p.orderStart <= n < p.orderEnd ::
                  !Late(o', Pair(p.user, p.pro), n, SlotTime(current.slot)))
            && (strict.Ok? ==> strict == ProvenPrice(c, o, x, vk, current, previous, from, p, true))
  {
    var k := Pair(p.user, p.pro);
    var ns := Challenged(o, k, p.epoch, x.ns);
    assert ns == Challenged(o', k, p.epoch, y.ns);
    var cs, ce := SlotTime(previous.slot), SlotTime(current.slot);
    SameChalTotals(o, o', k, p.epoch, ns, p.orderStart, cs, ce, true);
    var cur := CurrentTotals(o', k, ns, cs, ce).value;
    LateOrdersDivide(o', k, p.orderStart, p.orderEnd, cs, ce, cur);
  }

  /** Validation's own check of a proof, made on the present records. */
  ghost predicate StillOwed(c: Crypto, s: State, from: nat, p: SegProof)
  {
    ProvenPrice(c, s.orders, OrderOf(s, Pair(p.user, p.pro)), Find(s.fs.verifyKey, p.user), s.ce.current, s.ce.previous,
                from, p, true).Ok?
  }

  /** No order in the range of the proof starts at or after the end of the window. */
  ghost predicate NoneLate(s: State, p: SegProof)
  {
    forall n: nat | p.orderStart <= n < p.orderEnd ::
      !Late(s.orders, Pair(p.user, p.pro), n, SlotTime(s.ce.current.slot))
  }

  /** A proof is applied if and only if validation's check passes on the present records and no order
      in its range is late. */
  lemma ProofApplies(c: Crypto, s: State, from: nat, p: SegProof)
    ensures ApplyProof(c, s, from, p).Ok? <==> StillOwed(c, s, from, p) && NoneLate(s, p)
  {
    var x := OrderOf(s, Pair(p.user, p.pro));
    var vk := Find(s.fs.verifyKey, p.user);
    if StillOwed(c, s, from, p) {
      PriceDivides(c, s.orders, s.orders, x, x, vk, s.ce.current, s.ce.previous, from, p);
    } else {
      StrictIsLenient(c, s.orders, x, vk, s.ce.current, s.ce.previous, from, p);
    }
  }

  lemma StrictIsLenient(c: Crypto, o: OrderDb, x: OrderInfo, vk: Option<nat>, current: ChalEpoch, previous: ChalEpoch,
                        from: nat, p: SegProof)
    ensures ProvenPrice(c, o, x, vk, current, previous, from, p, false).Ok? ==>
            ProvenPrice(c, o, x, vk, current, previous, from, p, true).Ok?
  {
    var k := Pair(p.user, p.pro);
    var ns := Challenged(o, k, p.epoch, x.ns);
    var cs, ce := SlotTime(previous.slot), SlotTime(current.slot);
    var cur := CurrentTotals(o, k, ns, cs, ce);
    if p.orderStart <= p.orderEnd && cur.Ok? { StrictTotals(o, k, p.orderStart, p.orderEnd, cs, ce, cur.value); }
  }

  lemma {:induction false} StrictTotals(o: OrderDb, k: Pair, lo: nat, hi: nat, cs: int, ce: int, acc: Acc)
    requires lo <= hi
    ensures var strict := PastTotals(o, k, lo, hi, cs, ce, acc, false);
            strict.Ok? ==> PastTotals(o, k, lo, hi, cs, ce, acc, true) == strict
    decreases hi
  {
    if lo < hi { StrictTotals(o, k, lo, hi - 1, cs, ce, acc); }
  }

  /** For an accepted proof, as long as the block has not changed the records of the pair, only a late
      order stands in the way. */
  lemma UntouchedProofApplies(c: Crypto, s0: State, v: Val, s: State, from: nat, p: SegProof)
    requires Sim(s0, v, s) && CanProve(c, s0, v, from, p).1
    requires SameStored(s0.orders, s.orders, Pair(p.user, p.pro), p.epoch)
    ensures ApplyProof(c, s, from, p).Ok? <==> NoneLate(s, p)
  {
    var x, vk := OrderOf(s, Pair(p.user, p.pro)), Find(s.fs.verifyKey, p.user);
    ScratchPrice(c, s0, v, s, from, p);
    PriceDivides(c, s0.orders, s.orders, VOrder(s0, v, Pair(p.user, p.pro)), x, vk, s.ce.current, s.ce.previous,
                 from, p);
  }

  /** The records of an accepted proof in terms of the present ones. */
  lemma ScratchPrice(c: Crypto, s0: State, v: Val, s: State, from: nat, p: SegProof)
    requires Sim(s0, v, s) && CanProve(c, s0, v, from, p).1
    ensures var k := Pair(p.user, p.pro);
            && VOrder(s0, v, k).ns == OrderOf(s, k).ns && VOrder(s0, v, k).prove == OrderOf(s, k).prove
            && ProvenPrice(c, s0.orders, VOrder(s0, v, k), Find(s.fs.verifyKey, p.user), s.ce.current, s.ce.previous,
                           from, p, true).Ok?
  {
    assert OrderSim(s0, v, s, Pair(p.user, p.pro)) && UserSim(s0.fs, v.users, s.fs, p.user);
  }

  lemma ProofEffect(c: Crypto, s: State, from: nat, p: SegProof, t: State)
    requires ApplyProof(c, s, from, p) == Ok(t)
    ensures var k := Pair(p.user, p.pro);
            var x, y := LoadOrder(s.orders, s.pay, k), LoadOrder(t.orders, t.pay, k);
            && t.roles == s.roles && SameTime(s, t) && t.root == s.root && t.fs == s.fs && SeqsKept(s.orders, t.orders)
            && (forall j: Pair | j != k :: InStep(LoadOrder(t.orders, t.pay, j), LoadOrder(s.orders, s.pay, j)))
            && y.ns == x.ns && y.base == x.base && y.prove == p.epoch + 1
  {
  }

  lemma CanProveEffect(c: Crypto, s0: State, v: Val, from: nat, p: SegProof, w: Val)
    requires CanProve(c, s0, v, from, p) == (w, true)
    ensures var k := Pair(p.user, p.pro); w == v.(orders := v.orders[k := VOrder(s0, v, k).(prove := p.epoch + 1)])
  {
  }

  lemma ProofKeepsSim(c: Crypto, s0: State, v: Val, s: State, from: nat, p: SegProof, w: Val, t: State)
    requires Sim(s0, v, s) && CanProve(c, s0, v, from, p) == (w, true) && ApplyProof(c, s, from, p) == Ok(t)
    ensures Sim(s0, w, t)
  {
    ProofKeepsBooks(c, s, from, p, t);
    CanProveEffect(c, s0, v, from, p, w);
    ProofEffect(c, s, from, p, t);
    ProvedSim(s0, v, s, p, w, t);
  }

  lemma ProofKeepsBooks(c: Crypto, s: State, from: nat, p: SegProof, t: State)
    requires OrdersOk(s.orders) && UsersOk(s) && ApplyProof(c, s, from, p) == Ok(t)
    ensures OrdersOk(t.orders) && OrdersGrow(s.orders, t.orders) && UsersOk(t)
  {
    BooksKept(c, s, from, SegmentProof(p), t);
  }

  lemma ProvedSim(s0: State, v: Val, s: State, p: SegProof, w: Val, t: State)
    requires Sim(s0, v, s) && UsersOk(t) && OrdersOk(t.orders) && OrdersGrow(s.orders, t.orders)
    requires t.roles == s.roles && SameTime(s, t) && t.root == s.root && t.fs == s.fs && SeqsKept(s.orders, t.orders)
    requires var k := Pair(p.user, p.pro);
             && w == v.(orders := v.orders[k := VOrder(s0, v, k).(prove := p.epoch + 1)])
             && (forall j: Pair | j != k :: InStep(LoadOrder(t.orders, t.pay, j), LoadOrder(s.orders, s.pay, j)))
             && var x, y := LoadOrder(s.orders, s.pay, k), LoadOrder(t.orders, t.pay, k);
             && y.ns == x.ns && y.base == x.base && y.prove == p.epoch + 1
    ensures Sim(s0, w, t)
  {
    var k := Pair(p.user, p.pro);
    assert OrderSim(s0, v, s, k);
    OrderMoves(s0, v, s, k, w, t);
  }

  /** A late order that has been committed: to validation the challenge over it alone is an empty one,
      which any accepted proof meets; apply refuses it. */
  lemma LateProofRefused(c: Crypto, o: OrderDb, info: OrderInfo, vk: nat, current: ChalEpoch, previous: ChalEpoch,
                         p: SegProof)
    requires previous.slot < current.slot && p.epoch == current.epoch && info.prove <= p.epoch
    requires Challenged(o, Pair(p.user, p.pro), p.epoch, info.ns) == NonceSeq(1, 0, 0)
    requires p.orderStart == 0 && p.orderEnd == 1 && Late(o, Pair(p.user, p.pro), 0, SlotTime(current.slot))
    requires p.size == 0 && p.price == 0 && c.proofOk(vk, Challenge(vk, p.user, current.seed, 0), p.proof)
    ensures ProvenPrice(c, o, info, Some(vk), current, previous, p.pro, p, true) == Ok(0)
    ensures ProvenPrice(c, o, info, Some(vk), current, previous, p.pro, p, false).Err?
  {
    var k := Pair(p.user, p.pro);
    var cs, ce := SlotTime(previous.slot), SlotTime(current.slot);
    var zero := Acc(0, 0, 0, 0, 0);
    assert PastTotals(o, k, 0, 0, cs, ce, zero, true) == Ok(zero);
    assert PastTotals(o, k, 0, 1, cs, ce, zero, true) == Ok(zero);
    assert PastTotals(o, k, 0, 1, cs, ce, zero, false) == Err;
  }

  // ---- All methods together ----

  /** What the state must satisfy, besides the verdict of validation, for the message to apply. */
  ghost predicate Ripe(c: Crypto, s: State, from: nat, body: Payload)
  {
    match body
    case PreDataOrder(o) => DatesAllow(Remembered(s, Pair(o.ob.user, o.ob.pro)), o)
    case AddDataOrder(q) => q.data.user in s.fs.verifyKey
    case UpdateChalEpoch(p) => EpochOver(s)
    case SegmentProof(p) => StillOwed(c, s, from, p) && NoneLate(s, p)
    case ConfirmPostIncome(e, i, _) => MayConfirm(s, from, e, i)
    case _ => true
  }

  /** A message that validation accepts is applied if and only if it is ripe, and then both states still
      agree. */
  lemma RipeDecides(c: Crypto, s0: State, v: Val, s: State, from: nat, body: Payload)
    requires Sim(s0, v, s) && UsersOk(s0) && ConfirmsOk(c, s) && Can(c, s0, v, from, body).1
    ensures Step(c, s, from, body).Ok? <==> Ripe(c, s, from, body)
    ensures Step(c, s, from, body).Ok? ==> Sim(s0, Can(c, s0, v, from, body).0, Step(c, s, from, body).value)
  {
    match body
    case PreDataOrder(o) => OrderDecides(c, s0, v, s, from, o);
    case AddDataOrder(q) => SequenceDecides(c, s0, v, s, from, q);
    case UpdateChalEpoch(p) => EpochDecides(c, s0, v, s, from, p);
    case SegmentProof(p) =>
      ProofApplies(c, s, from, p);
      if ApplyProof(c, s, from, p).Ok? { ProofAgrees(c, s0, v, s, from, p); }
    case ConfirmPostIncome(e, i, g) => ConfirmDecides(c, s0, v, s, from, e, i, g);
    case Malformed(_) =>
    case _ => AcceptedAgrees(c, s0, v, s, from, body);
  }

  lemma OrderDecides(c: Crypto, s0: State, v: Val, s: State, from: nat, o: SignedOrder)
    requires Sim(s0, v, s) && CanCreateOrder(c, s0, v, from, o).1
    ensures ApplyCreateOrder(c, s, from, o).Ok? <==> Ripe(c, s, from, PreDataOrder(o))
    ensures ApplyCreateOrder(c, s, from, o).Ok? ==>
            Sim(s0, CanCreateOrder(c, s0, v, from, o).0, ApplyCreateOrder(c, s, from, o).value)
  {
    OrderApplies(c, s0, v, s, from, o);
    var r := ApplyCreateOrder(c, s, from, o);
    if r.Ok? { OrderKeepsSim(c, s0, v, s, from, o, CanCreateOrder(c, s0, v, from, o).0, r.value); }
  }

  lemma SequenceDecides(c: Crypto, s0: State, v: Val, s: State, from: nat, q: SignedSeq)
    requires Sim(s0, v, s) && CanAddSeq(c, s0, v, from, q).1
    ensures ApplyAddSeq(c, s, from, q).Ok? <==> Ripe(c, s, from, AddDataOrder(q))
    ensures ApplyAddSeq(c, s, from, q).Ok? ==>
            Sim(s0, CanAddSeq(c, s0, v, from, q).0, ApplyAddSeq(c, s, from, q).value)
  {
    SequenceApplies(c, s0, v, s, from, q);
    var r := ApplyAddSeq(c, s, from, q);
    if r.Ok? { AddSeqSim(c, s0, v, s, from, q, CanAddSeq(c, s0, v, from, q).0, r.value); }
  }

  lemma EpochDecides(c: Crypto, s0: State, v: Val, s: State, from: nat, p: EpochParams)
    requires Sim(s0, v, s) && CanUpdateEpoch(c, s0, v, p).1
    ensures ApplyUpdateEpoch(c, s, p).Ok? <==> Ripe(c, s, from, UpdateChalEpoch(p))
    ensures ApplyUpdateEpoch(c, s, p).Ok? ==>
            Sim(s0, CanUpdateEpoch(c, s0, v, p).0, ApplyUpdateEpoch(c, s, p).value)
  {
    EpochApplies(c, s0, v, s, p);
    if ApplyUpdateEpoch(c, s, p).Ok? { EpochKeepsSim(c, s0, v, s, p); }
  }

  lemma ProofAgrees(c: Crypto, s0: State, v: Val, s: State, from: nat, p: SegProof)
    requires Sim(s0, v, s) && CanProve(c, s0, v, from, p).1 && ApplyProof(c, s, from, p).Ok?
    ensures Sim(s0, CanProve(c, s0, v, from, p).0, ApplyProof(c, s, from, p).value)
  {
    ProofKeepsSim(c, s0, v, s, from, p, CanProve(c, s0, v, from, p).0, ApplyProof(c, s, from, p).value);
  }

  lemma ConfirmDecides(c: Crypto, s0: State, v: Val, s: State, from: nat, epoch: nat, income: AccIncome, sig: Signature)
    requires Sim(s0, v, s) && ConfirmsOk(c, s) && CanConfirm(c, s0, v, from, epoch, income, sig).1
    ensures ApplyConfirm(c, s, from, epoch, income, sig).Ok? <==>
            Ripe(c, s, from, ConfirmPostIncome(epoch, income, sig))
    ensures ApplyConfirm(c, s, from, epoch, income, sig).Ok? ==>
            Sim(s0, CanConfirm(c, s0, v, from, epoch, income, sig).0,
                ApplyConfirm(c, s, from, epoch, income, sig).value)
  {
    ConfirmApplies(c, s0, v, s, from, epoch, income, sig);
    if ApplyConfirm(c, s, from, epoch, income, sig).Ok? { ConfirmKeepsSim(c, s0, v, s, from, epoch, income, sig); }
  }
}
