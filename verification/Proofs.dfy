/** What an accepted storage proof is: exactly which proofs are accepted, in terms of the sequences that
    the challenged orders hold, and what is paid for one. */
module Proofs {
  import opened Types
  import opened Arithmetic
  import opened Chain
  import opened Cache
  import opened Validation
  import opened OrderBook
  import opened Invariants
  import opened Differences
  import opened SegmentNames
  import opened Contracts

  // ---- What is asked for ----

  /** The counters a proof for an epoch is about: as recorded in that epoch, or the present ones. */
  function CountersFor(o: OrderDb, k: Pair, epoch: nat, present: NonceSeq): (nat, nat)
  {
    var key := PairEpoch(k, epoch);
    if key in o.stateAt then (o.stateAt[key].nonce, o.stateAt[key].seqNum) else (present.nonce, present.seqNum)
  }

  /** The order is stored and starts before the window ends. */
  predicate Started(o: OrderDb, k: Pair, n: nat, ce: int)
  {
    OrderKey(k, n) in o.base && o.base[OrderKey(k, n)].order.ob.start < ce
  }

  /** How much of the window the order covers. */
  function Overlap(b: OrderBase, cs: int, ce: int): int
  {
    Min(b.end, ce) - Max(b.start, cs)
  }

  /** The time that is paid for once the orders up to n have been looked at: that of the last of them
      that reaches over an end of the window, `first` if none does. */
  function Span(o: OrderDb, k: Pair, lo: nat, n: nat, first: int, cs: int, ce: int): int
    requires lo <= n
    decreases n
  {
    if lo == n then first
    else if !Started(o, k, n - 1, ce) then Span(o, k, lo, n - 1, first, cs, ce)
    else
      var b := o.base[OrderKey(k, n - 1)].order.ob;
      if b.start > cs && b.end < ce then Span(o, k, lo, n - 1, first, cs, ce) else Overlap(b, cs, ce)
  }

  /** Number of sequences of a committed order. */
  function Whole(o: OrderDb, k: Pair, n: nat): nat
  {
    if OrderKey(k, n) in o.base then o.base[OrderKey(k, n)].seqNum else 0
  }

  /** What the first m sequences of order n are worth per second, deletions taken off. */
  function Rate(o: OrderDb, k: Pair, n: nat, m: nat): int
  {
    PriceAfter(o, k, n, m) - SumDel(o, k, n, m).price
  }

  /** The field element of what is left of the first m sequences of order n. */
  function Element(o: OrderDb, k: Pair, n: nat, m: nat): Fr
  {
    FrSub(SumFr(o, k, n, m), SumDel(o, k, n, m).fr)
  }

  function PriceOver(o: OrderDb, k: Pair, lo: nat, hi: nat, first: int, cs: int, ce: int): int
    requires lo <= hi
    decreases hi
  {
    if lo == hi then 0
    else
      PriceOver(o, k, lo, hi - 1, first, cs, ce) +
      if Started(o, k, hi - 1, ce)
      then Rate(o, k, hi - 1, Whole(o, k, hi - 1)) * Span(o, k, lo, hi, first, cs, ce)
      else 0
  }

  function SizeOver(o: OrderDb, k: Pair, lo: nat, hi: nat, ce: int): nat
    requires lo <= hi
    decreases hi
  {
    if lo == hi then 0
    else
      SizeOver(o, k, lo, hi - 1, ce) +
      if Started(o, k, hi - 1, ce) then SizeAfter(o, k, hi - 1, Whole(o, k, hi - 1)) else 0
  }

  function DeletedOver(o: OrderDb, k: Pair, lo: nat, hi: nat, ce: int): nat
    requires lo <= hi
    decreases hi
  {
    if lo == hi then 0
    else
      DeletedOver(o, k, lo, hi - 1, ce) +
      if Started(o, k, hi - 1, ce) then SumDel(o, k, hi - 1, Whole(o, k, hi - 1)).size else 0
  }

  function ElementOver(o: OrderDb, k: Pair, lo: nat, hi: nat, ce: int): Fr
    requires lo <= hi
    decreases hi
  {
    if lo == hi then 0
    else
      FrAdd(ElementOver(o, k, lo, hi - 1, ce),
            if Started(o, k, hi - 1, ce) then Element(o, k, hi - 1, Whole(o, k, hi - 1)) else 0)
  }

  /** Every order asked about is there and not over before the window, unless it starts after it. */
  ghost predicate Askable(o: OrderDb, k: Pair, lo: nat, n: nat, m: nat, cs: int, ce: int)
  {
    && (m > 0 ==> OrderKey(k, n) in o.base)
    && (m > 0 && Started(o, k, n, ce) ==>
          o.base[OrderKey(k, n)].order.ob.end > cs && forall i: nat | i < m :: SeqKey(k, n, i) in o.seqs)
    && forall i: nat | lo <= i < n ::
         OrderKey(k, i) in o.base && (Started(o, k, i, ce) ==> o.base[OrderKey(k, i)].order.ob.end > cs)
  }

  /** Number of sequences asked about of order n, of which m are recorded. */
  function InTime(o: OrderDb, k: Pair, n: nat, m: nat, ce: int): nat
  {
    if Started(o, k, n, ce) then m else 0
  }

  /** The time the current order starts the reckoning with. */
  function FirstSpan(o: OrderDb, k: Pair, n: nat, m: nat, cs: int, ce: int): int
  {
    if m == 0 then 0 else Span(o, k, n, n + 1, 0, cs, ce)
  }

  /** The proof offers the size, the price and a proof over the element of everything asked about. */
  predicate Offers(c: Crypto, o: OrderDb, n: nat, m: nat, vk: nat, seed: nat, cs: int, ce: int, p: SegProof)
    requires p.orderStart <= n
  {
    var k, lo := Pair(p.user, p.pro), p.orderStart;
    var a := InTime(o, k, n, m, ce);
    var first := FirstSpan(o, k, n, a, cs, ce);
    && p.size == (SizeAfter(o, k, n, a) + SizeOver(o, k, lo, n, ce)
                  - (SumDel(o, k, n, a).size + DeletedOver(o, k, lo, n, ce))) % UINT64
    && p.price == Rate(o, k, n, a) * first + PriceOver(o, k, lo, n, first, cs, ce)
    && c.proofOk(vk, Challenge(vk, p.user, seed, FrAdd(Element(o, k, n, a), ElementOver(o, k, lo, n, ce))), p.proof)
  }

  /** No order before the current one starts after the window. */
  ghost predicate AllStarted(o: OrderDb, k: Pair, lo: nat, n: nat, ce: int)
  {
    forall i: nat | lo <= i < n :: Started(o, k, i, ce)
  }

  // ---- The sums computed ----

  lemma DurationIs(b: OrderBase, cs: int, ce: int, previous: int)
    requires cs < ce && b.start < ce && b.end > cs
    ensures Duration(b.start, b.end, cs, ce, previous)
            == if b.start > cs && b.end < ce then previous else Overlap(b, cs, ce)
  {
  }

  lemma {:induction false} SequencesThere(o: OrderDb, k: Pair, n: nat, m: nat, total: nat, acc: Acc)
    requires m <= total
    ensures SeqTotals(o, k, n, m, total, acc).Ok? <==> forall i: nat | i < m :: SeqKey(k, n, i) in o.seqs
  {
    if m > 0 { SequencesThere(o, k, n, m - 1, total, acc); }
  }

  /** The sequences of the current order. */
  lemma CurrentIs(o: OrderDb, k: Pair, n: nat, m: nat, sub: nat, cs: int, ce: int)
    requires cs < ce
    ensures var r := CurrentTotals(o, k, NonceSeq(n, m, sub), cs, ce);
            var a := InTime(o, k, n, m, ce);
            var first := FirstSpan(o, k, n, a, cs, ce);
            && (r.Ok? <==> Askable(o, k, n, n, m, cs, ce))
            && (r.Ok? ==> r.value == Acc(Rate(o, k, n, a) * first, SizeAfter(o, k, n, a), SumDel(o, k, n, a).size,
                                         Element(o, k, n, a), first))
  {
    if m > 0 && Started(o, k, n, ce) {
      var b := o.base[OrderKey(k, n)].order.ob;
      if b.end > cs {
        DurationIs(b, cs, ce, 0);
        var acc := Acc(0, 0, 0, 0, Duration(b.start, b.end, cs, ce, 0));
        assert Span(o, k, n, n, 0, cs, ce) == 0;
        SequencesThere(o, k, n, m, m, acc);
        if Askable(o, k, n, n, m, cs, ce) { SeqTotalsAre(o, k, n, m, m, acc); }
      }
    }
  }

  /** The earlier orders. */
  lemma {:induction false} PastIs(o: OrderDb, k: Pair, lo: nat, hi: nat, cs: int, ce: int, acc: Acc)
    requires OrdersOk(o) && lo <= hi && cs < ce
    ensures var r := PastTotals(o, k, lo, hi, cs, ce, acc, true);
            && (r.Ok? <==> Askable(o, k, lo, hi, 0, cs, ce))
            && (r.Ok? ==> r.value == Acc(acc.price + PriceOver(o, k, lo, hi, acc.dur, cs, ce),
                                         acc.size + SizeOver(o, k, lo, hi, ce), acc.del + DeletedOver(o, k, lo, hi, ce),
                                         FrAdd(acc.fr, ElementOver(o, k, lo, hi, ce)),
                                           Span(o, k, lo, hi, acc.dur, cs, ce)))
    decreases hi
  {
    if lo < hi {
      PastIs(o, k, lo, hi - 1, cs, ce, acc);
      var before := PastTotals(o, k, lo, hi - 1, cs, ce, acc, true);
      assert Askable(o, k, lo, hi, 0, cs, ce) ==> Askable(o, k, lo, hi - 1, 0, cs, ce);
      if before.Ok? && Started(o, k, hi - 1, ce) {
        var of := o.base[OrderKey(k, hi - 1)];
        assert OrderOk(o, OrderKey(k, hi - 1));
        FrAddAssoc(acc.fr, ElementOver(o, k, lo, hi - 1, ce), Element(o, k, hi - 1, of.seqNum));
        if of.order.ob.end > cs { DurationIs(of.order.ob, cs, ce, before.value.dur); }
      }
    }
  }

  // ---- Which proofs are accepted ----

  /** What is required of a proof apart from the orders: its sender, its epoch, not proven yet, a known
      user, something to prove, the right range and a window. */
  predicate InOrder(prove: nat, vk: Option<nat>, current: ChalEpoch, previous: ChalEpoch, from: nat, p: SegProof,
                    n: nat, m: nat)
  {
    && from == p.pro && p.epoch == current.epoch && prove <= p.epoch && vk.Some?
    && (n > 0 || m > 0) && p.orderStart <= p.orderEnd && p.orderEnd == n && previous.slot < current.slot
  }

  /** The proof is the one that is due. */
  ghost predicate Due(c: Crypto, o: OrderDb, present: NonceSeq, prove: nat, vk: Option<nat>, current: ChalEpoch,
                      previous: ChalEpoch, from: nat, p: SegProof)
  {
    var k, cs, ce := Pair(p.user, p.pro), SlotTime(previous.slot), SlotTime(current.slot);
    var (n, m) := CountersFor(o, k, p.epoch, present);
    && InOrder(prove, vk, current, previous, from, p, n, m)
    && Askable(o, k, p.orderStart, n, m, cs, ce)
    && Offers(c, o, n, m, vk.value, current.seed, cs, ce, p)
  }

  lemma TotalsAre(o: OrderDb, k: Pair, ns: NonceSeq, lo: nat, cs: int, ce: int)
    requires OrdersOk(o) && lo <= ns.nonce && cs < ce
    ensures var r := ChalTotals(o, k, ns, lo, cs, ce, true);
            var a := InTime(o, k, ns.nonce, ns.seqNum, ce);
            var first := FirstSpan(o, k, ns.nonce, a, cs, ce);
            && (r.Ok? <==> Askable(o, k, lo, ns.nonce, ns.seqNum, cs, ce))
            && (r.Ok? ==>
                  && r.value.price == Rate(o, k, ns.nonce, a) * first + PriceOver(o, k, lo, ns.nonce, first, cs, ce)
                  && r.value.size == SizeAfter(o, k, ns.nonce, a) + SizeOver(o, k, lo, ns.nonce, ce)
                  && r.value.del == SumDel(o, k, ns.nonce, a).size + DeletedOver(o, k, lo, ns.nonce, ce)
                  && r.value.fr == FrAdd(Element(o, k, ns.nonce, a), ElementOver(o, k, lo, ns.nonce, ce)))
  {
    CurrentIs(o, k, ns.nonce, ns.seqNum, ns.subNonce, cs, ce);
    var cur := CurrentTotals(o, k, ns, cs, ce);
    if cur.Ok? { PastIs(o, k, lo, ns.nonce, cs, ce, cur.value); }
    AskableParts(o, k, lo, ns.nonce, ns.seqNum, cs, ce);
  }

  lemma AskableParts(o: OrderDb, k: Pair, lo: nat, n: nat, m: nat, cs: int, ce: int)
    requires lo <= n
    ensures Askable(o, k, lo, n, m, cs, ce) <==> Askable(o, k, n, n, m, cs, ce) && Askable(o, k, lo, n, 0, cs, ce)
  {
  }

  lemma LenientPrice(c: Crypto, o: OrderDb, info: OrderInfo, vk: Option<nat>, current: ChalEpoch, previous: ChalEpoch,
                     from: nat, p: SegProof)
    requires OrdersOk(o)
    ensures var r := ProvenPrice(c, o, info, vk, current, previous, from, p, true);
            && (r.Ok? <==> Due(c, o, info.ns, info.prove, vk, current, previous, from, p))
            && (r.Ok? ==> r.value == p.price)
  {
    var k, cs, ce := Pair(p.user, p.pro), SlotTime(previous.slot), SlotTime(current.slot);
    var ns := Challenged(o, k, p.epoch, info.ns);
    if p.orderStart <= ns.nonce && cs < ce { TotalsAre(o, k, ns, p.orderStart, cs, ce); }
  }

  lemma StrictPrice(c: Crypto, o: OrderDb, info: OrderInfo, vk: Option<nat>, current: ChalEpoch, previous: ChalEpoch,
                    from: nat, p: SegProof)
    requires OrdersOk(o)
    ensures var r := ProvenPrice(c, o, info, vk, current, previous, from, p, false);
            && (r.Ok? <==> Due(c, o, info.ns, info.prove, vk, current, previous, from, p)
                           && AllStarted(o, Pair(p.user, p.pro), p.orderStart, p.orderEnd, SlotTime(current.slot)))
            && (r.Ok? ==> r.value == p.price)
  {
    LenientPrice(c, o, info, vk, current, previous, from, p);
    if ProvenPrice(c, o, info, vk, current, previous, from, p, true).Ok? {
      PriceDivides(c, o, o, info, info, vk, current, previous, from, p);
      StartedIsNotLate(o, Pair(p.user, p.pro), p.orderStart, p.orderEnd, SlotTime(current.slot));
    } else {
      StrictIsLenient(c, o, info, vk, current, previous, from, p);
    }
  }

  lemma StartedIsNotLate(o: OrderDb, k: Pair, lo: nat, n: nat, ce: int)
    requires forall i: nat | lo <= i < n :: OrderKey(k, i) in o.base
    ensures AllStarted(o, k, lo, n, ce) <==> forall i: nat | lo <= i < n :: !Late(o, k, i, ce)
  {
    if forall i: nat | lo <= i < n :: !Late(o, k, i, ce) {
      forall i: nat | lo <= i < n ensures Started(o, k, i, ce) { assert !Late(o, k, i, ce); }
    }
    if AllStarted(o, k, lo, n, ce) {
      forall i: nat | lo <= i < n ensures !Late(o, k, i, ce) { assert Started(o, k, i, ce); }
    }
  }

  /** The names of all segments in the first m sequences of an order. */
  function OrderNames(o: OrderDb, k: Pair, n: nat, m: nat): seq<Name>
  {
    if m == 0 then [] else OrderNames(o, k, n, m - 1) + Names(SeqAt(o, k, n, m - 1).data.segments)
  }

  /** In every reachable state the elements of the sequences of an order sum up the names of its segments. */
  lemma ElementsAreNames(c: Crypto, s: State, k: Pair, n: nat, m: nat)
    requires Reachable(c, s) && OrderKey(k, n) in s.orders.base && 0 < m <= s.orders.base[OrderKey(k, n)].seqNum
    ensures k.user in s.fs.verifyKey
    ensures SumFr(s.orders, k, n, m) == Sum(c, s.fs.verifyKey[k.user], OrderNames(s.orders, k, n, m))
  {
    ReachableOrders(c, s);
    ReachableRecords(c, s);
    assert OrderOk(s.orders, OrderKey(k, n));
    assert SeqRecord(c, s, SeqKey(k, n, 0));
    NamesOfOrder(c, s, k, n, m);
  }

  lemma {:induction false} NamesOfOrder(c: Crypto, s: State, k: Pair, n: nat, m: nat)
    requires SeqRecords(c, s) && k.user in s.fs.verifyKey && forall i: nat | i < m :: SeqKey(k, n, i) in s.orders.seqs
    ensures SumFr(s.orders, k, n, m) == Sum(c, s.fs.verifyKey[k.user], OrderNames(s.orders, k, n, m))
  {
    if m > 0 {
      NamesOfOrder(c, s, k, n, m - 1);
      assert SeqRecord(c, s, SeqKey(k, n, m - 1));
      SumOfTwo(c, s.fs.verifyKey[k.user], OrderNames(s.orders, k, n, m - 1),
               Names(SeqAt(s.orders, k, n, m - 1).data.segments));
    }
  }

  /** In every reachable state: a proof is applied if and only if it is the one that is due, over orders
      that have all started by the end of the window. */
  lemma AppliedProof(c: Crypto, s: State, from: nat, p: SegProof)
    requires Reachable(c, s)
    ensures var k := Pair(p.user, p.pro);
            ApplyProof(c, s, from, p).Ok? <==>
              && Due(c, s.orders, Ns(s.orders, k), Get(s.pay.prove, k, 0), Find(s.fs.verifyKey, p.user), s.ce.current,
                     s.ce.previous, from, p)
              && AllStarted(s.orders, k, p.orderStart, p.orderEnd, SlotTime(s.ce.current.slot))
  {
    ReachableOrders(c, s);
    StrictPrice(c, s.orders, OrderOf(s, Pair(p.user, p.pro)), Find(s.fs.verifyKey, p.user), s.ce.current, s.ce.previous,
                from, p);
  }

  function More(i: Income, value: int): Income
  {
    Income(i.value + value, i.penalty)
  }

  /** What an applied proof does: the price it names is paid, in all five places for its epoch, the epoch
      counts as proven, and no order changes. */
  lemma ProofPays(c: Crypto, s: State, from: nat, p: SegProof, t: State)
    requires Reachable(c, s) && ApplyProof(c, s, from, p) == Ok(t)
    ensures var k, none := Pair(p.user, p.pro), Income(0, 0);
            && Get(t.pay.pair, k, none) == More(Get(s.pay.pair, k, none), p.price)
            && Get(t.pay.pairAt, PairEpoch(k, p.epoch), none)
               == More(Get(s.pay.pairAt, PairEpoch(k, p.epoch), none), p.price)
            && Get(t.pay.pro, p.pro, none) == More(Get(s.pay.pro, p.pro, none), p.price)
            && Get(t.pay.proAt, ProEpoch(p.pro, p.epoch), none) == Get(t.pay.pro, p.pro, none)
            && Get(t.pay.prove, k, 0) == p.epoch + 1
            && (forall j: Pair | j != k ::
                  Find(t.pay.pair, j) == Find(s.pay.pair, j) && Find(t.pay.prove, j) == Find(s.pay.prove, j))
            && t.pay.confirm == s.pay.confirm && t.fs == s.fs && t.roles == s.roles && t.ce == s.ce
            && t.orders.base == s.orders.base && t.orders.seqs == s.orders.seqs && t.orders.state == s.orders.state
  {
    ReachableOrders(c, s);
    StrictPrice(c, s.orders, OrderOf(s, Pair(p.user, p.pro)), Find(s.fs.verifyKey, p.user), s.ce.current, s.ce.previous,
                from, p);
  }

  /** Validation accepts a proof if and only if it is the one that is due, by the stored orders and the
      scratch records; an order that starts after the window counts for nothing. */
  lemma ValidatedProof(c: Crypto, s: State, v: Val, from: nat, p: SegProof)
    requires Reachable(c, s)
    ensures var x, u := VOrder(s, v, Pair(p.user, p.pro)), VUser(s.fs, v.users, p.user);
            CanProve(c, s, v, from, p).1 <==>
            Due(c, s.orders, x.ns, x.prove, if u.Some? then Some(u.value.verifyKey)
                else None, v.current, v.previous, from, p)
  {
    var x, u := VOrder(s, v, Pair(p.user, p.pro)), VUser(s.fs, v.users, p.user);
    ReachableOrders(c, s);
    LenientPrice(c, s.orders, x, if u.Some? then Some(u.value.verifyKey) else None, v.current, v.previous, from, p);
  }
}
