/** Storage income: what a pair has earned never exceeds what its orders are worth. */
module Earnings {
  import opened Types
  import opened Arithmetic
  import opened Chain
  import opened OrderBook
  import opened Epochs
  import opened Growth

  /** Seconds of [start, end) that lie before t. */
  function Elapsed(start: int, end: int, t: int): int
  {
    Max(0, Min(t, end) - start)
  }

  /** The most order n of a pair can have paid for the time before t. */
  function Earned(o: OrderDb, k: Pair, n: nat, t: int): int
  {
    if OrderKey(k, n) !in o.base then 0
    else
      var q := o.base[OrderKey(k, n)].order;
      q.price * Elapsed(q.ob.start, q.ob.end, t)
  }

  function EarnedBelow(o: OrderDb, k: Pair, n: nat, t: int): int
  {
    if n == 0 then 0 else EarnedBelow(o, k, n - 1, t) + Earned(o, k, n - 1, t)
  }

  /** Price times whole duration, summed over the first n orders of a pair. */
  function Worth(o: OrderDb, k: Pair, n: nat): int
  {
    if n == 0 then 0
    else if OrderKey(k, n - 1) !in o.base then Worth(o, k, n - 1)
    else
      var q := o.base[OrderKey(k, n - 1)].order;
      Worth(o, k, n - 1) + q.price * (q.ob.end - q.ob.start)
  }

  function OrderCount(o: OrderDb, k: Pair): nat
  {
    Ns(o, k).nonce + 1
  }

  function Prove(s: State, k: Pair): nat
  {
    Get(s.pay.prove, k, 0)
  }

  function IncomeOf(s: State, k: Pair): int
  {
    Get(s.pay.pair, k, Income(0, 0)).value
  }

  /** An order whose dates lie strictly inside a window. */
  predicate Inside(b: OrderBase, cs: int, ce: int)
  {
    cs < b.start && b.end < ce
  }

  /** No order of the pair lies strictly inside the window. */
  ghost predicate ClearOf(o: OrderDb, k: Pair, cs: int, ce: int)
  {
    forall n: nat | OrderKey(k, n) in o.base :: !Inside(o.base[OrderKey(k, n)].order.ob, cs, ce)
  }

  /** No order of the pair lies strictly inside a recorded challenge window. */
  ghost predicate ClearWindows(o: OrderDb, clock: Clock, k: Pair)
  {
    forall e: nat | e < clock.epoch :: ClearWindow(o, clock, k, e)
  }

  ghost predicate ClearWindow(o: OrderDb, clock: Clock, k: Pair, e: nat)
  {
    ClearOf(o, k, SlotTime(Boundary(clock, e)), SlotTime(Boundary(clock, e + 1)))
  }

  /** Windows no longer than the shortest order are clear of every order. */
  lemma ShortWindowsClear(o: OrderDb, clock: Clock, k: Pair)
    requires OrdersOk(o) && ShortWindows(clock)
    ensures ClearWindows(o, clock, k)
  {
    forall e: nat | e < clock.epoch ensures ClearWindow(o, clock, k, e) {
      forall n: nat | OrderKey(k, n) in o.base
        ensures !Inside(o.base[OrderKey(k, n)].order.ob, SlotTime(Boundary(clock, e)), SlotTime(Boundary(clock, e + 1)))
      {
        assert OrderOk(o, OrderKey(k, n));
      }
    }
  }

  /** More orders and more windows only make the condition stronger. */
  lemma ClearBefore(o: OrderDb, o': OrderDb, clock: Clock, clock': Clock, k: Pair)
    requires OrdersGrow(o, o') && ClearWindows(o', clock', k) && clock.epoch <= clock'.epoch
    requires forall i: nat | i <= clock.epoch :: Boundary(clock', i) == Boundary(clock, i)
    ensures ClearWindows(o, clock, k)
  {
    forall e: nat | e < clock.epoch ensures ClearWindow(o, clock, k, e) {
      assert ClearWindow(o', clock', k, e);
      forall n: nat | OrderKey(k, n) in o.base
        ensures !Inside(o.base[OrderKey(k, n)].order.ob, SlotTime(Boundary(clock, e)), SlotTime(Boundary(clock, e + 1)))
      {
        assert OrderGrows(o, o', OrderKey(k, n));
      }
    }
  }

  ghost predicate PairPaid(s: State, k: Pair)
  {
    && Prove(s, k) <= s.ce.epoch
    && (ClearWindows(s.orders, s.ce, k) ==>
          IncomeOf(s, k) <= EarnedBelow(s.orders, k, OrderCount(s.orders, k), SlotTime(Boundary(s.ce, Prove(s, k)))))
  }

  /** A pair proven up to epoch e has been paid no more than its orders can have earned by the end
      of window e. */
  ghost predicate EarningsOk(s: State)
  {
    forall k: Pair :: PairPaid(s, k)
  }

  // ---- One order in one window ----

  /** The code's duration is the overlap of order and window, unless the order lies strictly inside
      the window: then it is whatever the previous order left behind. */
  lemma DurationIsOverlap(start: int, end: int, cs: int, ce: int, previous: int)
    requires cs < ce && start < end && start < ce && end > cs
    ensures Duration(start, end, cs, ce, previous) == Min(end, ce) - Max(start, cs)
            <==> (start <= cs || end >= ce || previous == end - start)
    ensures Min(end, ce) - Max(start, cs) == Elapsed(start, end, ce) - Elapsed(start, end, cs)
  {
  }

  lemma MulMonotone(a: int, b: int, d: int)
    requires a <= b && d >= 0
    ensures a * d <= b * d
  {
  }

  lemma MulSub(p: int, a: int, b: int)
    ensures p * a - p * b == p * (a - b)
  {
  }

  lemma PriceNonNegative(o: OrderDb, key: OrderKey)
    requires OrdersOk(o) && key in o.base
    ensures o.base[key].order.price >= 0 && o.base[key].del.price >= 0
    ensures o.base[key].order.ob.end - o.base[key].order.ob.start >= ORDER_MIN
  {
    assert OrderOk(o, key);
    PricesGrow(o, key.pair, key.nonce, 0, o.base[key].seqNum);
    DelNonNegative(o, key.pair, key.nonce, o.base[key].seqNum);
  }

  /** Earnings of one order grow with time, and by price times overlap across a window. */
  lemma EarnedOver(o: OrderDb, k: Pair, n: nat, cs: int, ce: int)
    requires OrdersOk(o) && cs <= ce
    ensures Earned(o, k, n, cs) <= Earned(o, k, n, ce)
    ensures OrderKey(k, n) in o.base ==>
              var q := o.base[OrderKey(k, n)].order;
              Earned(o, k, n, ce) - Earned(o, k, n, cs) ==
              q.price * (Elapsed(q.ob.start, q.ob.end, ce) - Elapsed(q.ob.start, q.ob.end, cs))
  {
    if OrderKey(k, n) in o.base {
      PriceNonNegative(o, OrderKey(k, n));
      var q := o.base[OrderKey(k, n)].order;
      var a, b := Elapsed(q.ob.start, q.ob.end, cs), Elapsed(q.ob.start, q.ob.end, ce);
      MulSub(q.price, b, a);
      MulMonotone(0, q.price, b - a);
    }
  }

  // ---- Sums over orders ----

  /** More orders and more time only add. */
  lemma {:induction false} EarnedBelowOver(o: OrderDb, k: Pair, m: nat, n: nat, cs: int, ce: int)
    requires OrdersOk(o) && m <= n && cs <= ce
    ensures 0 <= EarnedBelow(o, k, m, ce) - EarnedBelow(o, k, m, cs)
              <= EarnedBelow(o, k, n, ce) - EarnedBelow(o, k, n, cs)
  {
    if n > 0 {
      EarnedOver(o, k, n - 1, cs, ce);
      if m == n {
        EarnedBelowOver(o, k, m - 1, m - 1, cs, ce);
      } else {
        EarnedBelowOver(o, k, m, n - 1, cs, ce);
      }
    }
  }

  /** Orders past the current one do not exist and add nothing. */
  lemma {:induction false} NothingBeyond(o: OrderDb, k: Pair, n: nat, t: int)
    requires OrdersOk(o) && n >= OrderCount(o, k)
    ensures EarnedBelow(o, k, n, t) == EarnedBelow(o, k, OrderCount(o, k), t)
  {
    if n > OrderCount(o, k) {
      NothingBeyond(o, k, n - 1, t);
      assert OrderKey(k, n - 1) in o.base ==> OrderOk(o, OrderKey(k, n - 1));
    }
  }

  lemma {:induction false} EarnedBelowGrows(o: OrderDb, o': OrderDb, k: Pair, m: nat, n: nat, t: int)
    requires OrdersOk(o) && OrdersOk(o') && OrdersGrow(o, o') && m <= n
    ensures EarnedBelow(o, k, m, t) <= EarnedBelow(o', k, n, t)
  {
    if n > 0 {
      var key := OrderKey(k, n - 1);
      assert OrderGrows(o, o', key);
      if key in o'.base {
        PriceNonNegative(o', key);
        var q := o'.base[key].order;
        MulMonotone(0, q.price, Elapsed(q.ob.start, q.ob.end, t));
        if key in o.base {
          MulMonotone(o.base[key].order.price, q.price, Elapsed(q.ob.start, q.ob.end, t));
        }
      }
      if m == n {
        EarnedBelowGrows(o, o', k, m - 1, n - 1, t);
      } else {
        EarnedBelowGrows(o, o', k, m, n - 1, t);
      }
    }
  }

  lemma {:induction false} EarnedWithinWorth(o: OrderDb, k: Pair, n: nat, t: int)
    requires OrdersOk(o)
    ensures EarnedBelow(o, k, n, t) <= Worth(o, k, n)
  {
    if n > 0 {
      EarnedWithinWorth(o, k, n - 1, t);
      if OrderKey(k, n - 1) in o.base {
        PriceNonNegative(o, OrderKey(k, n - 1));
        var q := o.base[OrderKey(k, n - 1)].order;
        var a, b := Elapsed(q.ob.start, q.ob.end, t), q.ob.end - q.ob.start;
        MulSub(q.price, b, a);
        MulMonotone(0, q.price, b - a);
      }
    }
  }

  // ---- One challenge ----

  /** What one committed order adds to a challenge. */
  lemma OrderPays(o: OrderDb, k: Pair, n: nat, cs: int, ce: int, a: Acc)
    requires OrdersOk(o) && OrderKey(k, n) in o.base && cs < ce && !Inside(o.base[OrderKey(k, n)].order.ob, cs, ce)
    requires o.base[OrderKey(k, n)].order.ob.start < ce && o.base[OrderKey(k, n)].order.ob.end > cs
    ensures AddOrder(a, o.base[OrderKey(k, n)], cs, ce).price <= a.price + Earned(o, k, n, ce) - Earned(o, k, n, cs)
  {
    var of := o.base[OrderKey(k, n)];
    var b := of.order.ob;
    PriceNonNegative(o, OrderKey(k, n));
    DurationIsOverlap(b.start, b.end, cs, ce, a.dur);
    EarnedOver(o, k, n, cs, ce);
    MulMonotone(of.order.price - of.del.price, of.order.price, Duration(b.start, b.end, cs, ce, a.dur));
  }

  lemma {:induction false} PastPays(o: OrderDb, k: Pair, lo: nat, hi: nat, cs: int, ce: int, acc: Acc)
    requires OrdersOk(o) && lo <= hi && cs < ce && ClearOf(o, k, cs, ce)
    ensures match PastTotals(o, k, lo, hi, cs, ce, acc, false)
            case Err => true
            case Ok(a) => a.price <= acc.price + EarnedBelow(o, k, hi, ce) - EarnedBelow(o, k, hi, cs)
    decreases hi
  {
    EarnedBelowOver(o, k, hi, hi, cs, ce);
    if lo < hi {
      PastPays(o, k, lo, hi - 1, cs, ce, acc);
      match PastTotals(o, k, lo, hi - 1, cs, ce, acc, false)
      case Err =>
      case Ok(a) =>
        if OrderKey(k, hi - 1) in o.base {
          var b := o.base[OrderKey(k, hi - 1)].order.ob;
          if b.start < ce && b.end > cs { OrderPays(o, k, hi - 1, cs, ce, a); }
        }
    }
  }

  /** What the sequences of the challenged current order add, even if the order has grown since. */
  lemma CurrentPays(o: OrderDb, k: Pair, ns: NonceSeq, cs: int, ce: int)
    requires OrdersOk(o) && cs < ce && ClearOf(o, k, cs, ce)
    ensures match CurrentTotals(o, k, ns, cs, ce)
            case Err => true
            case Ok(a) => a.price <= Earned(o, k, ns.nonce, ce) - Earned(o, k, ns.nonce, cs)
  {
    EarnedOver(o, k, ns.nonce, cs, ce);
    var key, m := OrderKey(k, ns.nonce), ns.seqNum;
    if CurrentTotals(o, k, ns, cs, ce).Ok? && m > 0 && o.base[key].order.ob.start < ce {
      var of := o.base[key];
      var dur := Duration(of.order.ob.start, of.order.ob.end, cs, ce, 0);
      assert SeqKey(k, ns.nonce, m - 1) in o.seqs;
      assert SeqOk(o, SeqKey(k, ns.nonce, m - 1)) && OrderOk(o, key);
      SeqTotalsAre(o, k, ns.nonce, m, m, Acc(0, 0, 0, 0, dur));
      PricesGrow(o, k, ns.nonce, m, of.seqNum);
      DelNonNegative(o, k, ns.nonce, m);
      DurationIsOverlap(of.order.ob.start, of.order.ob.end, cs, ce, 0);
      MulMonotone(PriceAfter(o, k, ns.nonce, m) - SumDel(o, k, ns.nonce, m).price, of.order.price, dur);
    }
  }

  /** A challenge pays at most what the pair's orders earn in its window. */
  lemma ChallengePays(o: OrderDb, k: Pair, ns: NonceSeq, lo: nat, cs: int, ce: int)
    requires OrdersOk(o) && lo <= ns.nonce && cs < ce && ClearOf(o, k, cs, ce)
    ensures match ChalTotals(o, k, ns, lo, cs, ce, false)
            case Err => true
            case Ok(a) => var n := OrderCount(o, k); a.price <= EarnedBelow(o, k, n, ce) - EarnedBelow(o, k, n, cs)
  {
    CurrentPays(o, k, ns, cs, ce);
    match CurrentTotals(o, k, ns, cs, ce)
    case Err =>
    case Ok(a) =>
      PastPays(o, k, lo, ns.nonce, cs, ce, a);
      var n, m := OrderCount(o, k), ns.nonce + 1;
      if m <= n {
        EarnedBelowOver(o, k, m, n, cs, ce);
      } else {
        NothingBeyond(o, k, m, cs);
        NothingBeyond(o, k, m, ce);
      }
  }

  /** The failing family: an order strictly inside the window is paid for as long as the order before
      it. With nothing deleted, a challenge over an order that covers the window and one that lies
      inside it pays more than the two earn there. */
  lemma LongWindowOverpays(o: OrderDb, k: Pair, cs: int, ce: int)
    requires OrdersOk(o) && cs < ce && OrderKey(k, 0) in o.base && OrderKey(k, 1) in o.base
    requires var of := o.base[OrderKey(k, 0)]; of.order.ob.start <= cs && ce <= of.order.ob.end && of.del.price == 0
    requires var of := o.base[OrderKey(k, 1)]; Inside(of.order.ob, cs, ce) && of.del.price == 0 && of.order.price > 0
    ensures var r := ChalTotals(o, k, NonceSeq(2, 0, 0), 0, cs, ce, false);
            r.Ok? && r.value.price > EarnedBelow(o, k, 2, ce) - EarnedBelow(o, k, 2, cs)
  {
    var x, y := o.base[OrderKey(k, 0)], o.base[OrderKey(k, 1)];
    var zero := Acc(0, 0, 0, 0, 0);
    PriceNonNegative(o, OrderKey(k, 1));
    EarnedOver(o, k, 0, cs, ce);
    EarnedOver(o, k, 1, cs, ce);
    assert PastTotals(o, k, 0, 1, cs, ce, zero, false) == Ok(AddOrder(zero, x, cs, ce));
    assert PastTotals(o, k, 0, 2, cs, ce, zero, false) == Ok(AddOrder(AddOrder(zero, x, cs, ce), y, cs, ce));
    MulSub(y.order.price, ce - cs, y.order.ob.end - y.order.ob.start);
    MulMonotone(1, y.order.price, ce - cs - (y.order.ob.end - y.order.ob.start));
    TwoOrders(o, k, ce);
    TwoOrders(o, k, cs);
  }

  lemma TwoOrders(o: OrderDb, k: Pair, t: int)
    ensures EarnedBelow(o, k, 2, t) == Earned(o, k, 0, t) + Earned(o, k, 1, t)
  {
    assert EarnedBelow(o, k, 1, t) == EarnedBelow(o, k, 0, t) + Earned(o, k, 0, t);
  }

  // ---- Preservation ----

  /** The books of the proven pair, from what an accepted proof establishes. */
  lemma ProvenPairPaid(s: State, o': OrderDb, k: Pair, e: nat, ns: NonceSeq, lo: nat, price: int)
    requires OrdersOk(s.orders) && OrdersOk(o') && OrdersGrow(s.orders, o') && ClockOk(s) && PairPaid(s, k)
    requires s.ce.epoch == e + 1 && Prove(s, k) <= e && lo <= ns.nonce
    requires var cs, ce := SlotTime(Boundary(s.ce, e)), SlotTime(Boundary(s.ce, e + 1));
             cs < ce && ChalTotals(s.orders, k, ns, lo, cs, ce, false).Ok?
               && ChalTotals(s.orders, k, ns, lo, cs, ce, false).value.price == price
    ensures ClearWindows(o', s.ce, k) ==>
              IncomeOf(s, k) + price <= EarnedBelow(o', k, OrderCount(s.orders, k), SlotTime(Boundary(s.ce, e + 1)))
  {
    if ClearWindows(o', s.ce, k) {
      var n := OrderCount(s.orders, k);
      var cs, ce := SlotTime(Boundary(s.ce, e)), SlotTime(Boundary(s.ce, e + 1));
      ClearBefore(s.orders, o', s.ce, s.ce, k);
      assert ClearWindow(s.orders, s.ce, k, e);
      ChallengePays(s.orders, k, ns, lo, cs, ce);
      BoundariesGrow(s, Prove(s, k), e);
      EarnedBelowOver(s.orders, k, n, n, SlotTime(Boundary(s.ce, Prove(s, k))), cs);
      EarnedBelowGrows(s.orders, o', k, n, n, ce);
    }
  }

  lemma ProofKeeps(c: Crypto, s: State, from: nat, p: SegProof, t: State)
    requires OrdersOk(s.orders) && ClockOk(s) && EarningsOk(s) && ApplyProof(c, s, from, p) == Ok(t)
    requires OrdersOk(t.orders) && OrdersGrow(s.orders, t.orders)
    ensures EarningsOk(t)
  {
    var k0 := Pair(p.user, p.pro);
    assert PairPaid(s, k0);
    ProvenPairPaid(s, t.orders, k0, p.epoch, Challenged(s.orders, k0, p.epoch, Ns(s.orders, k0)), p.orderStart,
                   p.price);
    forall k: Pair ensures PairPaid(t, k) {
      if k != k0 { OthersStayPaid(s, t, k); }
    }
  }

  lemma OthersStayPaid(s: State, t: State, k: Pair)
    requires OrdersOk(s.orders) && OrdersOk(t.orders) && OrdersGrow(s.orders, t.orders) && PairPaid(s, k)
    requires t.ce == s.ce && Prove(t, k) == Prove(s, k)
    requires IncomeOf(t, k) == IncomeOf(s, k) && Ns(t.orders, k) == Ns(s.orders, k)
    requires OrderCount(t.orders, k) == OrderCount(s.orders, k)
    ensures PairPaid(t, k)
  {
    if ClearWindows(t.orders, t.ce, k) {
      var n := OrderCount(s.orders, k);
      ClearBefore(s.orders, t.orders, s.ce, t.ce, k);
      EarnedBelowGrows(s.orders, t.orders, k, n, n, SlotTime(Boundary(s.ce, Prove(s, k))));
    }
  }

  lemma EpochKeepsEarnings(c: Crypto, s: State, p: EpochParams, t: State)
    requires OrdersOk(s.orders) && ClockOk(s) && EarningsOk(s) && ApplyUpdateEpoch(c, s, p) == Ok(t)
    ensures EarningsOk(t)
  {
    UpdateEpochKeeps(c, s, p, t);
    forall k: Pair ensures PairPaid(t, k) {
      assert PairPaid(s, k);
      if ClearWindows(t.orders, t.ce, k) { ClearBefore(s.orders, t.orders, s.ce, t.ce, k); }
    }
  }

  lemma OtherKeeps(s: State, t: State)
    requires OrdersOk(s.orders) && OrdersOk(t.orders) && OrdersGrow(s.orders, t.orders) && EarningsOk(s)
    requires t.ce == s.ce && t.pay.prove == s.pay.prove && forall k: Pair :: IncomeOf(t, k) == IncomeOf(s, k)
    ensures EarningsOk(t)
  {
    forall k: Pair ensures PairPaid(t, k) {
      assert PairPaid(s, k) && PairGrows(s.orders, t.orders, k);
      if ClearWindows(t.orders, t.ce, k) {
        ClearBefore(s.orders, t.orders, s.ce, t.ce, k);
        EarnedBelowGrows(s.orders, t.orders, k, OrderCount(s.orders, k), OrderCount(t.orders, k),
                         SlotTime(Boundary(s.ce, Prove(s, k))));
      }
    }
  }

  lemma EarningsStep(c: Crypto, s: State, from: nat, body: Payload, t: State)
    requires OrdersOk(s.orders) && ClockOk(s) && EarningsOk(s) && Step(c, s, from, body) == Ok(t)
    ensures EarningsOk(t)
  {
    OrdersStep(c, s, from, body, t);
    GrowStep(c, s, from, body, t);
    match body
    case SegmentProof(p) => ProofKeeps(c, s, from, p, t);
    case UpdateChalEpoch(p) => EpochKeepsEarnings(c, s, p, t);
    case _ =>
      EarningsFrame(c, s, from, body, t);
      OtherKeeps(s, t);
  }

  lemma EarningsFrame(c: Crypto, s: State, from: nat, body: Payload, t: State)
    requires Step(c, s, from, body) == Ok(t) && !body.SegmentProof? && !body.UpdateChalEpoch?
    ensures t.ce == s.ce && t.pay.prove == s.pay.prove && forall k: Pair :: IncomeOf(t, k) == IncomeOf(s, k)
  {
  }
}
