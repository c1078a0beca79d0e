/** Two consequences for challenges: committing an order changes nothing that is owed, and an order
    that has been subtracted never earns again. */
module Challenges {
  import opened Types
  import opened Chain
  import opened OrderBook
  import opened Epochs
  import opened Growth
  import opened Earnings

  // ---- Commit ----

  /** Totals apart from the duration left over for the next order. */
  predicate SameTotals(a: Acc, b: Acc)
  {
    a.price == b.price && a.size == b.size && a.del == b.del && a.fr == b.fr
  }

  ghost predicate SameChallenge(x: Result<Acc>, y: Result<Acc>)
  {
    (x.Ok? <==> y.Ok?) && (x.Ok? ==> SameTotals(x.value, y.value))
  }

  /** Price of an order less what was deleted. */
  function Net(o: OrderDb, k: Pair, n: nat): int
  {
    var key := OrderKey(k, n);
    if key in o.base then o.base[key].order.price - o.base[key].del.price else 0
  }

  /** Orders lo..hi all lie strictly inside the window. */
  predicate AllInside(o: OrderDb, k: Pair, lo: nat, hi: nat, cs: int, ce: int)
    requires lo <= hi
    decreases hi
  {
    lo == hi ||
    (AllInside(o, k, lo, hi - 1, cs, ce) && OrderKey(k, hi - 1) in o.base
      && Inside(o.base[OrderKey(k, hi - 1)].order.ob, cs, ce))
  }

  /** Net prices of the leading orders strictly inside the window: those that are paid for the duration
      the challenge starts with. */
  function Lead(o: OrderDb, k: Pair, lo: nat, hi: nat, cs: int, ce: int): int
    requires lo <= hi
    decreases hi
  {
    if lo == hi then 0
    else Lead(o, k, lo, hi - 1, cs, ce) + if AllInside(o, k, lo, hi, cs, ce) then Net(o, k, hi - 1) else 0
  }

  /** The duration that orders lo..hi leave behind. */
  function LeftOver(o: OrderDb, k: Pair, lo: nat, hi: nat, cs: int, ce: int): int
    requires lo <= hi
    decreases hi
  {
    if lo == hi then 0
    else
      var previous := LeftOver(o, k, lo, hi - 1, cs, ce);
      if OrderKey(k, hi - 1) !in o.base then previous
      else var b := o.base[OrderKey(k, hi - 1)].order.ob; Duration(b.start, b.end, cs, ce, previous)
  }

  /** What the orders lo..hi make of a start value: sizes and field elements just add, and so do prices,
      but for the leading orders strictly inside the window. */
  ghost predicate Shifted(z: Acc, acc: Acc, x: Acc, lead: int, inside: bool)
  {
    && x.size == acc.size + z.size && x.del == acc.del + z.del && x.fr == FrAdd(acc.fr, z.fr)
    && x.price == acc.price + z.price + lead * acc.dur
    && (if inside then x.dur == acc.dur && z.dur == 0 else x.dur == z.dur)
  }

  lemma OrderShift(z: Acc, acc: Acc, x: Acc, lead: int, inside: bool, of: OrderFull, cs: int, ce: int)
    requires Shifted(z, acc, x, lead, inside) && cs < ce && of.order.ob.start < ce && of.order.ob.end > cs
    ensures var net, more := of.order.price - of.del.price, inside && Inside(of.order.ob, cs, ce);
            Shifted(AddOrder(z, of, cs, ce), acc, AddOrder(x, of, cs, ce), if more then lead + net else lead, more)
  {
    var net := of.order.price - of.del.price;
    FrAddAssoc(acc.fr, z.fr, FrSub(of.fr, of.del.fr));
    assert (lead + net) * acc.dur == lead * acc.dur + net * acc.dur;
    if inside && Inside(of.order.ob, cs, ce) {
      assert net * 0 == 0;
    }
  }

  lemma {:induction false} PastShift(o: OrderDb, k: Pair, lo: nat, hi: nat, cs: int, ce: int, acc: Acc)
    requires lo <= hi && cs < ce
    ensures var z := PastTotals(o, k, lo, hi, cs, ce, Acc(0, 0, 0, 0, 0), false);
            var x := PastTotals(o, k, lo, hi, cs, ce, acc, false);
            && (x.Ok? <==> z.Ok?)
            && (x.Ok? ==>
                  && z.value.dur == LeftOver(o, k, lo, hi, cs, ce)
                  && Shifted(z.value, acc, x.value, Lead(o, k, lo, hi, cs, ce), AllInside(o, k, lo, hi, cs, ce)))
    decreases hi
  {
    if lo < hi {
      PastShift(o, k, lo, hi - 1, cs, ce, acc);
      var z := PastTotals(o, k, lo, hi - 1, cs, ce, Acc(0, 0, 0, 0, 0), false);
      var x := PastTotals(o, k, lo, hi - 1, cs, ce, acc, false);
      if x.Ok? && OrderKey(k, hi - 1) in o.base {
        var of := o.base[OrderKey(k, hi - 1)];
        if of.order.ob.start < ce && of.order.ob.end > cs {
          OrderShift(z.value, acc, x.value, Lead(o, k, lo, hi - 1, cs, ce), AllInside(o, k, lo, hi - 1, cs, ce),
                     of, cs, ce);
        }
      }
    }
  }

  /** By how much the price of a challenge moves when the current order n is committed. */
  function PriceShift(o: OrderDb, k: Pair, n: nat, lo: nat, cs: int, ce: int): int
    requires lo <= n && OrderKey(k, n) in o.base
  {
    var b := o.base[OrderKey(k, n)].order.ob;
    var alone := Duration(b.start, b.end, cs, ce, 0);
    var last := Duration(b.start, b.end, cs, ce, LeftOver(o, k, lo, n, cs, ce));
    Net(o, k, n) * (last - alone) - Lead(o, k, lo, n, cs, ce) * alone
  }

  /** Acceptance and everything a challenge demands but the price. */
  ghost predicate SameDemand(x: Result<Acc>, y: Result<Acc>)
  {
    (x.Ok? <==> y.Ok?)
      && (x.Ok? ==> x.value.size == y.value.size && x.value.del == y.value.del && x.value.fr == y.value.fr)
  }

  /** Challenging the current order sequence by sequence, or after the commit as one record: as long as
      it starts before the window ends, the same acceptance, sizes and field element, in any window,
      and a price that moves by exactly PriceShift. */
  lemma CommitKeepsChallenge(o: OrderDb, k: Pair, n: nat, sub: nat, lo: nat, cs: int, ce: int)
    requires OrdersOk(o) && lo <= n && cs < ce
    requires OrderKey(k, n) in o.base && o.base[OrderKey(k, n)].seqNum > 0 && o.base[OrderKey(k, n)].order.ob.start < ce
    ensures var before := ChalTotals(o, k, NonceSeq(n, o.base[OrderKey(k, n)].seqNum, sub), lo, cs, ce, false);
            var after := ChalTotals(o, k, NonceSeq(n + 1, 0, sub), lo, cs, ce, false);
            && SameDemand(before, after)
            && (before.Ok? ==> after.value.price - before.value.price == PriceShift(o, k, n, lo, cs, ce))
  {
    var of := o.base[OrderKey(k, n)];
    var b := of.order.ob;
    if b.end > cs {
      TwoFormsAgree(o, k, n, Duration(b.start, b.end, cs, ce, 0));
      var cur := CurrentTotals(o, k, NonceSeq(n, of.seqNum, sub), cs, ce).value;
      PastShift(o, k, lo, n, cs, ce, cur);
      var past := PastTotals(o, k, lo, n, cs, ce, Acc(0, 0, 0, 0, 0), false);
      var x := PastTotals(o, k, lo, n, cs, ce, cur, false);
      if past.Ok? {
        LastOrSeparate(past.value, cur, x.value, Lead(o, k, lo, n, cs, ce), AllInside(o, k, lo, n, cs, ce), of, cs, ce);
      }
    }
  }

  /** An order as the first thing challenged, sequence by sequence, or as the last, in one piece. */
  lemma LastOrSeparate(past: Acc, cur: Acc, x: Acc, lead: int, inside: bool, of: OrderFull, cs: int, ce: int)
    requires Shifted(past, cur, x, lead, inside)
    requires var b := of.order.ob; cur.dur == Duration(b.start, b.end, cs, ce, 0)
    requires cur.size == of.order.size && cur.del == of.del.size && cur.fr == FrSub(of.fr, of.del.fr)
    requires cur.price == (of.order.price - of.del.price) * cur.dur
    ensures var y := AddOrder(past, of, cs, ce);
            && y.size == x.size && y.del == x.del && y.fr == x.fr
            && y.price - x.price == (of.order.price - of.del.price) * (y.dur - cur.dur) - lead * cur.dur
  {
    FrAddCommutes(past.fr, cur.fr);
    var net, last := of.order.price - of.del.price, AddOrder(past, of, cs, ce).dur;
    assert net * (last - cur.dur) == net * last - net * cur.dur;
  }

  lemma FrAddCommutes(a: Fr, b: Fr)
    ensures FrAdd(a, b) == FrAdd(b, a)
  {
  }

  /** An order that starts after the window is passed over while it is current, so that the challenge
      is the one over the earlier orders alone (an accepted one if there are none), and makes the
      challenge refused once it is committed. */
  lemma LateCommitRefused(o: OrderDb, k: Pair, n: nat, m: nat, sub: nat, lo: nat, cs: int, ce: int)
    requires lo <= n && OrderKey(k, n) in o.base && o.base[OrderKey(k, n)].order.ob.start >= ce
    ensures ChalTotals(o, k, NonceSeq(n, m, sub), lo, cs, ce, false)
            == PastTotals(o, k, lo, n, cs, ce, Acc(0, 0, 0, 0, 0), false)
    ensures ChalTotals(o, k, NonceSeq(n, m, sub), n, cs, ce, false) == Ok(Acc(0, 0, 0, 0, 0))
    ensures ChalTotals(o, k, NonceSeq(n + 1, 0, sub), lo, cs, ce, false).Err?
  {
  }

  /** What a commit changes, in any window. What must be proved stays if and only if the order starts
      before the window ends (or the challenge was refused anyway); what is owed stays if and only if,
      besides, the price does not shift. */
  lemma CommitOutcome(o: OrderDb, k: Pair, n: nat, sub: nat, lo: nat, cs: int, ce: int)
    requires OrdersOk(o) && lo <= n && cs < ce
    requires OrderKey(k, n) in o.base && o.base[OrderKey(k, n)].seqNum > 0
    ensures var before := ChalTotals(o, k, NonceSeq(n, o.base[OrderKey(k, n)].seqNum, sub), lo, cs, ce, false);
            var after := ChalTotals(o, k, NonceSeq(n + 1, 0, sub), lo, cs, ce, false);
            var early := o.base[OrderKey(k, n)].order.ob.start < ce;
            && (SameDemand(before, after) <==> early || before.Err?)
            && (before.Ok? && after.Ok? ==> after.value.price - before.value.price == PriceShift(o, k, n, lo, cs, ce))
            && (SameChallenge(before, after) <==> before.Err? || (early && PriceShift(o, k, n, lo, cs, ce) == 0))
  {
    if o.base[OrderKey(k, n)].order.ob.start < ce {
      CommitKeepsChallenge(o, k, n, sub, lo, cs, ce);
    } else {
      LateCommitRefused(o, k, n, o.base[OrderKey(k, n)].seqNum, sub, lo, cs, ce);
    }
  }

  /** In a window that no order of the pair lies strictly inside of, the price does not shift. */
  lemma ClearMeansNoShift(o: OrderDb, k: Pair, n: nat, lo: nat, cs: int, ce: int)
    requires lo <= n && OrderKey(k, n) in o.base && cs < ce && ClearOf(o, k, cs, ce)
    requires o.base[OrderKey(k, n)].order.ob.start < ce && o.base[OrderKey(k, n)].order.ob.end > cs
    ensures PriceShift(o, k, n, lo, cs, ce) == 0
  {
    NothingLeads(o, k, lo, n, cs, ce);
  }

  lemma {:induction false} NothingLeads(o: OrderDb, k: Pair, lo: nat, hi: nat, cs: int, ce: int)
    requires lo <= hi && ClearOf(o, k, cs, ce)
    ensures Lead(o, k, lo, hi, cs, ce) == 0 && (AllInside(o, k, lo, hi, cs, ce) ==> lo == hi)
    decreases hi
  {
    if lo < hi { NothingLeads(o, k, lo, hi - 1, cs, ce); }
  }

  /** The failing family: order 0 covers the window and the current order 1 lies strictly inside it.
      While it is current it is paid nothing; once committed it is paid for the whole window. */
  lemma CommitInsidePaysMore(o: OrderDb, k: Pair, sub: nat, cs: int, ce: int)
    requires OrdersOk(o) && cs < ce && OrderKey(k, 0) in o.base && OrderKey(k, 1) in o.base
    requires var b := o.base[OrderKey(k, 0)].order.ob; b.start <= cs && ce <= b.end
    requires Inside(o.base[OrderKey(k, 1)].order.ob, cs, ce) && o.base[OrderKey(k, 1)].seqNum > 0 && Net(o, k, 1) > 0
    ensures var before := ChalTotals(o, k, NonceSeq(1, o.base[OrderKey(k, 1)].seqNum, sub), 0, cs, ce, false);
            var after := ChalTotals(o, k, NonceSeq(2, 0, sub), 0, cs, ce, false);
            before.Ok? && after.Ok? && after.value.price == before.value.price + Net(o, k, 1) * (ce - cs)
            && after.value.price > before.value.price
  {
    var b := o.base[OrderKey(k, 1)].order.ob;
    PriceNonNegative(o, OrderKey(k, 1));
    CommitKeepsChallenge(o, k, 1, sub, 0, cs, ce);
    assert LeftOver(o, k, 0, 0, cs, ce) == 0;
    assert LeftOver(o, k, 0, 1, cs, ce) == ce - cs;
    assert AllInside(o, k, 0, 1, cs, ce) == false;
    assert Lead(o, k, 0, 0, cs, ce) == 0 && Lead(o, k, 0, 1, cs, ce) == 0;
    var zero := Acc(0, 0, 0, 0, 0);
    assert PastTotals(o, k, 0, 1, cs, ce, zero, false) == Ok(AddOrder(zero, o.base[OrderKey(k, 0)], cs, ce));
    assert ChalTotals(o, k, NonceSeq(2, 0, sub), 0, cs, ce, false).Ok?;
    MulMonotone(1, Net(o, k, 1), ce - cs);
  }

  // ---- Subtracted orders ----

  ghost predicate Expired(s: State, key: OrderKey)
  {
    key in s.orders.base && s.orders.base[key].order.ob.end <= SlotTime(s.ce.previous.slot)
  }

  /** Every order below SubNonce exists and ended before the current window. */
  ghost predicate SubsOk(s: State)
  {
    forall key: OrderKey :: key.nonce < Ns(s.orders, key.pair).subNonce ==> Expired(s, key)
  }

  lemma SubsMove(s: State, t: State)
    requires SubsOk(s) && OrdersGrow(s.orders, t.orders) && s.ce.previous.slot <= t.ce.previous.slot
    requires forall key: OrderKey | Ns(s.orders, key.pair).subNonce <= key.nonce < Ns(t.orders, key.pair).subNonce ::
               Expired(t, key)
    ensures SubsOk(t)
  {
    forall key: OrderKey | key.nonce < Ns(t.orders, key.pair).subNonce ensures Expired(t, key) {
      assert OrderGrows(s.orders, t.orders, key);
      if key.nonce < Ns(s.orders, key.pair).subNonce { assert Expired(s, key); }
    }
  }

  lemma SubsStep(c: Crypto, s: State, from: nat, body: Payload, t: State)
    requires OrdersOk(s.orders) && ClockOk(s) && SubsOk(s) && Step(c, s, from, body) == Ok(t)
    ensures SubsOk(t)
  {
    GrowStep(c, s, from, body, t);
    WindowStartGrows(c, s, from, body, t);
    NewlySubtracted(c, s, from, body, t);
    SubsMove(s, t);
  }

  lemma WindowStartGrows(c: Crypto, s: State, from: nat, body: Payload, t: State)
    requires ClockOk(s) && Step(c, s, from, body) == Ok(t)
    ensures s.ce.previous.slot <= t.ce.previous.slot
  {
    if s.ce.epoch >= 1 { BoundariesGrow(s, s.ce.epoch - 1, s.ce.epoch); }
  }

  /** The order a transition subtracts has expired. */
  lemma NewlySubtracted(c: Crypto, s: State, from: nat, body: Payload, t: State)
    requires Step(c, s, from, body) == Ok(t)
    ensures forall key: OrderKey | Ns(s.orders, key.pair).subNonce <= key.nonce < Ns(t.orders, key.pair).subNonce ::
              Expired(t, key)
  {
  }

  lemma {:induction false} PastRefuses(o: OrderDb, k: Pair, lo: nat, hi: nat, cs: int, ce: int, acc: Acc,
                                       skipLate: bool, n: nat)
    requires OrdersOk(o) && lo <= n < hi && cs < ce && OrderKey(k, n) in o.base
    requires o.base[OrderKey(k, n)].order.ob.end <= cs
    ensures PastTotals(o, k, lo, hi, cs, ce, acc, skipLate).Err?
    decreases hi
  {
    if n == hi - 1 {
      assert OrderOk(o, OrderKey(k, n));
    } else {
      PastRefuses(o, k, lo, hi - 1, cs, ce, acc, skipLate, n);
    }
  }

  /** Any proof whose range includes a subtracted order is refused, by apply and by validation. */
  lemma SubtractedNeverEarns(c: Crypto, s: State, from: nat, p: SegProof, n: nat, skipLate: bool)
    requires OrdersOk(s.orders) && SubsOk(s)
    requires var k := Pair(p.user, p.pro);
             var ns := Challenged(s.orders, k, p.epoch, Ns(s.orders, k));
             n < Ns(s.orders, k).subNonce && (p.orderStart <= n < p.orderEnd || (n == ns.nonce && ns.seqNum > 0))
    ensures ProvenPrice(c, s.orders, OrderOf(s, Pair(p.user, p.pro)), Find(s.fs.verifyKey, p.user), s.ce.current,
                        s.ce.previous, from, p, skipLate).Err?
  {
    var k := Pair(p.user, p.pro);
    var ns := Challenged(s.orders, k, p.epoch, Ns(s.orders, k));
    assert Expired(s, OrderKey(k, n));
    assert OrderOk(s.orders, OrderKey(k, n));
    var cs, ce := SlotTime(s.ce.previous.slot), SlotTime(s.ce.current.slot);
    if cs < ce && ns.nonce == p.orderEnd && p.orderStart <= n < p.orderEnd {
      var cur := CurrentTotals(s.orders, k, ns, cs, ce);
      if cur.Ok? { PastRefuses(s.orders, k, p.orderStart, p.orderEnd, cs, ce, cur.value, skipLate, n); }
    }
  }
}
