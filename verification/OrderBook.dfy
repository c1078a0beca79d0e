/** What the order records always satisfy: an order is the sum of its sequences, also after faults. */
module OrderBook {
  import opened Types
  import opened Chain

  // ---- Sums over the first m sequences of order n of a pair ----

  const NO_SEQ := SeqFull(OrderSeq(0, 0, 0, 0, 0, 0, []), 0, DelPart(0, 0, 0))

  function SeqAt(o: OrderDb, k: Pair, n: nat, i: nat): SeqFull
  {
    Get(o.seqs, SeqKey(k, n, i), NO_SEQ)
  }

  function SumFr(o: OrderDb, k: Pair, n: nat, m: nat): Fr
  {
    if m == 0 then 0 else FrAdd(SumFr(o, k, n, m - 1), SeqAt(o, k, n, m - 1).fr)
  }

  function SumDel(o: OrderDb, k: Pair, n: nat, m: nat): DelPart
  {
    if m == 0 then DelPart(0, 0, 0)
    else
      var d := SeqAt(o, k, n, m - 1).del;
      AddDel(SumDel(o, k, n, m - 1), d.fr, d.size, d.price)
  }

  /** Size and price are running totals, so those of the last sequence are those of the prefix. */
  function SizeAfter(o: OrderDb, k: Pair, n: nat, m: nat): nat
  {
    if m == 0 then 0 else SeqAt(o, k, n, m - 1).data.size
  }

  function PriceAfter(o: OrderDb, k: Pair, n: nat, m: nat): int
  {
    if m == 0 then 0 else SeqAt(o, k, n, m - 1).data.price
  }

  // ---- The invariant ----

  /** Each stored sequence belongs to an order, costs no less than its predecessor and has no
      negative deletion. */
  ghost predicate SeqOk(o: OrderDb, key: SeqKey)
    requires key in o.seqs
  {
    && OrderKey(key.pair, key.nonce) in o.base
    && key.seqNum < o.base[OrderKey(key.pair, key.nonce)].seqNum
    && PriceAfter(o, key.pair, key.nonce, key.seqNum) <= o.seqs[key].data.price
    && o.seqs[key].del.price >= 0
  }

  /** One order record against the sequence records stored under it. */
  ghost predicate OrderOk(o: OrderDb, key: OrderKey)
    requires key in o.base
  {
    var of, k, n := o.base[key], key.pair, key.nonce;
    && of.order.ob.user == k.user && of.order.ob.pro == k.pro && of.order.ob.nonce == n
    && of.order.ob.end - of.order.ob.start >= ORDER_MIN
    && n <= Ns(o, k).nonce
    && (forall i: nat | i < of.seqNum :: SeqKey(k, n, i) in o.seqs)
    && of.order.size == SizeAfter(o, k, n, of.seqNum)
    && of.order.price == PriceAfter(o, k, n, of.seqNum)
    && of.fr == SumFr(o, k, n, of.seqNum)
    && of.del == SumDel(o, k, n, of.seqNum)
  }

  /** Orders of a pair are numbered without gaps up to the current one. */
  ghost predicate PairOk(o: OrderDb, k: Pair)
  {
    var ns := Ns(o, k);
    && (forall n: nat | n < ns.nonce :: OrderKey(k, n) in o.base)
    && (OrderKey(k, ns.nonce) in o.base ==> o.base[OrderKey(k, ns.nonce)].seqNum == ns.seqNum)
    && (OrderKey(k, ns.nonce) !in o.base ==> ns.seqNum == 0)
  }

  ghost predicate OrdersOk(o: OrderDb)
  {
    && (forall k: Pair :: PairOk(o, k))
    && (forall key {:trigger OrderOk(o, key)} | key in o.base :: OrderOk(o, key))
    && (forall key {:trigger SeqOk(o, key)} | key in o.seqs :: SeqOk(o, key))
  }

  // ---- Sums under change ----

  lemma {:induction false} SumsFrame(o: OrderDb, o': OrderDb, k: Pair, n: nat, m: nat)
    requires forall i: nat | i < m :: SeqAt(o', k, n, i) == SeqAt(o, k, n, i)
    ensures SumFr(o', k, n, m) == SumFr(o, k, n, m) && SumDel(o', k, n, m) == SumDel(o, k, n, m)
    ensures SizeAfter(o', k, n, m) == SizeAfter(o, k, n, m) && PriceAfter(o', k, n, m) == PriceAfter(o, k, n, m)
  {
    if m > 0 { SumsFrame(o, o', k, n, m - 1); }
  }

  lemma AddDelSwap(d: DelPart, e: DelPart, fr: Fr, size: nat, price: int)
    ensures AddDel(AddDel(d, fr, size, price), e.fr, e.size, e.price)
            == AddDel(AddDel(d, e.fr, e.size, e.price), fr, size, price)
    ensures AddDel(d, FrAdd(e.fr, fr), e.size + size, e.price + price)
            == AddDel(AddDel(d, e.fr, e.size, e.price), fr, size, price)
  {
  }

  /** A deletion booked on sequence j shows up exactly once in the sum. */
  lemma {:induction false} SumsOfFault(o: OrderDb, o': OrderDb, k: Pair, n: nat, m: nat, j: nat, fr: Fr, size: nat,
                                       price: int)
    requires j < m
    requires forall i: nat | i < m && i != j :: SeqAt(o', k, n, i) == SeqAt(o, k, n, i)
    requires SeqAt(o', k, n, j) == SeqAt(o, k, n, j).(del := AddDel(SeqAt(o, k, n, j).del, fr, size, price))
    ensures SumFr(o', k, n, m) == SumFr(o, k, n, m)
    ensures SumDel(o', k, n, m) == AddDel(SumDel(o, k, n, m), fr, size, price)
    ensures SizeAfter(o', k, n, m) == SizeAfter(o, k, n, m) && PriceAfter(o', k, n, m) == PriceAfter(o, k, n, m)
  {
    AddDelSwap(SumDel(o, k, n, m - 1), SeqAt(o, k, n, m - 1).del, fr, size, price);
    if j == m - 1 {
      SumsFrame(o, o', k, n, m - 1);
    } else {
      SumsOfFault(o, o', k, n, m - 1, j, fr, size, price);
    }
  }

  lemma {:induction false} DelNonNegative(o: OrderDb, k: Pair, n: nat, m: nat)
    requires OrdersOk(o) && forall i: nat | i < m :: SeqKey(k, n, i) in o.seqs
    ensures SumDel(o, k, n, m).price >= 0
  {
    if m > 0 {
      DelNonNegative(o, k, n, m - 1);
      assert SeqOk(o, SeqKey(k, n, m - 1));
    }
  }

  lemma {:induction false} PricesGrow(o: OrderDb, k: Pair, n: nat, i: nat, j: nat)
    requires OrdersOk(o) && i <= j && forall l: nat | l < j :: SeqKey(k, n, l) in o.seqs
    ensures 0 <= PriceAfter(o, k, n, i) <= PriceAfter(o, k, n, j)
  {
    if j > 0 {
      assert SeqOk(o, SeqKey(k, n, j - 1));
      PricesGrow(o, k, n, if i < j then i else j - 1, j - 1);
    }
  }

  // ---- Preservation on the order records alone ----

  /** An order whose own records are untouched stays right. */
  lemma OrderFrame(o: OrderDb, o': OrderDb, key: OrderKey)
    requires key in o.base && OrderOk(o, key) && key in o'.base && o'.base[key] == o.base[key]
    requires Ns(o', key.pair).nonce >= Ns(o, key.pair).nonce
    requires forall i: nat | i < o.base[key].seqNum ::
               SeqKey(key.pair, key.nonce, i) in o'.seqs
                 && SeqAt(o', key.pair, key.nonce, i) == SeqAt(o, key.pair, key.nonce, i)
    ensures OrderOk(o', key)
  {
    SumsFrame(o, o', key.pair, key.nonce, o.base[key].seqNum);
  }

  lemma OpenOrder(o: OrderDb, o': OrderDb, key: OrderKey, of: OrderFull)
    requires OrdersOk(o) && key !in o.base && key.nonce == Ns(o, key.pair).nonce && Ns(o, key.pair).seqNum == 0
    requires of.order.ob.user == key.pair.user && of.order.ob.pro == key.pair.pro && of.order.ob.nonce == key.nonce
    requires of.order.ob.end - of.order.ob.start >= ORDER_MIN
    requires of == OrderFull(of.order, 0, 0, DelPart(0, 0, 0)) && of.order.size == 0 && of.order.price == 0
    requires o'.base == o.base[key := of] && o'.seqs == o.seqs && forall k :: Ns(o', k) == Ns(o, k)
    ensures OrdersOk(o')
  {
    forall x | x in o'.base ensures OrderOk(o', x) {
      if x != key { OrderFrame(o, o', x); }
    }
    forall k: Pair ensures PairOk(o', k) {
      assert PairOk(o, k);
    }
    forall x | x in o'.seqs ensures SeqOk(o', x) {
      assert SeqOk(o, x);
    }
  }

  /** The record of an order after one more sequence. */
  lemma ExtendedRecord(o: OrderDb, o': OrderDb, key: OrderKey, of: OrderFull, sf: SeqFull)
    requires OrdersOk(o) && key in o.base
    requires var old' := o.base[key];
             && of.seqNum == old'.seqNum + 1 && of.del == old'.del && of.order.ob == old'.order.ob
             && of.fr == FrAdd(old'.fr, sf.fr) && sf.del == DelPart(0, 0, 0)
             && sf.data.price >= old'.order.price
             && o'.seqs == o.seqs[SeqKey(key.pair, key.nonce, old'.seqNum) := sf]
    requires of.order.size == sf.data.size && of.order.price == sf.data.price
    requires o'.base == o.base[key := of]
    requires key.nonce <= Ns(o', key.pair).nonce
    requires key.nonce == Ns(o', key.pair).nonce ==> Ns(o', key.pair).seqNum == of.seqNum
    ensures OrderOk(o', key)
  {
    assert OrderOk(o, key);
    SumsFrame(o, o', key.pair, key.nonce, o.base[key].seqNum);
  }

  lemma ExtendOrder(o: OrderDb, o': OrderDb, key: OrderKey, of: OrderFull, sf: SeqFull)
    requires OrdersOk(o) && key in o.base && key.nonce == Ns(o, key.pair).nonce
    requires var old' := o.base[key];
             && of.seqNum == old'.seqNum + 1 && of.del == old'.del && of.order.ob == old'.order.ob
             && of.fr == FrAdd(old'.fr, sf.fr) && sf.del == DelPart(0, 0, 0)
             && sf.data.price >= old'.order.price
             && o'.seqs == o.seqs[SeqKey(key.pair, key.nonce, old'.seqNum) := sf]
    requires of.order.size == sf.data.size && of.order.price == sf.data.price
    requires o'.base == o.base[key := of]
    requires forall k :: Ns(o', k) == if k == key.pair then Ns(o, k).(seqNum := of.seqNum) else Ns(o, k)
    ensures OrdersOk(o')
  {
    var k, n, m := key.pair, key.nonce, o.base[key].seqNum;
    assert OrderOk(o, key);
    ExtendedRecord(o, o', key, of, sf);
    forall x | x in o'.base ensures OrderOk(o', x) {
      if x != key { OrderFrame(o, o', x); }
    }
    forall j: Pair ensures PairOk(o', j) {
      assert PairOk(o, j);
    }
    forall x | x in o'.seqs ensures SeqOk(o', x) {
      if x != SeqKey(k, n, m) {
        assert SeqOk(o, x);
        if x.seqNum > 0 { assert SeqAt(o', x.pair, x.nonce, x.seqNum - 1) == SeqAt(o, x.pair, x.nonce, x.seqNum - 1); }
      }
    }
  }

  lemma FaultOrder(o: OrderDb, o': OrderDb, key: OrderKey, j: nat, fr: Fr, size: nat, price: nat)
    requires OrdersOk(o) && key in o.base && SeqKey(key.pair, key.nonce, j) in o.seqs
    requires var of := o.base[key];
             o'.base == o.base[key := of.(del := AddDel(of.del, fr, size, price))]
    requires var sk := SeqKey(key.pair, key.nonce, j);
             o'.seqs == o.seqs[sk := o.seqs[sk].(del := AddDel(o.seqs[sk].del, fr, size, price))]
    requires o'.state == o.state
    ensures OrdersOk(o')
  {
    var k, n := key.pair, key.nonce;
    assert OrderOk(o, key);
    assert SeqOk(o, SeqKey(k, n, j));
    SumsOfFault(o, o', k, n, o.base[key].seqNum, j, fr, size, price);
    forall x | x in o'.base ensures OrderOk(o', x) {
      if x != key { OrderFrame(o, o', x); }
    }
    forall l: Pair ensures PairOk(o', l) {
      assert PairOk(o, l);
    }
    forall x | x in o'.seqs ensures SeqOk(o', x) {
      assert SeqOk(o, x);
      if x.seqNum > 0 {
        assert SeqAt(o', x.pair, x.nonce, x.seqNum - 1).data == SeqAt(o, x.pair, x.nonce, x.seqNum - 1).data;
      }
    }
  }

  lemma PutNsKeeps(o: OrderDb, k: Pair, epoch: nat, ns: NonceSeq)
    requires OrdersOk(o)
    requires || (ns.nonce == Ns(o, k).nonce && ns.seqNum == Ns(o, k).seqNum)
             || (ns.nonce == Ns(o, k).nonce + 1 && ns.seqNum == 0 && OrderKey(k, Ns(o, k).nonce) in o.base)
    ensures OrdersOk(PutNs(o, k, epoch, ns))
  {
    var o' := PutNs(o, k, epoch, ns);
    forall x | x in o'.base ensures OrderOk(o', x) { OrderFrame(o, o', x); }
    forall j: Pair ensures PairOk(o', j) {
      assert PairOk(o, j);
      assert OrderKey(k, ns.nonce) in o.base ==> OrderOk(o, OrderKey(k, ns.nonce));
    }
    forall x | x in o'.seqs ensures SeqOk(o', x) { assert SeqOk(o, x); }
  }

  lemma StateAtKeeps(o: OrderDb, o': OrderDb)
    requires OrdersOk(o) && o' == o.(stateAt := o'.stateAt)
    ensures OrdersOk(o')
  {
    forall x | x in o'.base ensures OrderOk(o', x) { OrderFrame(o, o', x); }
    forall j: Pair ensures PairOk(o', j) { assert PairOk(o, j); }
    forall x | x in o'.seqs ensures SeqOk(o', x) { assert SeqOk(o, x); }
  }

  // ---- Preservation by the transitions ----

  lemma ExtendDbKeeps(o: OrderDb, k: Pair, epoch: nat, info: OrderInfo, q: SignedSeq, fr: Fr)
    requires OrdersOk(o) && OrderKey(k, Ns(o, k).nonce) in o.base
    requires var of := o.base[OrderKey(k, Ns(o, k).nonce)];
             info.ns == Ns(o, k) && info.fr == of.fr && info.base == Some(of.order) && q.data.price >= of.order.price
    requires q.data.nonce == info.ns.nonce && q.data.seqNum == info.ns.seqNum
    requires info.base.value.ob.nonce == info.ns.nonce
    ensures OrdersOk(ExtendDb(o, k, epoch, info, q, fr))
  {
    var key := OrderKey(k, info.ns.nonce);
    var o' := ExtendDb(o, k, epoch, info, q, fr);
    assert PairOk(o, k);
    ExtendOrder(o, o', key, o'.base[key], SeqFull(q.data, fr, DelPart(0, 0, 0)));
  }

  lemma AddSeqKeeps(c: Crypto, s: State, from: nat, q: SignedSeq, t: State)
    requires OrdersOk(s.orders) && ApplyAddSeq(c, s, from, q) == Ok(t)
    ensures OrdersOk(t.orders)
  {
    var k := Pair(q.data.user, q.data.pro);
    var info := OrderOf(s, k);
    assert OrderOk(s.orders, OrderKey(k, info.ns.nonce));
    ExtendDbKeeps(s.orders, k, s.ce.epoch, info, q, SegsFr(c, s.fs.verifyKey[q.data.user], q.data.segments));
  }

  lemma FaultKeeps(c: Crypto, s: State, from: nat, f: SegRemove, t: State)
    requires OrdersOk(s.orders) && ApplyFault(c, s, from, f) == Ok(t)
    ensures OrdersOk(t.orders)
  {
    var key := OrderKey(Pair(f.user, f.pro), f.nonce);
    var price := Cost(s.orders.base[key].order.ob.segPrice, CountSegs(f.segments));
    FaultOrder(s.orders, t.orders, key, f.seqNum, SegsFr(c, s.fs.verifyKey[f.user], f.segments),
               CountSegs(f.segments) * SEG_SIZE, price);
  }

  lemma CreateKeeps(c: Crypto, s: State, from: nat, so: SignedOrder, t: State)
    requires OrdersOk(s.orders) && ApplyCreateOrder(c, s, from, so) == Ok(t)
    ensures OrdersOk(t.orders)
  {
    var key := OrderKey(Pair(so.ob.user, so.ob.pro), so.ob.nonce);
    OpenOrder(s.orders, t.orders, key, t.orders.base[key]);
  }

  /** Every transition keeps the order book. */
  lemma OrdersStep(c: Crypto, s: State, from: nat, body: Payload, t: State)
    requires OrdersOk(s.orders) && Step(c, s, from, body) == Ok(t)
    ensures OrdersOk(t.orders)
  {
    match body
    case PreDataOrder(so) => CreateKeeps(c, s, from, so, t);
    case AddDataOrder(q) => AddSeqKeeps(c, s, from, q, t);
    case CommitDataOrder(u, p, n, q) =>
      PutNsKeeps(s.orders, Pair(u, p), s.ce.epoch, NonceSeq(n + 1, 0, Ns(s.orders, Pair(u, p)).subNonce));
    case SubDataOrder(u, p, n) =>
      var ns := Ns(s.orders, Pair(u, p));
      PutNsKeeps(s.orders, Pair(u, p), s.ce.epoch, ns.(subNonce := ns.subNonce + 1));
    case SegmentFault(f) => FaultKeeps(c, s, from, f, t);
    case SegmentProof(p) => StateAtKeeps(s.orders, t.orders);
    case _ => assert t.orders == s.orders;
  }

  // ---- The two forms of a challenge ----

  lemma {:induction false} SeqTotalsExceptPrice(o: OrderDb, k: Pair, n: nat, m: nat, total: nat, acc: Acc)
    requires m <= total && forall i: nat | i < m :: SeqKey(k, n, i) in o.seqs
    ensures var d := SumDel(o, k, n, m);
            var own := if m == total then m else 0;
            var r := SeqTotals(o, k, n, m, total, acc);
            r.Ok? && r.value == Acc(r.value.price, acc.size + SizeAfter(o, k, n, own), acc.del + d.size,
                                    FrAdd(acc.fr, FrSub(SumFr(o, k, n, m), d.fr)), acc.dur)
  {
    if m > 0 {
      SeqTotalsExceptPrice(o, k, n, m - 1, total, acc);
      var q, d := SeqAt(o, k, n, m - 1), SumDel(o, k, n, m - 1);
      FrSubOfSums(SumFr(o, k, n, m - 1), q.fr, d.fr, q.del.fr);
      FrAddAssoc(acc.fr, FrSub(SumFr(o, k, n, m - 1), d.fr), FrSub(q.fr, q.del.fr));
    }
  }

  lemma SplitPrice(p: int, own: int, a: int, b: int, dur: int)
    ensures p + (0 - a) * dur - b * dur + own * dur == p + (own - (a + b)) * dur
  {
  }

  lemma {:induction false} SeqTotalsPrice(o: OrderDb, k: Pair, n: nat, m: nat, total: nat, acc: Acc)
    requires m <= total && forall i: nat | i < m :: SeqKey(k, n, i) in o.seqs
    ensures var r := SeqTotals(o, k, n, m, total, acc);
            var own := if m == total then m else 0;
            r.Ok? && r.value.dur == acc.dur
              && r.value.price == acc.price + (PriceAfter(o, k, n, own) - SumDel(o, k, n, m).price) * acc.dur
  {
    if m > 0 {
      SeqTotalsPrice(o, k, n, m - 1, total, acc);
      var q, d := SeqAt(o, k, n, m - 1), SumDel(o, k, n, m - 1);
      SplitPrice(acc.price, if m == total then q.data.price else 0, d.price, q.del.price, acc.dur);
    }
  }

  /** Challenging the first m sequences one by one gives the price, size, deletions and field
      element of that prefix of the order. */
  lemma SeqTotalsAre(o: OrderDb, k: Pair, n: nat, m: nat, total: nat, acc: Acc)
    requires m <= total && forall i: nat | i < m :: SeqKey(k, n, i) in o.seqs
    ensures var d := SumDel(o, k, n, m);
            var own := if m == total then m else 0;
            SeqTotals(o, k, n, m, total, acc) ==
            Ok(Acc(acc.price + (PriceAfter(o, k, n, own) - d.price) * acc.dur, acc.size + SizeAfter(o, k, n, own),
                   acc.del + d.size, FrAdd(acc.fr, FrSub(SumFr(o, k, n, m), d.fr)), acc.dur))
  {
    SeqTotalsExceptPrice(o, k, n, m, total, acc);
    SeqTotalsPrice(o, k, n, m, total, acc);
  }

  /** The aggregate record of a whole order says the same as its sequences one by one, for every
      duration: size, price and field element. */
  lemma TwoFormsAgree(o: OrderDb, k: Pair, n: nat, dur: int)
    requires OrdersOk(o) && OrderKey(k, n) in o.base && o.base[OrderKey(k, n)].seqNum > 0
    ensures var of := o.base[OrderKey(k, n)];
            SeqTotals(o, k, n, of.seqNum, of.seqNum, Acc(0, 0, 0, 0, dur)) ==
            Ok(Acc((of.order.price - of.del.price) * dur, of.order.size, of.del.size, FrSub(of.fr, of.del.fr), dur))
  {
    assert OrderOk(o, OrderKey(k, n));
    var m := o.base[OrderKey(k, n)].seqNum;
    SeqTotalsAre(o, k, n, m, m, Acc(0, 0, 0, 0, dur));
  }
}
