/** What no transition ever takes back: orders and their dates, accumulated prices, nonces. */
module Growth {
  import opened Types
  import opened Chain
  import opened OrderBook

  ghost predicate OrderGrows(o: OrderDb, t: OrderDb, key: OrderKey)
  {
    key in o.base ==>
      && key in t.base
      && t.base[key].order.ob == o.base[key].order.ob
      && t.base[key].order.price >= o.base[key].order.price
  }

  ghost predicate PairGrows(o: OrderDb, t: OrderDb, k: Pair)
  {
    Ns(t, k).nonce >= Ns(o, k).nonce && Ns(t, k).subNonce >= Ns(o, k).subNonce
  }

  ghost predicate OrdersGrow(o: OrderDb, t: OrderDb)
  {
    && (forall key :: OrderGrows(o, t, key))
    && (forall k :: PairGrows(o, t, k))
  }

  lemma AddSeqGrows(c: Crypto, s: State, from: nat, q: SignedSeq, t: State)
    requires OrdersOk(s.orders) && ApplyAddSeq(c, s, from, q) == Ok(t)
    ensures OrdersGrow(s.orders, t.orders)
  {
    var k := Pair(q.data.user, q.data.pro);
    var info := OrderOf(s, k);
    assert OrderOk(s.orders, OrderKey(k, info.ns.nonce));
  }

  lemma SameOrdersGrow(o: OrderDb, t: OrderDb)
    requires t.base == o.base && forall k :: PairGrows(o, t, k)
    ensures OrdersGrow(o, t)
  {
  }

  lemma OpenGrows(c: Crypto, s: State, from: nat, so: SignedOrder, t: State)
    requires ApplyCreateOrder(c, s, from, so) == Ok(t)
    ensures OrdersGrow(s.orders, t.orders)
  {
  }

  lemma CommitGrows(s: State, from: nat, user: nat, pro: nat, nonce: nat, seqNum: nat, t: State)
    requires ApplyCommit(s, from, user, pro, nonce, seqNum) == Ok(t)
    ensures OrdersGrow(s.orders, t.orders)
  {
    SameOrdersGrow(s.orders, t.orders);
  }

  lemma SubGrows(s: State, from: nat, user: nat, pro: nat, nonce: nat, t: State)
    requires ApplySub(s, from, user, pro, nonce) == Ok(t)
    ensures OrdersGrow(s.orders, t.orders)
  {
    SameOrdersGrow(s.orders, t.orders);
  }

  lemma FaultGrows(c: Crypto, s: State, from: nat, f: SegRemove, t: State)
    requires ApplyFault(c, s, from, f) == Ok(t)
    ensures OrdersGrow(s.orders, t.orders)
  {
  }

  lemma GrowStep(c: Crypto, s: State, from: nat, body: Payload, t: State)
    requires OrdersOk(s.orders) && Step(c, s, from, body) == Ok(t)
    ensures OrdersGrow(s.orders, t.orders)
  {
    match body
    case AddDataOrder(q) => AddSeqGrows(c, s, from, q, t);
    case PreDataOrder(o) => OpenGrows(c, s, from, o, t);
    case CommitDataOrder(u, p, n, q) => CommitGrows(s, from, u, p, n, q, t);
    case SubDataOrder(u, p, n) => SubGrows(s, from, u, p, n, t);
    case SegmentFault(f) => FaultGrows(c, s, from, f, t);
    case Malformed(_) =>
    case _ => SameOrdersGrow(s.orders, t.orders);
  }

  lemma GrowTransitive(a: OrderDb, b: OrderDb, d: OrderDb)
    requires OrdersGrow(a, b) && OrdersGrow(b, d)
    ensures OrdersGrow(a, d)
  {
    forall key ensures OrderGrows(a, d, key) {
      assert OrderGrows(a, b, key) && OrderGrows(b, d, key);
    }
    forall k ensures PairGrows(a, d, k) {
      assert PairGrows(a, b, k) && PairGrows(b, d, k);
    }
  }
}
