/** What a node remembers about the previous order of a pair, over whole runs. */
module OrderDates {
  import opened Types
  import opened Chain
  import opened Growth
  import opened Invariants
  import opened Restarts

  /** As long as a node is not restarted: every pair with an order is remembered, and by empty dates. */
  ghost predicate OnlyZeros(s: State)
  {
    && (forall key | key in s.orders.base :: key.pair in s.dates)
    && (forall k | k in s.dates :: s.dates[k] == Dates(0, 0))
  }

  /** The dates of order n of the pair, which is no longer the current one. */
  ghost predicate PastOrder(o: OrderDb, k: Pair, n: nat, d: Dates)
  {
    && n < Ns(o, k).nonce && OrderKey(k, n) in o.base
    && d == Dates(o.base[OrderKey(k, n)].order.ob.start, o.base[OrderKey(k, n)].order.ob.end)
  }

  ghost predicate PastDates(o: OrderDb, k: Pair, d: Dates)
  {
    d == Dates(0, 0) || exists n: nat :: PastOrder(o, k, n, d)
  }

  /** Restarted or not: dates remembered are empty or those of an earlier order of the pair. */
  ghost predicate OnlyPast(s: State)
  {
    forall k | k in s.dates :: PastDates(s.orders, k, s.dates[k])
  }

  /** At most the dates of one pair are added to those remembered. */
  ghost predicate Touches(s: State, t: State)
  {
    t.dates == s.dates || exists k :: t.dates == Touch(s, k).dates
  }

  lemma OpenTouches(c: Crypto, s: State, from: nat, o: SignedOrder, t: State)
    requires ApplyCreateOrder(c, s, from, o) == Ok(t)
    ensures Touches(s, t)
  {
    assert t.dates == Touch(s, Pair(o.ob.user, o.ob.pro)).dates;
  }

  lemma AddSeqTouches(c: Crypto, s: State, from: nat, q: SignedSeq, t: State)
    requires ApplyAddSeq(c, s, from, q) == Ok(t)
    ensures Touches(s, t)
  {
    assert t.dates == Touch(s, Pair(q.data.user, q.data.pro)).dates;
  }

  lemma CommitTouches(s: State, from: nat, user: nat, pro: nat, nonce: nat, seqNum: nat, t: State)
    requires ApplyCommit(s, from, user, pro, nonce, seqNum) == Ok(t)
    ensures Touches(s, t)
  {
    assert t.dates == Touch(s, Pair(user, pro)).dates;
  }

  lemma SubTouches(s: State, from: nat, user: nat, pro: nat, nonce: nat, t: State)
    requires ApplySub(s, from, user, pro, nonce) == Ok(t)
    ensures Touches(s, t)
  {
    assert t.dates == Touch(s, Pair(user, pro)).dates;
  }

  lemma FaultTouches(c: Crypto, s: State, from: nat, f: SegRemove, t: State)
    requires ApplyFault(c, s, from, f) == Ok(t)
    ensures Touches(s, t)
  {
    assert t.dates == Touch(s, Pair(f.user, f.pro)).dates;
  }

  lemma ProofTouches(c: Crypto, s: State, from: nat, p: SegProof, t: State)
    requires ApplyProof(c, s, from, p) == Ok(t)
    ensures Touches(s, t)
  {
    assert t.dates == Touch(s, Pair(p.user, p.pro)).dates;
  }

  lemma StepTouches(c: Crypto, s: State, from: nat, body: Payload, t: State)
    requires Step(c, s, from, body) == Ok(t)
    ensures Touches(s, t)
  {
    match body
    case PreDataOrder(o) => OpenTouches(c, s, from, o, t);
    case AddDataOrder(q) => AddSeqTouches(c, s, from, q, t);
    case CommitDataOrder(u, p, n, q) => CommitTouches(s, from, u, p, n, q, t);
    case SubDataOrder(u, p, n) => SubTouches(s, from, u, p, n, t);
    case SegmentFault(f) => FaultTouches(c, s, from, f, t);
    case SegmentProof(p) => ProofTouches(c, s, from, p, t);
    case Malformed(_) =>
    case _ => assert t.dates == s.dates;
  }

  /** A transition remembers what it would have loaded, and forgets nothing. */
  lemma StepDates(c: Crypto, s: State, from: nat, body: Payload, t: State)
    requires Step(c, s, from, body) == Ok(t)
    ensures forall k | k in s.dates :: k in t.dates && t.dates[k] == s.dates[k]
    ensures forall k | k in t.dates :: t.dates[k] == Remembered(s, k)
  {
    StepTouches(c, s, from, body, t);
    if t.dates != s.dates {
      var j :| t.dates == Touch(s, j).dates;
      TouchDates(s, j);
    }
  }

  lemma TouchDates(s: State, j: Pair)
    ensures Touch(s, j).dates == s.dates[j := Remembered(s, j)]
  {
  }

  /** An order is opened or changed only for a pair that is then remembered. */
  lemma StepRemembers(c: Crypto, s: State, from: nat, body: Payload, t: State)
    requires Step(c, s, from, body) == Ok(t)
    ensures forall key | key in t.orders.base :: key in s.orders.base || key.pair in t.dates
  {
    match body
    case Malformed(_) =>
    case _ =>
  }

  lemma LoadedDates(o: OrderDb, k: Pair)
    ensures PastDates(o, k, LoadDates(o, k))
  {
    var n := Ns(o, k).nonce;
    if LoadDates(o, k) != Dates(0, 0) { assert PastOrder(o, k, n - 1, LoadDates(o, k)); }
  }

  lemma ZerosStep(c: Crypto, s: State, from: nat, body: Payload, t: State)
    requires OnlyZeros(s) && Step(c, s, from, body) == Ok(t)
    ensures OnlyZeros(t)
  {
    StepDates(c, s, from, body, t);
    StepRemembers(c, s, from, body, t);
    RememberedZeros(s);
  }

  lemma RememberedZeros(s: State)
    requires OnlyZeros(s)
    ensures forall k {:trigger Remembered(s, k)} :: Remembered(s, k) == Dates(0, 0)
  {
  }

  lemma PastDatesGrow(o: OrderDb, o': OrderDb, k: Pair, d: Dates)
    requires PastDates(o, k, d) && OrdersGrow(o, o')
    ensures PastDates(o', k, d)
  {
    if d != Dates(0, 0) {
      var n: nat :| PastOrder(o, k, n, d);
      assert OrderGrows(o, o', OrderKey(k, n)) && PairGrows(o, o', k);
      assert PastOrder(o', k, n, d);
    }
  }

  lemma PastStep(c: Crypto, s: State, from: nat, body: Payload, t: State)
    requires OnlyPast(s) && OrdersGrow(s.orders, t.orders) && Step(c, s, from, body) == Ok(t)
    ensures OnlyPast(t)
  {
    StepDates(c, s, from, body, t);
    forall k | k in t.dates ensures PastDates(t.orders, k, t.dates[k]) {
      LoadedDates(s.orders, k);
      PastDatesGrow(s.orders, t.orders, k, t.dates[k]);
    }
  }

  // ---- Messages, blocks and runs ----

  lemma {:induction false} MsgsDates(c: Crypto, s: State, msgs: seq<Message>, receipts: seq<bool>, t: State)
    requires Inv(c, s) && OnlyPast(s) && |msgs| <= |receipts| && ApplyMsgs(c, s, msgs, receipts) == Ok(t)
    ensures OnlyPast(t) && (OnlyZeros(s) ==> OnlyZeros(t))
  {
    if msgs != [] {
      var n := |msgs| - 1;
      var u := ApplyMsgs(c, s, msgs[..n], receipts).value;
      MsgsDates(c, s, msgs[..n], receipts, u);
      MsgsKeep(c, s, msgs[..n], receipts, u);
      if !receipts[n] { ChargedDates(c, u, msgs[n], t); }
    }
  }

  lemma ChargedDates(c: Crypto, s: State, m: Message, t: State)
    requires Inv(c, s) && OnlyPast(s) && Step(c, Charge(c, s, m), m.from, m.body) == Ok(t)
    ensures OnlyPast(t) && (OnlyZeros(s) ==> OnlyZeros(t))
  {
    var u := Charge(c, s, m);
    GrowStep(c, u, m.from, m.body, t);
    PastStep(c, u, m.from, m.body, t);
    if OnlyZeros(s) { ZerosStep(c, u, m.from, m.body, t); }
  }

  lemma BlockDates(c: Crypto, s: State, b: Block, t: State)
    requires Inv(c, s) && OnlyPast(s) && ApplyBlock(c, s, b) == Ok(t)
    ensures OnlyPast(t) && (OnlyZeros(s) ==> OnlyZeros(t))
  {
    var h := Opened(c, s, b.raw.header);
    InvFrame(c, s, h);
    MsgsDates(c, h, b.raw.msgs, b.raw.receipts, ApplyMsgs(c, h, b.raw.msgs, b.raw.receipts).value);
  }

  ghost predicate NoRestart(events: seq<Event>)
  {
    forall i | 0 <= i < |events| :: events[i].Applied?
  }

  lemma {:induction false} RunDates(c: Crypto, id: nat, threshold: nat, events: seq<Event>, s: State)
    requires Run(c, Genesis(id, threshold), events) == Ok(s)
    ensures OnlyPast(s) && (NoRestart(events) ==> OnlyZeros(s))
  {
    if events != [] {
      var n := |events| - 1;
      var u := Run(c, Genesis(id, threshold), events[..n]).value;
      RunDates(c, id, threshold, events[..n], u);
      if events[n].Applied? {
        InvGenesis(c, id, threshold);
        RunKeeps(c, Genesis(id, threshold), events[..n], u);
        BlockDates(c, u, events[n].block, s);
      }
    }
  }

  /** On a node that has never been restarted the comparison with the previous order refuses nothing. */
  lemma NeverRestartedNeverCompares(c: Crypto, id: nat, threshold: nat, events: seq<Event>, s: State, from: nat,
                                    o: SignedOrder)
    requires Run(c, Genesis(id, threshold), events) == Ok(s) && NoRestart(events)
    ensures ApplyCreateOrder(c, s, from, o).Ok? <==> FitsButDates(c, s, from, o)
  {
    RunDates(c, id, threshold, events, s);
    RememberedZeros(s);
    CreateOrderVerdict(c, s, s, from, o);
  }

  /** In any reachable state an order refused for its dates alone starts or ends before an earlier
      order of its pair. */
  lemma RefusedForEarlierOrder(c: Crypto, s: State, from: nat, o: SignedOrder) returns (n: nat)
    requires Reachable(c, s) && FitsButDates(c, s, from, o) && ApplyCreateOrder(c, s, from, o).Err?
    ensures var key := OrderKey(Pair(o.ob.user, o.ob.pro), n);
            && n < o.ob.nonce && key in s.orders.base
            && (o.ob.start < s.orders.base[key].order.ob.start || o.ob.end < s.orders.base[key].order.ob.end)
  {
    var k := Pair(o.ob.user, o.ob.pro);
    ReachablePast(c, s);
    CreateOrderVerdict(c, s, s, from, o);
    LoadedDates(s.orders, k);
    assert PastDates(s.orders, k, Remembered(s, k));
    n :| PastOrder(s.orders, k, n, Remembered(s, k));
  }

  lemma ReachablePast(c: Crypto, s: State)
    requires Reachable(c, s)
    ensures OnlyPast(s)
  {
    var id: nat, threshold: nat, events :| Run(c, Genesis(id, threshold), events) == Ok(s);
    RunDates(c, id, threshold, events, s);
  }
}
