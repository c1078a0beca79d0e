/** What the stored records mean in every reachable state: who signed them, what they cost, which
    segments they stand for, and as of when the counters were recorded. */
module Contracts {
  import opened Types
  import opened Chain
  import opened OrderBook
  import opened Epochs
  import opened Growth
  import opened SegmentNames
  import opened Invariants

  // ---- Sequences ----

  /** A sequence is filed under its own numbers, and its field element is the sum over the names of its
      segments in the file system of its user. */
  ghost predicate SeqRecord(c: Crypto, s: State, key: SeqKey)
    requires key in s.orders.seqs
  {
    var sf := s.orders.seqs[key];
    && sf.data.user == key.pair.user && sf.data.pro == key.pair.pro
    && sf.data.nonce == key.nonce && sf.data.seqNum == key.seqNum
    && key.pair.user in s.fs.verifyKey
    && sf.fr == Sum(c, s.fs.verifyKey[key.pair.user], Names(sf.data.segments))
  }

  ghost predicate SeqRecords(c: Crypto, s: State)
  {
    forall key {:trigger SeqRecord(c, s, key)} | key in s.orders.seqs :: SeqRecord(c, s, key)
  }

  /** Nothing but the records of one sequence changes, and its deletions. */
  lemma SeqRecordFrame(c: Crypto, s: State, t: State, key: SeqKey)
    requires key in s.orders.seqs && SeqRecord(c, s, key) && key in t.orders.seqs
    requires t.orders.seqs[key].data == s.orders.seqs[key].data && t.orders.seqs[key].fr == s.orders.seqs[key].fr
    requires forall u | u in s.fs.verifyKey :: u in t.fs.verifyKey && t.fs.verifyKey[u] == s.fs.verifyKey[u]
    ensures SeqRecord(c, t, key)
  {
  }

  lemma AddSeqRecord(c: Crypto, s: State, from: nat, q: SignedSeq, t: State)
    requires SeqRecords(c, s) && ApplyAddSeq(c, s, from, q) == Ok(t)
    ensures SeqRecords(c, t)
  {
    var key0 := SeqKey(Pair(q.data.user, q.data.pro), q.data.nonce, q.data.seqNum);
    KeysKept(s.fs, q.data.user, q.data.pro, q.data.nonce, q.data.segments);
    SegsFrIsSum(c, s.fs.verifyKey[q.data.user], q.data.segments);
    forall key | key in t.orders.seqs ensures SeqRecord(c, t, key) {
      if key != key0 { SeqRecordFrame(c, s, t, key); }
    }
  }

  lemma {:induction false} KeysKept(fs: FsDb, user: nat, pro: nat, nonce: nat, segs: seq<AggSegs>)
    ensures ApplyAddChunks(fs, user, pro, nonce, segs).Ok? ==>
            ApplyAddChunks(fs, user, pro, nonce, segs).value.verifyKey == fs.verifyKey
  {
    if segs != [] { KeysKept(fs, user, pro, nonce, segs[..|segs| - 1]); }
  }

  lemma FaultRecord(c: Crypto, s: State, from: nat, f: SegRemove, t: State)
    requires SeqRecords(c, s) && ApplyFault(c, s, from, f) == Ok(t)
    ensures SeqRecords(c, t)
  {
    forall key | key in t.orders.seqs ensures SeqRecord(c, t, key) { SeqRecordFrame(c, s, t, key); }
  }

  lemma FsRecord(c: Crypto, s: State, from: nat, verifyKey: nat, t: State)
    requires SeqRecords(c, s) && ApplyCreateFs(s, from, verifyKey) == Ok(t)
    ensures SeqRecords(c, t)
  {
    forall key | key in t.orders.seqs ensures SeqRecord(c, t, key) { SeqRecordFrame(c, s, t, key); }
  }

  lemma SameSeqRecords(c: Crypto, s: State, t: State)
    requires SeqRecords(c, s) && t.orders.seqs == s.orders.seqs && t.fs.verifyKey == s.fs.verifyKey
    ensures SeqRecords(c, t)
  {
    forall key | key in t.orders.seqs ensures SeqRecord(c, t, key) { SeqRecordFrame(c, s, t, key); }
  }

  lemma SeqRecordsStep(c: Crypto, s: State, from: nat, body: Payload, t: State)
    requires SeqRecords(c, s) && Step(c, s, from, body) == Ok(t)
    ensures SeqRecords(c, t)
  {
    match body
    case AddDataOrder(q) => AddSeqRecord(c, s, from, q, t);
    case SegmentFault(f) => FaultRecord(c, s, from, f, t);
    case CreateFs(vk) => FsRecord(c, s, from, vk, t);
    case Malformed(_) =>
    case _ => SameSeqRecords(c, s, t);
  }

  // ---- Orders ----

  /** Number of segments in the first m sequences of order n. */
  function Held(o: OrderDb, k: Pair, n: nat, m: nat): nat
  {
    if m == 0 then 0 else Held(o, k, n, m - 1) + |Names(SeqAt(o, k, n, m - 1).data.segments)|
  }

  /** Both parties, as registered, signed the order as it is: its terms, size and price. */
  predicate SignedByBoth(c: Crypto, roles: map<nat, RoleBase>, o: SignedOrder)
  {
    var digest := OrderDigest(o.ob.user, o.ob.pro, o.ob.nonce, o.ob.start, o.ob.end, o.size, o.ob.token, o.price);
    && o.ob.user in roles && o.usign.typ != SigUnknown && c.sigOk(roles[o.ob.user], digest, o.usign)
    && o.ob.pro in roles && o.psign.typ != SigUnknown && c.sigOk(roles[o.ob.pro], digest, o.psign)
  }

  predicate GoodTerms(b: OrderBase)
  {
    b.start > BASE_TIME && ORDER_MIN <= b.end - b.start <= ORDER_MAX && b.end % DAY == 0
  }

  /** An order has good terms that both signed, holds as many segments as its size says and costs the
      price of a segment for each, deleted ones included; a committed order holds some. */
  ghost predicate OrderRecord(c: Crypto, s: State, key: OrderKey)
    requires key in s.orders.base
  {
    var of := s.orders.base[key];
    && GoodTerms(of.order.ob)
    && SignedByBoth(c, s.roles.base, of.order)
    && of.order.size == SEG_SIZE * Held(s.orders, key.pair, key.nonce, of.seqNum)
    && of.order.price == Cost(of.order.ob.segPrice, Held(s.orders, key.pair, key.nonce, of.seqNum))
    && (key.nonce < Ns(s.orders, key.pair).nonce ==> of.order.size > 0)
  }

  ghost predicate OrderRecords(c: Crypto, s: State)
  {
    forall key {:trigger OrderRecord(c, s, key)} | key in s.orders.base :: OrderRecord(c, s, key)
  }

  lemma {:induction false} HeldFrame(o: OrderDb, o': OrderDb, k: Pair, n: nat, m: nat)
    requires forall i: nat | i < m :: SeqAt(o', k, n, i).data == SeqAt(o, k, n, i).data
    ensures Held(o', k, n, m) == Held(o, k, n, m)
  {
    if m > 0 { HeldFrame(o, o', k, n, m - 1); }
  }

  lemma {:induction false} CostOfSum(segPrice: nat, a: nat, b: nat)
    ensures Cost(segPrice, a + b) == Cost(segPrice, a) + Cost(segPrice, b)
  {
    if b > 0 { CostOfSum(segPrice, a, b - 1); }
  }

  /** A record whose sequences keep their data stays what it is. */
  lemma OrderRecordFrame(c: Crypto, s: State, t: State, key: OrderKey)
    requires key in s.orders.base && OrderRecord(c, s, key) && key in t.orders.base
    requires t.orders.base[key].order == s.orders.base[key].order
    requires t.orders.base[key].seqNum == s.orders.base[key].seqNum
    requires forall i: nat | i < s.orders.base[key].seqNum ::
               SeqAt(t.orders, key.pair, key.nonce, i).data == SeqAt(s.orders, key.pair, key.nonce, i).data
    requires forall id | id in s.roles.base :: id in t.roles.base && t.roles.base[id] == s.roles.base[id]
    requires key.nonce < Ns(t.orders, key.pair).nonce ==>
               key.nonce < Ns(s.orders, key.pair).nonce || s.orders.base[key].order.size > 0
    ensures OrderRecord(c, t, key)
  {
    HeldFrame(s.orders, t.orders, key.pair, key.nonce, s.orders.base[key].seqNum);
  }

  lemma OpenRecord(c: Crypto, s: State, from: nat, o: SignedOrder, t: State)
    requires OrderRecords(c, s) && OrdersOk(s.orders) && ApplyCreateOrder(c, s, from, o) == Ok(t)
    ensures OrderRecords(c, t)
  {
    var key0 := OrderKey(Pair(o.ob.user, o.ob.pro), o.ob.nonce);
    assert PairOk(s.orders, key0.pair);
    forall key | key in t.orders.base ensures OrderRecord(c, t, key) {
      if key != key0 { OrderRecordFrame(c, s, t, key); }
    }
  }

  lemma ExtendRecord(c: Crypto, s: State, from: nat, q: SignedSeq, t: State)
    requires OrderRecords(c, s) && OrdersOk(s.orders) && ApplyAddSeq(c, s, from, q) == Ok(t)
    ensures OrderRecords(c, t)
  {
    var key0 := OrderKey(Pair(q.data.user, q.data.pro), q.data.nonce);
    assert PairOk(s.orders, key0.pair) && OrderOk(s.orders, key0);
    ExtendedOrder(c, s, from, q, t);
    forall key | key in t.orders.base ensures OrderRecord(c, t, key) {
      if key != key0 { OrderRecordFrame(c, s, t, key); }
    }
  }

  /** What a sequence adds to the order record, and the record of the sequence. */
  ghost predicate Extends(o: OrderDb, o': OrderDb, key: OrderKey, d: OrderSeq)
  {
    && key in o.base && key in o'.base && Ns(o', key.pair).nonce == key.nonce
    && var x, y := o.base[key], o'.base[key];
    && y.seqNum == x.seqNum + 1 && y.order.ob == x.order.ob
    && y.order.size == x.order.size + CountSegs(d.segments) * SEG_SIZE
    && y.order.price == Cost(x.order.ob.segPrice, CountSegs(d.segments)) + x.order.price
    && SeqAt(o', key.pair, key.nonce, x.seqNum).data == d
    && (forall i: nat | i < x.seqNum :: SeqAt(o', key.pair, key.nonce, i) == SeqAt(o, key.pair, key.nonce, i))
  }

  lemma Extension(c: Crypto, s: State, from: nat, q: SignedSeq, t: State)
    requires OrdersOk(s.orders) && ApplyAddSeq(c, s, from, q) == Ok(t)
    ensures Extends(s.orders, t.orders, OrderKey(Pair(q.data.user, q.data.pro), q.data.nonce), q.data)
  {
    var key := OrderKey(Pair(q.data.user, q.data.pro), q.data.nonce);
    assert PairOk(s.orders, key.pair) && OrderOk(s.orders, key);
  }

  lemma ExtensionSigned(c: Crypto, s: State, from: nat, q: SignedSeq, t: State)
    requires OrdersOk(s.orders) && ApplyAddSeq(c, s, from, q) == Ok(t)
    ensures var key := OrderKey(Pair(q.data.user, q.data.pro), q.data.nonce);
            key in t.orders.base && SignedByBoth(c, t.roles.base, t.orders.base[key].order)
  {
    var key := OrderKey(Pair(q.data.user, q.data.pro), q.data.nonce);
    assert PairOk(s.orders, key.pair) && OrderOk(s.orders, key);
  }

  lemma ExtendedOrder(c: Crypto, s: State, from: nat, q: SignedSeq, t: State)
    requires OrderRecords(c, s) && OrdersOk(s.orders) && ApplyAddSeq(c, s, from, q) == Ok(t)
    ensures var key := OrderKey(Pair(q.data.user, q.data.pro), q.data.nonce);
            key in t.orders.base && OrderRecord(c, t, key)
  {
    var key := OrderKey(Pair(q.data.user, q.data.pro), q.data.nonce);
    Extension(c, s, from, q, t);
    ExtensionSigned(c, s, from, q, t);
    assert OrderRecord(c, s, key);
    ExtendedSums(c, s, t, key, q.data);
  }

  lemma ExtendedSums(c: Crypto, s: State, t: State, key: OrderKey, d: OrderSeq)
    requires Extends(s.orders, t.orders, key, d) && OrderRecord(c, s, key)
    requires SignedByBoth(c, t.roles.base, t.orders.base[key].order)
    ensures OrderRecord(c, t, key)
  {
    var k, n, m := key.pair, key.nonce, s.orders.base[key].seqNum;
    NamesCount(d.segments);
    HeldFrame(s.orders, t.orders, k, n, m);
    assert Held(t.orders, k, n, m + 1) == Held(s.orders, k, n, m) + CountSegs(d.segments);
    CostOfSum(s.orders.base[key].order.ob.segPrice, Held(s.orders, k, n, m), CountSegs(d.segments));
  }

  lemma CommitRecord(c: Crypto, s: State, from: nat, user: nat, pro: nat, nonce: nat, seqNum: nat, t: State)
    requires OrderRecords(c, s) && OrdersOk(s.orders) && ApplyCommit(s, from, user, pro, nonce, seqNum) == Ok(t)
    ensures OrderRecords(c, t)
  {
    forall key | key in t.orders.base ensures OrderRecord(c, t, key) { OrderRecordFrame(c, s, t, key); }
  }

  lemma FaultOrderRecord(c: Crypto, s: State, from: nat, f: SegRemove, t: State)
    requires OrderRecords(c, s) && ApplyFault(c, s, from, f) == Ok(t)
    ensures OrderRecords(c, t)
  {
    forall key | key in t.orders.base ensures OrderRecord(c, t, key) { OrderRecordFrame(c, s, t, key); }
  }

  lemma RoleRecord(c: Crypto, s: State, from: nat, role: RoleBase, t: State)
    requires OrderRecords(c, s) && ApplyAddRole(s, from, role) == Ok(t)
    ensures OrderRecords(c, t)
  {
    forall key | key in t.orders.base ensures OrderRecord(c, t, key) { OrderRecordFrame(c, s, t, key); }
  }

  lemma SameOrderRecords(c: Crypto, s: State, t: State)
    requires OrderRecords(c, s) && t.orders.base == s.orders.base && t.orders.seqs == s.orders.seqs
    requires t.roles.base == s.roles.base && forall k :: Ns(t.orders, k).nonce == Ns(s.orders, k).nonce
    ensures OrderRecords(c, t)
  {
    forall key | key in t.orders.base ensures OrderRecord(c, t, key) { OrderRecordFrame(c, s, t, key); }
  }

  lemma OrderRecordsStep(c: Crypto, s: State, from: nat, body: Payload, t: State)
    requires OrderRecords(c, s) && OrdersOk(s.orders) && Step(c, s, from, body) == Ok(t)
    ensures OrderRecords(c, t)
  {
    match body
    case PreDataOrder(o) => OpenRecord(c, s, from, o, t);
    case AddDataOrder(q) => ExtendRecord(c, s, from, q, t);
    case CommitDataOrder(u, p, n, q) => CommitRecord(c, s, from, u, p, n, q, t);
    case SegmentFault(f) => FaultOrderRecord(c, s, from, f, t);
    case AddRole(role) => RoleRecord(c, s, from, role, t);
    case Malformed(_) =>
    case _ => SameOrderRecords(c, s, t);
  }

  // ---- Counters ----

  /** The counters recorded for the running epoch are the present ones. */
  ghost predicate RecordedNow(s: State, k: Pair)
  {
    PairEpoch(k, s.ce.epoch) in s.orders.stateAt ==> s.orders.stateAt[PairEpoch(k, s.ce.epoch)] == Ns(s.orders, k)
  }

  /** Nothing is recorded ahead. */
  ghost predicate NoneAhead(s: State)
  {
    forall key | key in s.orders.stateAt :: key.epoch <= s.ce.epoch
  }

  ghost predicate Counters(s: State)
  {
    NoneAhead(s) && forall k: Pair :: RecordedNow(s, k)
  }

  /** What a transition does to the records of earlier epochs, and to those of a pair it changes. */
  ghost predicate CountersMove(s: State, t: State)
  {
    && (forall key | key in s.orders.stateAt && key.epoch != s.ce.epoch ::
          key in t.orders.stateAt && t.orders.stateAt[key] == s.orders.stateAt[key])
    && (forall k: Pair | Ns(t.orders, k) != Ns(s.orders, k) :: PairEpoch(k, s.ce.epoch) in t.orders.stateAt)
  }

  lemma NoneAheadStep(c: Crypto, s: State, from: nat, body: Payload, t: State)
    requires NoneAhead(s) && Step(c, s, from, body) == Ok(t)
    ensures NoneAhead(t)
  {
    match body
    case Malformed(_) =>
    case _ =>
  }

  lemma RecordedStep(c: Crypto, s: State, from: nat, body: Payload, t: State, k: Pair)
    requires Counters(s) && Step(c, s, from, body) == Ok(t)
    ensures RecordedNow(t, k)
  {
    assert RecordedNow(s, k);
    match body
    case Malformed(_) =>
    case _ =>
  }

  lemma CountersStep(c: Crypto, s: State, from: nat, body: Payload, t: State)
    requires Counters(s) && Step(c, s, from, body) == Ok(t)
    ensures Counters(t)
  {
    NoneAheadStep(c, s, from, body, t);
    forall k: Pair ensures RecordedNow(t, k) { RecordedStep(c, s, from, body, t, k); }
  }

  lemma RecordFrozen(c: Crypto, s: State, from: nat, body: Payload, t: State, key: PairEpoch)
    requires Step(c, s, from, body) == Ok(t) && key in s.orders.stateAt && key.epoch != s.ce.epoch
    ensures key in t.orders.stateAt && t.orders.stateAt[key] == s.orders.stateAt[key]
  {
    match body
    case Malformed(_) =>
    case _ =>
  }

  lemma ChangeRecorded(c: Crypto, s: State, from: nat, body: Payload, t: State, k: Pair)
    requires Step(c, s, from, body) == Ok(t) && Ns(t.orders, k) != Ns(s.orders, k)
    ensures PairEpoch(k, s.ce.epoch) in t.orders.stateAt
  {
    match body
    case Malformed(_) =>
    case _ =>
  }

  /** Counters recorded for an epoch are final once it is over, and no change goes unrecorded. */
  lemma CountersFrozen(c: Crypto, s: State, from: nat, body: Payload, t: State)
    requires Step(c, s, from, body) == Ok(t)
    ensures CountersMove(s, t)
  {
    forall key | key in s.orders.stateAt && key.epoch != s.ce.epoch
      ensures key in t.orders.stateAt && t.orders.stateAt[key] == s.orders.stateAt[key]
    {
      RecordFrozen(c, s, from, body, t, key);
    }
    forall k: Pair | Ns(t.orders, k) != Ns(s.orders, k) ensures PairEpoch(k, s.ce.epoch) in t.orders.stateAt {
      ChangeRecorded(c, s, from, body, t, k);
    }
  }

  // ---- Windows ----

  /** No recorded window is shorter than the shortest challenge epoch. */
  ghost predicate LongWindows(s: State)
  {
    forall i: nat | i < s.ce.epoch :: Boundary(s.ce, i + 1) - Boundary(s.ce, i) >= 120
  }

  lemma UpdateWindows(c: Crypto, s: State, p: EpochParams, t: State)
    requires ClockOk(s) && LongWindows(s) && ApplyUpdateEpoch(c, s, p) == Ok(t)
    ensures LongWindows(t)
  {
    UpdateEpochKeeps(c, s, p, t);
    assert Boundary(t.ce, s.ce.epoch) == Boundary(s.ce, s.ce.epoch);
  }

  lemma WindowsStep(c: Crypto, s: State, from: nat, body: Payload, t: State)
    requires ClockOk(s) && LongWindows(s) && Step(c, s, from, body) == Ok(t)
    ensures LongWindows(t)
  {
    match body
    case UpdateChalEpoch(p) => UpdateWindows(c, s, p, t);
    case Malformed(_) =>
    case _ => assert t.ce == s.ce;
  }

  // ---- Every reachable state ----

  ghost predicate RecordsOk(c: Crypto, s: State)
  {
    SeqRecords(c, s) && OrderRecords(c, s) && Counters(s) && LongWindows(s)
  }

  lemma RecordsStep(c: Crypto, s: State, from: nat, body: Payload, t: State)
    requires OrdersOk(s.orders) && ClockOk(s) && RecordsOk(c, s) && Step(c, s, from, body) == Ok(t)
    ensures RecordsOk(c, t)
  {
    SeqRecordsStep(c, s, from, body, t);
    OrderRecordsStep(c, s, from, body, t);
    CountersStep(c, s, from, body, t);
    WindowsStep(c, s, from, body, t);
  }

  /** Nonces, root and block data do not matter. */
  lemma RecordsFrame(c: Crypto, s: State, t: State)
    requires RecordsOk(c, s) && t.orders == s.orders && t.fs == s.fs && t.ce == s.ce && t.roles.base == s.roles.base
    ensures RecordsOk(c, t)
  {
    SameSeqRecords(c, s, t);
    SameOrderRecords(c, s, t);
    forall k: Pair ensures RecordedNow(t, k) { assert RecordedNow(s, k); }
  }

  lemma MessageRecords(c: Crypto, s: State, m: Message, rejected: bool, t: State)
    requires Inv(c, s) && RecordsOk(c, s) && ApplyMsg(c, s, m, rejected) == Ok(t)
    ensures RecordsOk(c, t)
  {
    var u := Charge(c, s, m);
    RecordsFrame(c, s, u);
    if !rejected {
      InvFrame(c, s, u);
      RecordsStep(c, u, m.from, m.body, t);
    }
  }

  lemma {:induction false} MsgsRecords(c: Crypto, s: State, msgs: seq<Message>, receipts: seq<bool>, t: State)
    requires Inv(c, s) && RecordsOk(c, s) && |msgs| <= |receipts| && ApplyMsgs(c, s, msgs, receipts) == Ok(t)
    ensures RecordsOk(c, t)
  {
    if msgs != [] {
      var n := |msgs| - 1;
      var u := ApplyMsgs(c, s, msgs[..n], receipts).value;
      MsgsRecords(c, s, msgs[..n], receipts, u);
      MsgsKeep(c, s, msgs[..n], receipts, u);
      MessageRecords(c, u, msgs[n], receipts[n], t);
    }
  }

  lemma BlockRecords(c: Crypto, s: State, b: Block, t: State)
    requires Inv(c, s) && RecordsOk(c, s) && ApplyBlock(c, s, b) == Ok(t)
    ensures RecordsOk(c, t)
  {
    var h := Opened(c, s, b.raw.header);
    InvFrame(c, s, h);
    RecordsFrame(c, s, h);
    var u := ApplyMsgs(c, h, b.raw.msgs, b.raw.receipts).value;
    MsgsRecords(c, h, b.raw.msgs, b.raw.receipts, u);
    RecordsFrame(c, u, t);
  }

  lemma {:induction false} RunRecords(c: Crypto, id: nat, threshold: nat, events: seq<Event>, s: State)
    requires Run(c, Genesis(id, threshold), events) == Ok(s)
    ensures RecordsOk(c, s)
  {
    if events != [] {
      var n := |events| - 1;
      var u := Run(c, Genesis(id, threshold), events[..n]).value;
      RunRecords(c, id, threshold, events[..n], u);
      if events[n].Applied? {
        InvGenesis(c, id, threshold);
        RunKeeps(c, Genesis(id, threshold), events[..n], u);
        BlockRecords(c, u, events[n].block, s);
      } else {
        RecordsFrame(c, u, s);
      }
    }
  }

  /** Every record of every reachable state is what it says. */
  lemma ReachableRecords(c: Crypto, s: State)
    requires Reachable(c, s)
    ensures RecordsOk(c, s)
  {
    var id: nat, threshold: nat, events :| Run(c, Genesis(id, threshold), events) == Ok(s);
    RunRecords(c, id, threshold, events, s);
  }
}
