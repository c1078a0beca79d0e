/** Dropping the caches changes no outcome, except through the remembered dates of the previous
    order, which only PreDataOrder reads. */
module Restarts {
  import opened Types
  import opened Chain
  import opened Cache

  ghost predicate SameButDates(s: State, t: State)
  {
    t == s.(dates := t.dates)
  }

  ghost predicate SameOutcome(x: Result<State>, y: Result<State>)
  {
    (x.Ok? <==> y.Ok?) && (x.Ok? ==> SameButDates(x.value, y.value))
  }

  /** Every method but PreDataOrder ends alike from states that differ in remembered dates only. */
  lemma StepIgnoresDates(c: Crypto, s: State, t: State, from: nat, body: Payload)
    requires SameButDates(s, t) && !body.PreDataOrder?
    ensures SameOutcome(Step(c, s, from, body), Step(c, t, from, body))
  {
    match body
    case AddDataOrder(q) => AddSeqIgnoresDates(c, s, t, from, q);
    case SegmentProof(p) => ProofIgnoresDates(c, s, t, from, p);
    case CommitDataOrder(u, p, n, q) => CommitIgnoresDates(s, t, from, u, p, n, q);
    case SubDataOrder(u, p, n) => SubIgnoresDates(s, t, from, u, p, n);
    case SegmentFault(f) => FaultIgnoresDates(c, s, t, from, f);
    case _ =>
  }

  lemma AddSeqIgnoresDates(c: Crypto, s: State, t: State, from: nat, q: SignedSeq)
    requires SameButDates(s, t)
    ensures SameOutcome(ApplyAddSeq(c, s, from, q), ApplyAddSeq(c, t, from, q))
  {
    SameVerdict(c, from, q, Find(s.roles.base, q.data.user), Find(s.roles.base, q.data.pro),
                OrderOf(s, Pair(q.data.user, q.data.pro)), OrderOf(t, Pair(q.data.user, q.data.pro)));
  }

  lemma ProofIgnoresDates(c: Crypto, s: State, t: State, from: nat, p: SegProof)
    requires SameButDates(s, t)
    ensures SameOutcome(ApplyProof(c, s, from, p), ApplyProof(c, t, from, p))
  {
    SamePrice(c, s.orders, OrderOf(s, Pair(p.user, p.pro)), OrderOf(t, Pair(p.user, p.pro)),
              Find(s.fs.verifyKey, p.user), s.ce.current, s.ce.previous, from, p);
  }

  lemma CommitIgnoresDates(s: State, t: State, from: nat, user: nat, pro: nat, nonce: nat, seqNum: nat)
    requires SameButDates(s, t)
    ensures SameOutcome(ApplyCommit(s, from, user, pro, nonce, seqNum), ApplyCommit(t, from, user, pro, nonce, seqNum))
  {
  }

  lemma SubIgnoresDates(s: State, t: State, from: nat, user: nat, pro: nat, nonce: nat)
    requires SameButDates(s, t)
    ensures SameOutcome(ApplySub(s, from, user, pro, nonce), ApplySub(t, from, user, pro, nonce))
  {
  }

  lemma FaultIgnoresDates(c: Crypto, s: State, t: State, from: nat, f: SegRemove)
    requires SameButDates(s, t)
    ensures SameOutcome(ApplyFault(c, s, from, f), ApplyFault(c, t, from, f))
  {
  }

  lemma SameVerdict(c: Crypto, from: nat, q: SignedSeq, uri: Option<RoleBase>, pri: Option<RoleBase>, x: OrderInfo,
                    y: OrderInfo)
    requires y == x.(dates := y.dates)
    ensures SeqAcceptable(c, from, q, uri, pri, x) <==> SeqAcceptable(c, from, q, uri, pri, y)
  {
  }

  lemma SamePrice(c: Crypto, o: OrderDb, x: OrderInfo, y: OrderInfo, vk: Option<nat>, current: ChalEpoch,
                  previous: ChalEpoch, from: nat, p: SegProof)
    requires y == x.(dates := y.dates)
    ensures ProvenPrice(c, o, x, vk, current, previous, from, p, false)
            == ProvenPrice(c, o, y, vk, current, previous, from, p, false)
  {
  }

  // ---- PreDataOrder ----

  /** Everything createOrder checks but the remembered dates. */
  predicate FitsButDates(c: Crypto, s: State, from: nat, o: SignedOrder)
  {
    var ns := Ns(s.orders, Pair(o.ob.user, o.ob.pro));
    && WellFormedOrder(from, o)
    && Signed(c, Find(s.roles.base, o.ob.user), OrderHash(o), o.usign)
    && Signed(c, Find(s.roles.base, o.ob.pro), OrderHash(o), o.psign)
    && o.ob.nonce == ns.nonce && ns.seqNum == 0
    && OrderKey(Pair(o.ob.user, o.ob.pro), ns.nonce) !in s.orders.base
    && o.ob.start < o.ob.end
  }

  /** An order may not start or end before the dates remembered. */
  predicate DatesAllow(d: Dates, o: SignedOrder)
  {
    d.start <= o.ob.start && d.end <= o.ob.end
  }

  function Remembered(s: State, k: Pair): Dates
  {
    Get(s.dates, k, LoadDates(s.orders, k))
  }

  /** PreDataOrder has the same verdict from states that differ in remembered dates if and only if it
      is refused for another reason or both sets of dates allow, or forbid, the order. */
  lemma CreateOrderVerdict(c: Crypto, s: State, t: State, from: nat, o: SignedOrder)
    requires SameButDates(s, t)
    ensures var k := Pair(o.ob.user, o.ob.pro);
            && (ApplyCreateOrder(c, s, from, o).Ok? <==> FitsButDates(c, s, from, o) && DatesAllow(Remembered(s, k), o))
            && (SameOutcome(ApplyCreateOrder(c, s, from, o), ApplyCreateOrder(c, t, from, o)) <==>
                (FitsButDates(c, s, from, o) ==>
                   (DatesAllow(Remembered(s, k), o) <==> DatesAllow(Remembered(t, k), o))))
  {
  }

  // ---- Messages, blocks and runs ----

  /** From states that differ in remembered dates: the same outcome unless the message is a
      PreDataOrder that is applied, and the same result in any case if both accept. */
  lemma ApplyIgnoresDates(c: Crypto, s: State, t: State, m: Message, rejected: bool)
    requires SameButDates(s, t)
    ensures var x, y := ApplyMsg(c, s, m, rejected), ApplyMsg(c, t, m, rejected);
            && (rejected || !m.body.PreDataOrder? ==> SameOutcome(x, y))
            && (x.Ok? && y.Ok? ==> SameButDates(x.value, y.value))
  {
    if !rejected {
      match m.body
      case PreDataOrder(o) => CreateOrderVerdict(c, Charge(c, s, m), Charge(c, t, m), m.from, o);
      case _ => StepIgnoresDates(c, Charge(c, s, m), Charge(c, t, m), m.from, m.body);
    }
  }

  /** No message of the list is a PreDataOrder that is applied. */
  ghost predicate OpensNothing(msgs: seq<Message>, receipts: seq<bool>)
    requires |msgs| <= |receipts|
  {
    forall i | 0 <= i < |msgs| :: receipts[i] || !msgs[i].body.PreDataOrder?
  }

  lemma {:induction false} ApplyAllIgnoresDates(c: Crypto, s: State, t: State, msgs: seq<Message>, receipts: seq<bool>)
    requires SameButDates(s, t) && |msgs| <= |receipts|
    ensures var x, y := ApplyMsgs(c, s, msgs, receipts), ApplyMsgs(c, t, msgs, receipts);
            && (OpensNothing(msgs, receipts) ==> SameOutcome(x, y))
            && (x.Ok? && y.Ok? ==> SameButDates(x.value, y.value))
  {
    if msgs != [] {
      var n := |msgs| - 1;
      ApplyAllIgnoresDates(c, s, t, msgs[..n], receipts);
      var x, y := ApplyMsgs(c, s, msgs[..n], receipts), ApplyMsgs(c, t, msgs[..n], receipts);
      if x.Ok? && y.Ok? { ApplyIgnoresDates(c, x.value, y.value, msgs[n], receipts[n]); }
    }
  }

  lemma BlockIgnoresDates(c: Crypto, s: State, t: State, b: Block)
    requires SameButDates(s, t)
    ensures var x, y := ApplyBlock(c, s, b), ApplyBlock(c, t, b);
            && (|b.raw.msgs| <= |b.raw.receipts| && OpensNothing(b.raw.msgs, b.raw.receipts) ==> SameOutcome(x, y))
            && (x.Ok? && y.Ok? ==> SameButDates(x.value, y.value))
  {
    assert Admissible(s, b) <==> Admissible(t, b);
    if Admissible(s, b) {
      ApplyAllIgnoresDates(c, Opened(c, s, b.raw.header), Opened(c, t, b.raw.header), b.raw.msgs, b.raw.receipts);
    }
  }

  /** No block of the run holds a PreDataOrder that is applied. */
  ghost predicate NoNewOrders(events: seq<Event>)
  {
    forall i | 0 <= i < |events| && events[i].Applied? ::
      |events[i].block.raw.msgs| <= |events[i].block.raw.receipts|
        && OpensNothing(events[i].block.raw.msgs, events[i].block.raw.receipts)
  }

  lemma {:induction false} RunIgnoresDates(c: Crypto, s: State, t: State, events: seq<Event>)
    requires SameButDates(s, t)
    ensures var x, y := Run(c, s, events), Run(c, t, events);
            && (NoNewOrders(events) ==> SameOutcome(x, y))
            && (x.Ok? && y.Ok? ==> SameButDates(x.value, y.value))
  {
    if events != [] {
      var n := |events| - 1;
      RunIgnoresDates(c, s, t, events[..n]);
      var x, y := Run(c, s, events[..n]), Run(c, t, events[..n]);
      if x.Ok? && y.Ok? && events[n].Applied? { BlockIgnoresDates(c, x.value, y.value, events[n].block); }
    }
  }

  /** A restart between any two blocks: whatever run follows, if both the restarted and the undisturbed
      node get through it they end in the same state, remembered dates apart; and they do both get
      through it, or both fail, if no order is opened on the way. */
  lemma RestartHarmless(c: Crypto, s: State, events: seq<Event>)
    ensures var x, y := Run(c, s, events), Run(c, s.(dates := map[]), events);
            && (x.Ok? && y.Ok? ==> SameButDates(x.value, y.value))
            && (NoNewOrders(events) ==> SameOutcome(x, y))
  {
    RunIgnoresDates(c, s, s.(dates := map[]), events);
  }

  // ---- What a restart reloads ----

  ghost predicate ReloadOk(id: nat, s: State)
  {
    && s.ce == LoadClock(id, s.ce.epoch, s.ce.stored)
    && s.version == VersionAt(s.height)
    && forall k | k in s.roles.keepers :: k in s.roles.base
  }

  lemma {:induction false} AllKeepersLoad(base: map<nat, RoleBase>, stored: seq<nat>)
    requires forall k | k in stored :: k in base
    ensures LoadKeepers(base, stored) == stored
  {
    if stored != [] { AllKeepersLoad(base, stored[..|stored| - 1]); }
  }

  lemma ClockReloads(c: Crypto, id: nat, s: State, from: nat, body: Payload, t: State)
    requires ReloadOk(id, s) && Step(c, s, from, body) == Ok(t)
    ensures t.ce == LoadClock(id, t.ce.epoch, t.ce.stored)
  {
    match body
    case UpdateChalEpoch(p) =>
    case Malformed(_) =>
    case _ => assert t.ce == s.ce;
  }

  lemma KeepersReload(c: Crypto, id: nat, s: State, from: nat, body: Payload, t: State)
    requires ReloadOk(id, s) && Step(c, s, from, body) == Ok(t)
    ensures forall k | k in t.roles.keepers :: k in t.roles.base
  {
    match body
    case AddRole(role) =>
    case Malformed(_) =>
    case _ => assert t.roles == s.roles;
  }

  lemma StepReloads(c: Crypto, id: nat, s: State, from: nat, body: Payload, t: State)
    requires ReloadOk(id, s) && Step(c, s, from, body) == Ok(t)
    ensures ReloadOk(id, t) && t.height == s.height
  {
    ClockReloads(c, id, s, from, body, t);
    KeepersReload(c, id, s, from, body, t);
    StepKeepsHeight(c, s, from, body, t);
  }

  lemma StepKeepsHeight(c: Crypto, s: State, from: nat, body: Payload, t: State)
    requires Step(c, s, from, body) == Ok(t)
    ensures t.height == s.height && t.version == s.version
  {
  }

  lemma {:induction false} MsgsReload(c: Crypto, id: nat, s: State, msgs: seq<Message>, receipts: seq<bool>, t: State)
    requires ReloadOk(id, s) && |msgs| <= |receipts| && ApplyMsgs(c, s, msgs, receipts) == Ok(t)
    ensures ReloadOk(id, t) && t.height == s.height
  {
    if msgs != [] {
      var n := |msgs| - 1;
      var u := ApplyMsgs(c, s, msgs[..n], receipts).value;
      MsgsReload(c, id, s, msgs[..n], receipts, u);
      if !receipts[n] { StepReloads(c, id, Charge(c, u, msgs[n]), msgs[n].from, msgs[n].body, t); }
    }
  }

  lemma {:induction false} RunReloads(c: Crypto, id: nat, threshold: nat, events: seq<Event>, s: State)
    requires Run(c, Genesis(id, threshold), events) == Ok(s)
    ensures ReloadOk(id, s)
  {
    if events != [] {
      var n := |events| - 1;
      var u := Run(c, Genesis(id, threshold), events[..n]).value;
      RunReloads(c, id, threshold, events[..n], u);
      if events[n].Applied? {
        var raw := events[n].block.raw;
        var h := Opened(c, u, raw.header);
        MsgsReload(c, id, h, raw.msgs, raw.receipts, ApplyMsgs(c, h, raw.msgs, raw.receipts).value);
      }
    }
  }

  /** In every state of every run, a restart computes the same clock, seeds included, the same version
      and the same keepers again: only the remembered dates are lost. */
  lemma RestartReloads(c: Crypto, id: nat, threshold: nat, events: seq<Event>, s: State)
    requires Run(c, Genesis(id, threshold), events) == Ok(s)
    ensures Reloaded(id, s) == s.(dates := map[])
  {
    RunReloads(c, id, threshold, events, s);
    AllKeepersLoad(s.roles.base, s.roles.keepers);
  }
}
