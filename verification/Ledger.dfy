/** Conservation of the income ledger, kept per provider, per pair, per epoch and as snapshots. */
module Ledger {
  import opened Types
  import opened Chain
  import opened Sums
  import opened Epochs

  ghost function OfPro(m: map<Pair, Income>, pro: nat): map<Pair, Income>
  {
    map k | k in m && k.pro == pro :: m[k]
  }

  ghost function OfPair(m: map<PairEpoch, Income>, pair: Pair): map<PairEpoch, Income>
  {
    map k | k in m && k.pair == pair :: m[k]
  }

  /** Everything booked for a provider up to and including an epoch. */
  ghost function UpTo(m: map<PairEpoch, Income>, pro: nat, epoch: nat): map<PairEpoch, Income>
  {
    map k | k in m && k.pair.pro == pro && k.epoch <= epoch :: m[k]
  }

  const NONE := Income(0, 0)

  ghost predicate ProOk(p: PayDb, pro: nat, epoch: nat)
  {
    && Get(p.pro, pro, NONE) == SumIncome(OfPro(p.pair, pro))
    && Get(p.pro, pro, NONE) == SumIncome(UpTo(p.pairAt, pro, epoch))
  }

  ghost predicate PairLedgerOk(p: PayDb, pair: Pair)
  {
    Get(p.pair, pair, NONE) == SumIncome(OfPair(p.pairAt, pair))
  }

  ghost predicate SnapshotOk(p: PayDb, key: ProEpoch)
  {
    key in p.proAt ==> p.proAt[key] == SumIncome(UpTo(p.pairAt, key.pro, key.epoch))
  }

  /** A provider's total is the sum over its users, which is the sum over users and epochs; a
      pair's total is the sum over its epochs; a snapshot is the sum up to its epoch. */
  ghost predicate LedgerOk(p: PayDb, epoch: nat)
  {
    && (forall pro: nat :: ProOk(p, pro, epoch))
    && (forall pair: Pair :: PairLedgerOk(p, pair))
    && (forall key: ProEpoch :: SnapshotOk(p, key))
    && (forall key | key in p.pairAt :: key.epoch <= epoch)
    && (forall key | key in p.proAt :: key.epoch <= epoch)
  }

  lemma BookPair(p: PayDb, k: Pair, epoch: nat, value: int, penalty: int, pair: Pair)
    requires PairLedgerOk(p, pair)
    ensures PairLedgerOk(Book(p, k, epoch, value, penalty), pair)
  {
    var q := Book(p, k, epoch, value, penalty);
    var e := PairEpoch(k, epoch);
    if pair == k {
      SumIncomeUpdate(OfPair(p.pairAt, k), e, value, penalty);
      assert OfPair(q.pairAt, k) == OfPair(p.pairAt, k)[e := Plus(Get(OfPair(p.pairAt, k), e, NONE), value, penalty)];
    } else {
      assert OfPair(q.pairAt, pair) == OfPair(p.pairAt, pair);
    }
  }

  lemma BookUpTo(p: PayDb, k: Pair, epoch: nat, value: int, penalty: int, pro: nat, upTo: nat)
    ensures var q := Book(p, k, epoch, value, penalty);
            SumIncome(UpTo(q.pairAt, pro, upTo)) ==
            if pro == k.pro && epoch <= upTo then Plus(SumIncome(UpTo(p.pairAt, pro, upTo)), value, penalty)
            else SumIncome(UpTo(p.pairAt, pro, upTo))
  {
    var q := Book(p, k, epoch, value, penalty);
    var e := PairEpoch(k, epoch);
    var before := UpTo(p.pairAt, pro, upTo);
    if pro == k.pro && epoch <= upTo {
      SumIncomeUpdate(before, e, value, penalty);
      assert UpTo(q.pairAt, pro, upTo) == before[e := Plus(Get(before, e, NONE), value, penalty)];
    } else {
      assert UpTo(q.pairAt, pro, upTo) == before;
    }
  }

  lemma BookOfPro(p: PayDb, k: Pair, epoch: nat, value: int, penalty: int, pro: nat)
    ensures var q := Book(p, k, epoch, value, penalty);
            SumIncome(OfPro(q.pair, pro)) ==
            if pro == k.pro then Plus(SumIncome(OfPro(p.pair, pro)), value, penalty) else SumIncome(OfPro(p.pair, pro))
  {
    var q := Book(p, k, epoch, value, penalty);
    var before := OfPro(p.pair, pro);
    if pro == k.pro {
      SumIncomeUpdate(before, k, value, penalty);
      assert OfPro(q.pair, pro) == before[k := Plus(Get(before, k, NONE), value, penalty)];
    } else {
      assert OfPro(q.pair, pro) == before;
    }
  }

  lemma BookPro(p: PayDb, k: Pair, epoch: nat, value: int, penalty: int, pro: nat)
    requires ProOk(p, pro, epoch)
    ensures ProOk(Book(p, k, epoch, value, penalty), pro, epoch)
  {
    BookUpTo(p, k, epoch, value, penalty, pro, epoch);
    BookOfPro(p, k, epoch, value, penalty, pro);
  }

  /** Booking an amount in the current epoch keeps every equation of the ledger. */
  lemma BookKeeps(p: PayDb, k: Pair, epoch: nat, value: int, penalty: int)
    requires LedgerOk(p, epoch)
    ensures LedgerOk(Book(p, k, epoch, value, penalty), epoch)
  {
    var q := Book(p, k, epoch, value, penalty);
    forall pro: nat ensures ProOk(q, pro, epoch) {
      assert ProOk(p, pro, epoch);
      BookPro(p, k, epoch, value, penalty, pro);
    }
    forall pair: Pair ensures PairLedgerOk(q, pair) {
      assert PairLedgerOk(p, pair);
      BookPair(p, k, epoch, value, penalty, pair);
    }
    forall key: ProEpoch ensures SnapshotOk(q, key) {
      assert SnapshotOk(p, key) && ProOk(p, key.pro, epoch);
      BookUpTo(p, k, epoch, value, penalty, key.pro, key.epoch);
    }
  }

  /** Moving to a later epoch leaves the ledger right: nothing is booked past the old one. */
  lemma LaterEpochKeeps(p: PayDb, e: nat, e': nat)
    requires LedgerOk(p, e) && e <= e'
    ensures LedgerOk(p, e')
  {
    forall pro: nat ensures ProOk(p, pro, e') {
      assert ProOk(p, pro, e);
      assert UpTo(p.pairAt, pro, e') == UpTo(p.pairAt, pro, e);
    }
  }

  lemma SameLedger(p: PayDb, q: PayDb, epoch: nat)
    requires LedgerOk(p, epoch) && q == p.(prove := q.prove, confirm := q.confirm)
    ensures LedgerOk(q, epoch)
  {
    forall pro: nat ensures ProOk(q, pro, epoch) { assert ProOk(p, pro, epoch); }
    forall pair: Pair ensures PairLedgerOk(q, pair) { assert PairLedgerOk(p, pair); }
    forall key: ProEpoch ensures SnapshotOk(q, key) { assert SnapshotOk(p, key); }
  }

  lemma ProofKeepsLedger(c: Crypto, s: State, from: nat, p: SegProof, t: State)
    requires LedgerOk(s.pay, s.ce.current.epoch) && ApplyProof(c, s, from, p) == Ok(t)
    ensures LedgerOk(t.pay, t.ce.current.epoch)
  {
    var k := Pair(p.user, p.pro);
    var price := ProvenPrice(c, s.orders, OrderOf(s, k), Find(s.fs.verifyKey, p.user), s.ce.current, s.ce.previous,
                             from, p, false).value;
    BookKeeps(s.pay, k, p.epoch, price, 0);
    SameLedger(Book(s.pay, k, p.epoch, price, 0), t.pay, p.epoch);
  }

  lemma FaultKeepsLedger(c: Crypto, s: State, from: nat, f: SegRemove, t: State)
    requires LedgerOk(s.pay, s.ce.current.epoch) && ApplyFault(c, s, from, f) == Ok(t)
    ensures LedgerOk(t.pay, t.ce.current.epoch)
  {
    var of := s.orders.base[OrderKey(Pair(f.user, f.pro), f.nonce)];
    var penalty := Penalty(of.order.ob, CountSegs(f.segments), SlotTime(s.ce.previous.slot));
    BookKeeps(s.pay, Pair(f.user, f.pro), s.ce.current.epoch, 0, penalty);
  }

  /** Every transition conserves the ledger. */
  lemma LedgerStep(c: Crypto, s: State, from: nat, body: Payload, t: State)
    requires ClockOk(s) && LedgerOk(s.pay, s.ce.current.epoch) && Step(c, s, from, body) == Ok(t)
    ensures LedgerOk(t.pay, t.ce.current.epoch)
  {
    match body
    case SegmentProof(p) => ProofKeepsLedger(c, s, from, p, t);
    case SegmentFault(f) => FaultKeepsLedger(c, s, from, f, t);
    case UpdateChalEpoch(p) => LaterEpochKeeps(s.pay, s.ce.current.epoch, t.ce.current.epoch);
    case Malformed(_) =>
    case _ => OthersKeepLedger(c, s, from, body, t);
  }

  lemma OthersKeepLedger(c: Crypto, s: State, from: nat, body: Payload, t: State)
    requires LedgerOk(s.pay, s.ce.current.epoch) && Step(c, s, from, body) == Ok(t)
    requires !body.SegmentProof? && !body.SegmentFault? && !body.UpdateChalEpoch?
    ensures LedgerOk(t.pay, t.ce.current.epoch)
  {
    SameLedger(s.pay, t.pay, s.ce.current.epoch);
  }

  /** The snapshot of an epoch before the current one is frozen: no transition writes or adds one. */
  lemma SnapshotsFrozen(c: Crypto, s: State, from: nat, body: Payload, t: State, key: ProEpoch)
    requires ClockOk(s) && Step(c, s, from, body) == Ok(t) && key.epoch < s.ce.current.epoch
    ensures Find(t.pay.proAt, key) == Find(s.pay.proAt, key)
  {
  }

  lemma SnapshotsStay(c: Crypto, s: State, from: nat, body: Payload, t: State)
    requires ClockOk(s) && Step(c, s, from, body) == Ok(t)
    ensures forall key: ProEpoch | key.epoch < s.ce.current.epoch :: Find(t.pay.proAt, key) == Find(s.pay.proAt, key)
  {
    forall key: ProEpoch | key.epoch < s.ce.current.epoch ensures Find(t.pay.proAt, key) == Find(s.pay.proAt, key) {
      SnapshotsFrozen(c, s, from, body, t, key);
    }
  }

  lemma GenesisLedger(id: nat, threshold: nat)
    ensures var s := Genesis(id, threshold); LedgerOk(s.pay, s.ce.current.epoch)
  {
    var p := Genesis(id, threshold).pay;
    forall pro: nat ensures ProOk(p, pro, 0) {
      SumEmpty(OfPro(p.pair, pro));
      SumEmpty(UpTo(p.pairAt, pro, 0));
    }
    forall pair: Pair ensures PairLedgerOk(p, pair) {
      SumEmpty(OfPair(p.pairAt, pair));
    }
  }
}
