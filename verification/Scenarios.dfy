/** Runs from the empty store to the states in which the code falls short: each ends in a reachable
    state, for any cryptography in which everybody can sign and prove. */
module Scenarios {
  import opened Types
  import Q = SegQueues
  import opened Chain
  import opened OrderBook
  import opened Epochs
  import opened Earnings
  import opened Confirmations
  import opened Restarts
  import opened Invariants

  /** Everybody can sign, and everything asked for can be proved: some signature of each role over each
      digest, and some proof for each challenge, is accepted. */
  ghost predicate Usable(c: Crypto)
  {
    (forall role, digest :: Signable(c, role, digest)) && forall vk, chal :: Provable(c, vk, chal)
  }

  ghost predicate Signable(c: Crypto, role: RoleBase, digest: Digest)
  {
    exists sig: Signature :: sig.typ == SigSecp256k1 && c.sigOk(role, digest, sig)
  }

  ghost predicate Provable(c: Crypto, vk: nat, chal: Challenge)
  {
    exists proof :: c.proofOk(vk, chal, proof)
  }

  /** Such cryptography exists; a real scheme refuses most signatures and proofs. */
  lemma UsableExists()
    ensures exists c :: Usable(c) && exists role, digest, sig :: !c.sigOk(role, digest, sig)
  {
    var good := Signature(SigSecp256k1, []);
    var c := Crypto((_, _, sig) => sig == good, (_, _, _, _) => 0, (_, _, proof) => proof == 0, (_, _) => None, _ => 0,
                    _ => 0, (_, _) => 0);
    forall role, digest ensures Signable(c, role, digest) { assert c.sigOk(role, digest, good); }
    forall vk, chal ensures Provable(c, vk, chal) { assert c.proofOk(vk, chal, 0); }
    assert !c.sigOk(RoleBase(0, User, 0, None), SeqDigest(OrderSeq(0, 0, 0, 0, 0, 0, [])), Signature(SigUnknown, []));
  }

  /** A signature that is accepted. */
  ghost function Sign(c: Crypto, role: RoleBase, digest: Digest): (sig: Signature)
    requires Usable(c)
    ensures sig.typ == SigSecp256k1 && c.sigOk(role, digest, sig)
  {
    assert Signable(c, role, digest);
    var sig: Signature :| sig.typ == SigSecp256k1 && c.sigOk(role, digest, sig);
    sig
  }

  /** A proof that is accepted. */
  ghost function Prove(c: Crypto, vk: nat, chal: Challenge): (proof: nat)
    requires Usable(c)
    ensures c.proofOk(vk, chal, proof)
  {
    assert Provable(c, vk, chal);
    var proof :| c.proofOk(vk, chal, proof);
    proof
  }

  // ---- Playing one message as a block of its own ----

  /** The same state up to nonces, root and block data. */
  ghost predicate Alike(s: State, t: State)
  {
    && t.orders == s.orders && t.pay == s.pay && t.fs == s.fs && t.ce == s.ce && t.dates == s.dates
    && t.roles.base == s.roles.base && t.roles.keepers == s.roles.keepers
  }

  /** Reachable, as a fact that is looked into only where it is asked for. */
  ghost predicate Real(c: Crypto, s: State)
  {
    forall n {:trigger Asked(n)} :: Asked(n) ==> Reachable(c, s)
  }

  lemma IsReachable(c: Crypto, s: State)
    requires Real(c, s)
    ensures Reachable(c, s)
  {
    assert Asked(0);
  }

  /** Reachable, young, and with at most one keeper. */
  ghost predicate Live(c: Crypto, s: State)
  {
    Real(c, s) && 0 < s.height < 1000 && s.version == 0 && s.threshold == 0 && |s.roles.keepers| <= 1
  }

  ghost predicate CountsDiffer(s: State, t: State)
  {
    t == s.(roles := t.roles, root := t.root) && t.roles == s.roles.(nonce := t.roles.nonce)
  }

  ghost predicate SameUpToCounts(x: Result<State>, y: Result<State>)
  {
    x.Ok? ==> y.Ok? && Alike(x.value, y.value)
  }

  /** No message looks at the nonces or the root. */
  lemma StepIgnoresCounts(c: Crypto, s: State, t: State, from: nat, body: Payload)
    requires CountsDiffer(s, t)
    ensures SameUpToCounts(Step(c, s, from, body), Step(c, t, from, body))
  {
    match body
    case PreDataOrder(o) => CreateOrderIgnoresCounts(c, s, t, from, o);
    case AddDataOrder(q) => AddSeqIgnoresCounts(c, s, t, from, q);
    case CommitDataOrder(u, p, n, q) => CommitIgnoresCounts(s, t, from, u, p, n, q);
    case SubDataOrder(u, p, n) => SubIgnoresCounts(s, t, from, u, p, n);
    case SegmentFault(f) => FaultIgnoresCounts(c, s, t, from, f);
    case SegmentProof(p) => ProofIgnoresCounts(c, s, t, from, p);
    case ConfirmPostIncome(e, i, g) => ConfirmIgnoresCounts(c, s, t, from, e, i, g);
    case _ =>
  }

  lemma CreateOrderIgnoresCounts(c: Crypto, s: State, t: State, from: nat, o: SignedOrder)
    requires CountsDiffer(s, t)
    ensures SameUpToCounts(ApplyCreateOrder(c, s, from, o), ApplyCreateOrder(c, t, from, o))
  {
  }

  lemma CommitIgnoresCounts(s: State, t: State, from: nat, user: nat, pro: nat, nonce: nat, seqNum: nat)
    requires CountsDiffer(s, t)
    ensures SameUpToCounts(ApplyCommit(s, from, user, pro, nonce, seqNum),
                           ApplyCommit(t, from, user, pro, nonce, seqNum))
  {
  }

  lemma SubIgnoresCounts(s: State, t: State, from: nat, user: nat, pro: nat, nonce: nat)
    requires CountsDiffer(s, t)
    ensures SameUpToCounts(ApplySub(s, from, user, pro, nonce), ApplySub(t, from, user, pro, nonce))
  {
  }

  lemma FaultIgnoresCounts(c: Crypto, s: State, t: State, from: nat, f: SegRemove)
    requires CountsDiffer(s, t)
    ensures SameUpToCounts(ApplyFault(c, s, from, f), ApplyFault(c, t, from, f))
  {
  }

  lemma ProofIgnoresCounts(c: Crypto, s: State, t: State, from: nat, p: SegProof)
    requires CountsDiffer(s, t)
    ensures SameUpToCounts(ApplyProof(c, s, from, p), ApplyProof(c, t, from, p))
  {
  }

  lemma ConfirmIgnoresCounts(c: Crypto, s: State, t: State, from: nat, epoch: nat, income: AccIncome, sig: Signature)
    requires CountsDiffer(s, t)
    ensures SameUpToCounts(ApplyConfirm(c, s, from, epoch, income, sig), ApplyConfirm(c, t, from, epoch, income, sig))
  {
  }

  lemma AddSeqIgnoresCounts(c: Crypto, s: State, t: State, from: nat, q: SignedSeq)
    requires CountsDiffer(s, t)
    ensures SameUpToCounts(ApplyAddSeq(c, s, from, q), ApplyAddSeq(c, t, from, q))
  {
  }

  lemma StepKeepsBlockData(c: Crypto, s: State, from: nat, body: Payload, t: State)
    requires Step(c, s, from, body) == Ok(t)
    ensures t.root == s.root && t.slot == s.slot && t.height == s.height
    ensures t.version == s.version && t.threshold == s.threshold
  {
  }

  lemma Extends(c: Crypto, s: State, b: Block, t: State)
    requires Real(c, s) && ApplyBlock(c, s, b) == Ok(t)
    ensures Real(c, t)
  {
    IsReachable(c, s);
    var id: nat, threshold: nat, events :| Run(c, Genesis(id, threshold), events) == Ok(s);
    var more := events + [Applied(b)];
    assert more[..|events|] == events;
    assert Run(c, Genesis(id, threshold), more) == Ok(t);
  }

  lemma Restart(c: Crypto, s: State)
    requires Real(c, s)
    ensures Real(c, s.(dates := map[]))
  {
    IsReachable(c, s);
    var id: nat, threshold: nat, events :| Run(c, Genesis(id, threshold), events) == Ok(s);
    var more := events + [Restarted];
    assert more[..|events|] == events;
    assert Run(c, Genesis(id, threshold), more) == Ok(s.(dates := map[]));
  }

  /** A block with one message and the signatures of all keepers. */
  ghost function Single(c: Crypto, s: State, from: nat, body: Payload, slot: nat): Block
  {
    var h := Header(0, 0, s.height, slot, 0, s.blk);
    Block(RawBlock(h, [Message(from, NonceOf(s.roles, from), body)], [false], s.root,
                   c.nextRoot(c.nextRoot(s.root, HeaderBlob(h)), ParamsBlob(body))), s.roles.keepers)
  }

  lemma SingleAdmissible(c: Crypto, s: State, from: nat, body: Payload, slot: nat)
    requires Live(c, s) && slot > s.slot
    ensures Admissible(s, Single(c, s, from, body, slot))
  {
    var ks := s.roles.keepers;
    if |ks| == 1 {
      assert ValidSigners(ks, ks) == {ks[0]};
    } else {
      assert ValidSigners(ks, ks) == {};
    }
  }

  lemma Play(c: Crypto, s: State, from: nat, body: Payload, slot: nat) returns (t: State)
    requires Live(c, s) && slot > s.slot && Step(c, s, from, body).Ok?
    ensures Real(c, t) && Alike(Step(c, s, from, body).value, t)
    ensures t.slot == slot && t.height == s.height + 1 && t.version == 0 && t.threshold == 0
  {
    var b := Single(c, s, from, body, slot);
    SingleAdmissible(c, s, from, body, slot);
    var h := Opened(c, s, b.raw.header);
    var u := Charge(c, h, b.raw.msgs[0]);
    StepIgnoresCounts(c, s, u, from, body);
    StepKeepsBlockData(c, u, from, body, Step(c, u, from, body).value);
    assert b.raw.msgs[..0] == [];
    assert ApplyMsgs(c, h, [], b.raw.receipts) == Ok(h);
    assert ApplyMsgs(c, h, b.raw.msgs, b.raw.receipts) == Step(c, u, from, body);
    t := Finish(c, Step(c, u, from, body).value, b.raw);
    Extends(c, s, b, t);
  }

  // ---- A user, a provider, a keeper and a bucket ----

  const USER: nat := 1
  const PRO: nat := 2
  const KEEPER: nat := 3
  const VERIFY_KEY: nat := 7
  const PAIR: Pair := Pair(USER, PRO)

  const Roles: map<nat, RoleBase> :=
    map[USER := RoleBase(USER, User, 0, Some(VERIFY_KEY)), PRO := RoleBase(PRO, Provider, 0, None),
        KEEPER := RoleBase(KEEPER, Keeper, 0, None)]

  lemma Begin(c: Crypto) returns (s: State)
    ensures Live(c, s) && Alike(Genesis(0, 0), s) && s.slot == 1 && s.height == 1
  {
    var g := Genesis(0, 0);
    assert Run(c, g, []) == Ok(g);
    assert Reachable(c, g);
    var h := Header(0, 0, 0, 1, 0, 0);
    var b := Block(RawBlock(h, [], [], 0, c.nextRoot(0, HeaderBlob(h))), []);
    assert ApplyMsgs(c, Opened(c, g, h), [], []) == Ok(Opened(c, g, h));
    s := Finish(c, Opened(c, g, h), b.raw);
    Extends(c, g, b, s);
  }

  lemma Register(c: Crypto, s: State, role: RoleBase) returns (t: State)
    requires Live(c, s) && role.id !in s.roles.base && (role.typ == Keeper ==> s.roles.keepers == [])
    ensures Live(c, t) || t.height == 1000
    ensures Real(c, t) && t.height == s.height + 1 && t.slot == s.slot + 1 && t.version == 0 && t.threshold == 0
    ensures t.orders == s.orders && t.pay == s.pay && t.fs == s.fs && t.ce == s.ce && t.dates == s.dates
    ensures t.roles.base == s.roles.base[role.id := role]
    ensures t.roles.keepers == if role.typ == Keeper then [role.id] else s.roles.keepers
  {
    t := Play(c, s, role.id, AddRole(role), s.slot + 1);
  }

  const EmptyOrders: OrderDb := OrderDb(map[], map[], map[], map[])
  const EmptyPay: PayDb := PayDb(map[], map[], map[], map[], map[], map[])
  const OneBucket: FsDb :=
    FsDb(map[USER := VERIFY_KEY], map[USER := 1], map[BucketKey(USER, 0) := 1], map[], map[], map[])

  /** Everybody is registered and the user has one bucket of one chunk. */
  ghost predicate Ready(c: Crypto, s: State)
  {
    && Live(c, s) && s.height <= 6 && s.slot <= 6
    && s.roles.base == Roles && s.roles.keepers == [KEEPER]
    && s.orders == EmptyOrders && s.pay == EmptyPay && s.fs == OneBucket && s.dates == map[]
    && s.ce == Genesis(0, 0).ce
  }

  lemma Prepare(c: Crypto) returns (s: State)
    ensures Ready(c, s)
  {
    s := Begin(c);
    s := Register(c, s, Roles[USER]);
    s := Register(c, s, Roles[PRO]);
    s := Register(c, s, Roles[KEEPER]);
    assert s.roles.base == Roles;
    s := OpenBucket(c, s);
  }

  lemma OpenBucket(c: Crypto, s: State) returns (t: State)
    requires Live(c, s) && s.height == 4 && s.slot == 4 && s.roles.base == Roles && s.roles.keepers == [KEEPER]
    requires s.fs == Genesis(0, 0).fs
    ensures Live(c, t) && t.height == 6 && t.slot == 6 && t.fs == OneBucket
    ensures t.orders == s.orders && t.pay == s.pay && t.ce == s.ce
    ensures t.dates == s.dates && t.roles.base == Roles && t.roles.keepers == [KEEPER]
  {
    t := Play(c, s, USER, CreateFs(VERIFY_KEY), 5);
    assert Step(c, s, USER, CreateFs(VERIFY_KEY)) == ApplyCreateFs(s, USER, VERIFY_KEY);
    assert t.fs.verifyKey == map[USER := VERIFY_KEY];
    var u := t;
    t := Play(c, u, USER, CreateBucket(0, 1), 6);
    assert Step(c, u, USER, CreateBucket(0, 1)) == ApplyCreateBucket(u, USER, 0, 1);
  }

  // ---- Orders of one segment each ----

  /** Reachable with everybody registered and the bucket made. */
  ghost predicate Staffed(c: Crypto, s: State)
  {
    && Live(c, s) && s.height < 500 && s.roles.base == Roles && s.roles.keepers == [KEEPER]
    && s.fs.verifyKey == OneBucket.verifyKey && s.fs.next == OneBucket.next && s.fs.buckets == OneBucket.buckets
  }

  /** t follows s by one block and keeps everything the next lemmas do not mention. */
  ghost predicate Next(c: Crypto, s: State, t: State)
  {
    && Real(c, t) && t.height == s.height + 1 && t.slot == s.slot + 1 && t.version == 0 && t.threshold == 0
    && t.roles.base == s.roles.base && t.roles.keepers == s.roles.keepers && t.ce == s.ce
    && t.fs.verifyKey == s.fs.verifyKey && t.fs.next == s.fs.next && t.fs.buckets == s.fs.buckets
  }

  function Terms(n: nat, start: int, end: int): OrderBase
  {
    OrderBase(USER, PRO, n, start, end, 0, 1)
  }

  /** The order with these terms, as both parties sign it at a size and price. */
  ghost function SignedTerms(c: Crypto, ob: OrderBase, size: nat, price: int): SignedOrder
    requires Usable(c)
  {
    var digest := OrderDigest(ob.user, ob.pro, ob.nonce, ob.start, ob.end, size, ob.token, price);
    SignedOrder(ob, size, price, Sign(c, Roles[USER], digest), Sign(c, Roles[PRO], digest))
  }

  ghost function NewOrder(c: Crypto, n: nat, start: int, end: int): SignedOrder
    requires Usable(c)
  {
    SignedTerms(c, Terms(n, start, end), 0, 0)
  }

  predicate GoodDates(start: int, end: int)
  {
    start > BASE_TIME && end % DAY == 0 && ORDER_MIN <= end - start <= ORDER_MAX
  }

  lemma Open(c: Crypto, s: State, n: nat, start: int, end: int) returns (t: State)
    requires Usable(c) && Staffed(c, s) && GoodDates(start, end)
    requires Ns(s.orders, PAIR) == NonceSeq(n, 0, 0) && OrderKey(PAIR, n) !in s.orders.base
    requires DatesAllow(Remembered(s, PAIR), NewOrder(c, n, start, end))
    ensures Next(c, s, t) && t.fs == s.fs && t.pay == s.pay && PAIR in t.dates && t.dates[PAIR] == Remembered(s, PAIR)
    ensures var of := OrderFull(NewOrder(c, n, start, end), 0, 0, DelPart(0, 0, 0));
            t.orders == PutNs(s.orders.(base := s.orders.base[OrderKey(PAIR, n) := of]),
                              PAIR, s.ce.epoch, NonceSeq(n, 0, 0))
  {
    var o := NewOrder(c, n, start, end);
    CreateOrderVerdict(c, s, s, USER, o);
    t := Play(c, s, USER, PreDataOrder(o), s.slot + 1);
    assert Step(c, s, USER, PreDataOrder(o)) == ApplyCreateOrder(c, s, USER, o);
  }

  /** The one sequence of order n: a single stripe of the bucket. */
  function OneStripe(n: nat, stripe: nat): OrderSeq
  {
    OrderSeq(USER, PRO, n, 0, SEG_SIZE, 1, [AggSegs(0, stripe, 1, 0)])
  }

  ghost function SignedStripe(c: Crypto, ob: OrderBase, stripe: nat): SignedSeq
    requires Usable(c)
  {
    var data, whole := OneStripe(ob.nonce, stripe), SignedTerms(c, ob, SEG_SIZE, 1);
    SignedSeq(data, Sign(c, Roles[USER], SeqDigest(data)), Sign(c, Roles[PRO], SeqDigest(data)), whole.usign,
              whole.psign)
  }

  lemma OneStripeCounts(n: nat, stripe: nat)
    ensures CountSegs(OneStripe(n, stripe).segments) == 1 && Cost(1, 1) == 1
  {
    var segs := [AggSegs(0, stripe, 1, 0)];
    assert segs[..0] == [];
    assert Cost(1, 0) == 0;
  }

  lemma OneStripeFits(fs: FsDb, n: nat, stripe: nat)
    requires fs.verifyKey == OneBucket.verifyKey && fs.next == OneBucket.next && fs.buckets == OneBucket.buckets
    requires stripe !in BitsOf(fs, USER, 0, PRO)
    ensures var r := ApplyAddChunks(fs, USER, PRO, n, [AggSegs(0, stripe, 1, 0)]);
            r.Ok? && r.value.verifyKey == fs.verifyKey && r.value.next == fs.next && r.value.buckets == fs.buckets
            && BitsOf(r.value, USER, 0, PRO) == BitsOf(fs, USER, 0, PRO) + {stripe}
  {
    var seg := AggSegs(0, stripe, 1, 0);
    assert [seg][..0] == [];
    assert ApplyAddChunks(fs, USER, PRO, n, []) == Ok(fs);
    assert ApplyAddChunks(fs, USER, PRO, n, [seg]) == ApplyAddChunk(fs, USER, PRO, n, seg);
    assert Range(stripe, 1) == {stripe};
  }

  /** What filling order n with one stripe leaves of the order records. */
  ghost predicate Filled(o: OrderDb, o': OrderDb, n: nat, stripe: nat, epoch: nat)
  {
    var key := OrderKey(PAIR, n);
    && key in o.base && key in o'.base && o'.base == o.base[key := o'.base[key]]
    && o'.base[key].order.ob == o.base[key].order.ob
    && o'.base[key].order.price == 1 && o'.base[key].order.size == SEG_SIZE
    && o'.base[key].seqNum == 1 && o'.base[key].del == o.base[key].del
    && SeqKey(PAIR, n, 0) in o'.seqs && o'.seqs[SeqKey(PAIR, n, 0)].data == OneStripe(n, stripe)
    && o'.state == o.state[PAIR := NonceSeq(n, 1, 0)]
    && o'.stateAt == o.stateAt[PairEpoch(PAIR, epoch) := NonceSeq(n, 1, 0)]
  }

  lemma Fill(c: Crypto, s: State, n: nat, stripe: nat) returns (t: State)
    requires Usable(c) && Staffed(c, s) && stripe !in BitsOf(s.fs, USER, 0, PRO)
    requires Ns(s.orders, PAIR) == NonceSeq(n, 0, 0) && OrderKey(PAIR, n) in s.orders.base
    requires var q := s.orders.base[OrderKey(PAIR, n)].order;
             q.ob.user == USER && q.ob.pro == PRO && q.ob.nonce == n && q.ob.segPrice == 1 && q.size == 0
               && q.price == 0
    ensures Next(c, s, t) && t.pay == s.pay && PAIR in t.dates && t.dates[PAIR] == Remembered(s, PAIR)
    ensures BitsOf(t.fs, USER, 0, PRO) == BitsOf(s.fs, USER, 0, PRO) + {stripe}
    ensures Filled(s.orders, t.orders, n, stripe, s.ce.epoch)
  {
    var q := SignedStripe(c, s.orders.base[OrderKey(PAIR, n)].order.ob, stripe);
    OneStripeCounts(n, stripe);
    OneStripeFits(s.fs, n, stripe);
    assert SeqAcceptable(c, USER, q, Find(s.roles.base, USER), Find(s.roles.base, PRO), OrderOf(s, PAIR));
    assert ApplyAddSeq(c, s, USER, q).Ok?;
    t := Play(c, s, USER, AddDataOrder(q), s.slot + 1);
    assert Step(c, s, USER, AddDataOrder(q)) == ApplyAddSeq(c, s, USER, q);
  }

  lemma Commit(c: Crypto, s: State, n: nat) returns (t: State)
    requires Staffed(c, s) && Ns(s.orders, PAIR) == NonceSeq(n, 1, 0)
    requires OrderKey(PAIR, n) in s.orders.base && s.orders.base[OrderKey(PAIR, n)].order.size == SEG_SIZE
    ensures Next(c, s, t) && t.pay == s.pay && t.fs == s.fs && PAIR in t.dates && t.dates[PAIR] == Remembered(s, PAIR)
    ensures t.orders == PutNs(s.orders, PAIR, s.ce.epoch, NonceSeq(n + 1, 0, 0))
  {
    var body := CommitDataOrder(USER, PRO, n, 1);
    assert Step(c, s, USER, body) == ApplyCommit(s, USER, USER, PRO, n, 1);
    t := Play(c, s, USER, body, s.slot + 1);
  }

  /** Order n opened and filled with stripe n. */
  lemma OpenAndFill(c: Crypto, s: State, n: nat, start: int, end: int) returns (t: State)
    requires Usable(c) && Staffed(c, s) && s.height < 490 && GoodDates(start, end) && n !in BitsOf(s.fs, USER, 0, PRO)
    requires Ns(s.orders, PAIR) == NonceSeq(n, 0, 0) && OrderKey(PAIR, n) !in s.orders.base
    requires DatesAllow(Remembered(s, PAIR), NewOrder(c, n, start, end))
    ensures Staffed(c, t) && t.height == s.height + 2 && t.slot == s.slot + 2 && t.ce == s.ce && t.pay == s.pay
    ensures PAIR in t.dates && t.dates[PAIR] == Remembered(s, PAIR)
    ensures BitsOf(t.fs, USER, 0, PRO) == BitsOf(s.fs, USER, 0, PRO) + {n}
    ensures Held(t.orders, n, start, end) && t.orders.base.Keys == s.orders.base.Keys + {OrderKey(PAIR, n)}
    ensures forall key | key in s.orders.base :: t.orders.base[key] == s.orders.base[key]
    ensures Ns(t.orders, PAIR) == NonceSeq(n, 1, 0)
    ensures SeqKey(PAIR, n, 0) in t.orders.seqs && t.orders.seqs[SeqKey(PAIR, n, 0)].data == OneStripe(n, n)
  {
    var u := Open(c, s, n, start, end);
    t := Fill(c, u, n, n);
  }

  /** One whole order: opened, filled and committed. */
  lemma Whole(c: Crypto, s: State, n: nat, start: int, end: int) returns (t: State)
    requires Usable(c) && Staffed(c, s) && s.height < 490 && GoodDates(start, end) && n !in BitsOf(s.fs, USER, 0, PRO)
    requires Ns(s.orders, PAIR) == NonceSeq(n, 0, 0) && OrderKey(PAIR, n) !in s.orders.base
    requires DatesAllow(Remembered(s, PAIR), NewOrder(c, n, start, end))
    ensures Staffed(c, t) && t.height == s.height + 3 && t.slot == s.slot + 3 && t.ce == s.ce && t.pay == s.pay
    ensures PAIR in t.dates && t.dates[PAIR] == Remembered(s, PAIR)
    ensures BitsOf(t.fs, USER, 0, PRO) == BitsOf(s.fs, USER, 0, PRO) + {n}
    ensures Held(t.orders, n, start, end) && t.orders.base.Keys == s.orders.base.Keys + {OrderKey(PAIR, n)}
    ensures forall key | key in s.orders.base :: t.orders.base[key] == s.orders.base[key]
    ensures Ns(t.orders, PAIR) == NonceSeq(n + 1, 0, 0)
    ensures PairEpoch(PAIR, s.ce.epoch) in t.orders.stateAt
    ensures t.orders.stateAt[PairEpoch(PAIR, s.ce.epoch)] == NonceSeq(n + 1, 0, 0)
  {
    var u := OpenAndFill(c, s, n, start, end);
    t := Commit(c, u, n);
  }

  /** Order n is stored with these dates, one segment and nothing deleted. */
  ghost predicate Held(o: OrderDb, n: nat, start: int, end: int)
  {
    var key := OrderKey(PAIR, n);
    && key in o.base && o.base[key].order.ob == Terms(n, start, end)
    && o.base[key].order.price == 1 && o.base[key].order.size == SEG_SIZE && o.base[key].del == DelPart(0, 0, 0)
  }

  // ---- A restart turns a refusal into an acceptance ----

  const A: int := BASE_TIME + 10 * DAY
  const B: int := BASE_TIME + 200 * DAY

  lemma SecondOrderCurrent(c: Crypto) returns (s: State)
    requires Usable(c)
    ensures Staffed(c, s) && s.height < 490 && Ns(s.orders, PAIR) == NonceSeq(1, 1, 0)
    ensures OrderKey(PAIR, 2) !in s.orders.base
    ensures OrderKey(PAIR, 1) in s.orders.base && s.orders.base[OrderKey(PAIR, 1)].order.size == SEG_SIZE
    ensures Held(s.orders, 0, A, B)
  {
    s := Prepare(c);
    s := Whole(c, s, 0, A, B);
    s := OpenAndFill(c, s, 1, A, B);
  }

  /** A restart while order 1 is current remembers the dates of order 0; after the commit an order 2
      that starts earlier is refused, and accepted after one more restart. */
  lemma RememberedDatesMatter(c: Crypto) returns (s: State, o: SignedOrder)
    requires Usable(c)
    ensures Reachable(c, s) && Reachable(c, s.(dates := map[]))
    ensures ApplyCreateOrder(c, s, USER, o).Err? && ApplyCreateOrder(c, s.(dates := map[]), USER, o).Ok?
  {
    var current := SecondOrderCurrent(c);
    s := ForgetThenCommit(c, current, 1);
    o := NewOrder(c, 2, BASE_TIME + DAY, BASE_TIME + 150 * DAY);
    Restart(c, s);
    ThirdOrderVerdict(c, s);
    IsReachable(c, s);
    IsReachable(c, s.(dates := map[]));
  }

  lemma ThirdOrderVerdict(c: Crypto, s: State)
    requires Usable(c) && s.roles.base == Roles && Ns(s.orders, PAIR) == NonceSeq(2, 0, 0)
    requires OrderKey(PAIR, 2) !in s.orders.base && PAIR in s.dates && s.dates[PAIR] == Dates(A, B)
    ensures var o := NewOrder(c, 2, BASE_TIME + DAY, BASE_TIME + 150 * DAY);
            ApplyCreateOrder(c, s, USER, o).Err? && ApplyCreateOrder(c, s.(dates := map[]), USER, o).Ok?
  {
    var o := NewOrder(c, 2, BASE_TIME + DAY, BASE_TIME + 150 * DAY);
    CreateOrderVerdict(c, s, s.(dates := map[]), USER, o);
    CreateOrderVerdict(c, s.(dates := map[]), s, USER, o);
  }

  lemma ForgetThenCommit(c: Crypto, s: State, n: nat) returns (t: State)
    requires Staffed(c, s) && Ns(s.orders, PAIR) == NonceSeq(n, 1, 0)
    requires OrderKey(PAIR, n) in s.orders.base && s.orders.base[OrderKey(PAIR, n)].order.size == SEG_SIZE
    ensures Next(c, s, t) && t.orders == PutNs(s.orders, PAIR, s.ce.epoch, NonceSeq(n + 1, 0, 0))
    ensures PAIR in t.dates && t.dates[PAIR] == LoadDates(s.orders, PAIR)
  {
    Restart(c, s);
    t := Commit(c, s.(dates := map[]), n);
  }

  // ---- Epochs ----

  ghost predicate SameStore(s: State, t: State)
  {
    && t.orders == s.orders && t.pay == s.pay && t.fs == s.fs && t.dates == s.dates
    && t.roles.base == s.roles.base && t.roles.keepers == s.roles.keepers
  }

  lemma Wait(c: Crypto, s: State, slot: nat) returns (t: State)
    requires Staffed(c, s) && s.height < 490 && slot > s.slot
    ensures Staffed(c, t) && t.height == s.height + 1 && t.slot == slot && SameStore(s, t) && t.ce == s.ce
  {
    t := Play(c, s, USER, UpdateNet(0), slot);
  }

  /** The first epoch update: the window runs from slot 0 to the slot reached. */
  lemma FirstEpoch(c: Crypto, s: State) returns (t: State)
    requires Staffed(c, s) && s.height < 490 && s.slot >= 120 && s.ce == Genesis(0, 0).ce
    ensures Staffed(c, t) && t.height == s.height + 1 && t.slot == s.slot + 1 && SameStore(s, t)
    ensures t.ce.epoch == 1 && t.ce.current.epoch == 0 && t.ce.current.slot == s.slot
    ensures t.ce.previous.epoch == 0 && t.ce.previous.slot == 0 && 0 in t.ce.stored && t.ce.stored[0] == t.ce.current
  {
    var p := EpochParams(0, 0, MultiSignature(SigSecp256k1, [], []));
    assert Step(c, s, USER, UpdateChalEpoch(p)) == ApplyUpdateEpoch(c, s, p);
    t := Play(c, s, USER, UpdateChalEpoch(p), s.slot + 1);
  }

  // ---- Income beyond the worth of all orders ----

  const X0: int := BASE_TIME + DAY
  const Y0: int := BASE_TIME + 301 * DAY
  const X1: int := BASE_TIME + 2 * DAY
  const Y1: int := BASE_TIME + 102 * DAY
  const END_SLOT: nat := 301 * 2880

  /** Two orders, the second strictly inside the window that opens with the chain and ends with the
      first; the last counters recorded before the epoch update cover both. */
  lemma TwoOrdersChallenged(c: Crypto) returns (s: State)
    requires Usable(c)
    ensures Staffed(c, s) && s.height < 490 && s.pay == EmptyPay
    ensures s.ce.epoch == 1 && s.ce.current.epoch == 0 && s.ce.current.slot == END_SLOT && s.ce.previous.slot == 0
    ensures Held(s.orders, 0, X0, Y0) && Held(s.orders, 1, X1, Y1) && OrderKey(PAIR, 2) !in s.orders.base
    ensures Ns(s.orders, PAIR) == NonceSeq(2, 0, 0)
    ensures PairEpoch(PAIR, 0) in s.orders.stateAt && s.orders.stateAt[PairEpoch(PAIR, 0)] == NonceSeq(2, 0, 0)
  {
    var a := Prepare(c);
    var b := Whole(c, a, 0, X0, Y0);
    var d := Whole(c, b, 1, X1, Y1);
    var e := Wait(c, d, END_SLOT);
    s := FirstEpoch(c, e);
  }

  lemma ChallengeOfTwo(o: OrderDb)
    requires Held(o, 0, X0, Y0) && Held(o, 1, X1, Y1)
    ensures var r := ChalTotals(o, PAIR, NonceSeq(2, 0, 0), 0, SlotTime(0), SlotTime(END_SLOT), false);
            r.Ok? && r.value.price == 600 * DAY && r.value.size == 2 * SEG_SIZE && r.value.del == 0
  {
    var cs, ce, zero := SlotTime(0), SlotTime(END_SLOT), Acc(0, 0, 0, 0, 0);
    var x, y := o.base[OrderKey(PAIR, 0)], o.base[OrderKey(PAIR, 1)];
    assert PastTotals(o, PAIR, 0, 1, cs, ce, zero, false) == Ok(AddOrder(zero, x, cs, ce));
    assert PastTotals(o, PAIR, 0, 2, cs, ce, zero, false) == Ok(AddOrder(AddOrder(zero, x, cs, ce), y, cs, ce));
  }

  lemma WorthOfTwo(o: OrderDb)
    requires Held(o, 0, X0, Y0) && Held(o, 1, X1, Y1) && OrderKey(PAIR, 2) !in o.base
    ensures Worth(o, PAIR, 3) == 400 * DAY
  {
    assert Worth(o, PAIR, 1) == Y0 - X0;
    assert Worth(o, PAIR, 2) == Worth(o, PAIR, 1) + (Y1 - X1);
    assert Worth(o, PAIR, 3) == Worth(o, PAIR, 2);
  }

  ghost function ProofOfTwo(c: Crypto, s: State): SegProof
    requires Usable(c) && Held(s.orders, 0, X0, Y0) && Held(s.orders, 1, X1, Y1)
  {
    ChallengeOfTwo(s.orders);
    var a := ChalTotals(s.orders, PAIR, NonceSeq(2, 0, 0), 0, SlotTime(0), SlotTime(END_SLOT), false).value;
    SegProof(USER, PRO, 0, 0, 2, 2 * SEG_SIZE, 600 * DAY,
             Prove(c, VERIFY_KEY, Challenge(VERIFY_KEY, USER, s.ce.current.seed, a.fr)))
  }

  lemma ProofAccepted(c: Crypto, s: State)
    requires Usable(c) && Staffed(c, s) && s.pay == EmptyPay
    requires s.ce.current.epoch == 0 && s.ce.current.slot == END_SLOT && s.ce.previous.slot == 0
    requires Held(s.orders, 0, X0, Y0) && Held(s.orders, 1, X1, Y1)
    requires PairEpoch(PAIR, 0) in s.orders.stateAt && s.orders.stateAt[PairEpoch(PAIR, 0)] == NonceSeq(2, 0, 0)
    ensures ApplyProof(c, s, PRO, ProofOfTwo(c, s)) == Ok(Paid(Touch(s, PAIR), PAIR, 0, 600 * DAY))
  {
    ChallengeOfTwo(s.orders);
  }

  /** The bound on income is false for windows longer than an order: a reachable state in which a pair
      has been paid 600 days for orders worth 400. */
  lemma BoundFails(c: Crypto) returns (s: State)
    requires Usable(c)
    ensures Reachable(c, s) && IncomeOf(s, PAIR) > Worth(s.orders, PAIR, OrderCount(s.orders, PAIR))
  {
    var t := TwoOrdersChallenged(c);
    ProofAccepted(c, t);
    assert Step(c, t, PRO, SegmentProof(ProofOfTwo(c, t))) == ApplyProof(c, t, PRO, ProofOfTwo(c, t));
    s := Play(c, t, PRO, SegmentProof(ProofOfTwo(c, t)), t.slot + 1);
    WorthOfTwo(s.orders);
    IsReachable(c, s);
  }

  // ---- A confirmation that goes stale ----

  function OneFault(): SegRemove
  {
    SegRemove(USER, PRO, 0, 0, OneStripe(0, 0).segments)
  }

  /** Order 0 is current with one stripe, and the first epoch is running. */
  ghost predicate Faultable(c: Crypto, s: State)
  {
    && Staffed(c, s)
    && OrderKey(PAIR, 0) in s.orders.base && s.orders.base[OrderKey(PAIR, 0)].order.ob == Terms(0, A, B)
    && SeqKey(PAIR, 0, 0) in s.orders.seqs && s.orders.seqs[SeqKey(PAIR, 0, 0)].data == OneStripe(0, 0)
    && s.ce.epoch == 1 && s.ce.current.epoch == 0 && s.ce.current.slot == 30000
    && s.ce.previous.epoch == 0 && s.ce.previous.slot == 0
  }

  lemma FirstOrderChallenged(c: Crypto) returns (s: State)
    requires Usable(c)
    ensures Faultable(c, s) && s.height < 100 && s.pay == EmptyPay
  {
    var a := Prepare(c);
    var b := OpenAndFill(c, a, 0, A, B);
    var e := Wait(c, b, 30000);
    s := FirstEpoch(c, e);
  }

  const PENALTY: int := 200 * DAY

  lemma FaultHolds(c: Crypto, s: State)
    requires Faultable(c, s)
    ensures FaultAcceptable(s.orders, s.ce.previous.slot, s.ce.current.slot, PRO, OneFault())
    ensures Penalty(s.orders.base[OrderKey(PAIR, 0)].order.ob, CountSegs(OneFault().segments), SlotTime(0)) == PENALTY
  {
    OneStripeCounts(0, 0);
    var held := OneStripe(0, 0).segments;
    assert Q.AggHas(held, 0, 0, 0);
  }

  lemma Report(c: Crypto, s: State) returns (t: State)
    requires Faultable(c, s) && s.height < 390
    ensures Faultable(c, t) && t.height == s.height + 1 && t.pay == Book(s.pay, PAIR, 0, 0, PENALTY)
    ensures ApplyFault(c, s, PRO, OneFault()).Ok? && t.pay == ApplyFault(c, s, PRO, OneFault()).value.pay
  {
    FaultHolds(c, s);
    assert Step(c, s, PRO, SegmentFault(OneFault())) == ApplyFault(c, s, PRO, OneFault());
    t := Play(c, s, PRO, SegmentFault(OneFault()), s.slot + 1);
  }

  lemma Confirm(c: Crypto, s: State, income: AccIncome) returns (t: State)
    requires Usable(c) && Faultable(c, s) && s.height < 390 && s.pay.confirm == map[]
    requires ProEpoch(PRO, 0) in s.pay.proAt && IncomeMatches(income, PRO, s.pay.proAt[ProEpoch(PRO, 0)])
    ensures Faultable(c, t) && t.height == s.height + 1 && Confirmed(t.pay, ProEpoch(PRO, 0))
  {
    var sig := Sign(c, Roles[KEEPER], IncomeDigest(income));
    var body := ConfirmPostIncome(0, income, sig);
    assert ApplyConfirm(c, s, KEEPER, 0, income, sig).Ok?;
    assert Step(c, s, KEEPER, body) == ApplyConfirm(c, s, KEEPER, 0, income, sig);
    t := Play(c, s, KEEPER, body, s.slot + 1);
  }

  /** Confirmed while right, overtaken by the next fault: both states are reachable. */
  lemma ConfirmationGoesStale(c: Crypto) returns (s: State, t: State)
    requires Usable(c)
    ensures Reachable(c, s) && Confirmed(s.pay, ProEpoch(PRO, 0))
    ensures Reachable(c, t) && ProEpoch(PRO, 0) in t.pay.confirm && !Confirmed(t.pay, ProEpoch(PRO, 0))
  {
    s := ConfirmedEarly(c);
    IsReachable(c, s);
    ReachableInv(c, s);
    FaultHolds(c, s);
    t := Report(c, s);
    IsReachable(c, t);
    EarlyConfirmationGoesStale(c, s, PRO, OneFault(), ApplyFault(c, s, PRO, OneFault()).value);
  }

  lemma ConfirmedEarly(c: Crypto) returns (s: State)
    requires Usable(c)
    ensures Faultable(c, s) && s.height < 390 && Confirmed(s.pay, ProEpoch(PRO, 0))
  {
    var a := FirstOrderChallenged(c);
    var b := Report(c, a);
    s := Confirm(c, b, AccIncome(PRO, 0, 0, PENALTY));
  }
}
