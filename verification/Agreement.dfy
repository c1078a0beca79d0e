/** What validation accepts, the real transition accepts too. */
module Agreement {
  import opened Types
  import opened Chain
  import opened Cache
  import opened Validation
  import opened OrderBook
  import opened Growth
  import opened Invariants

  // ---- How the scratch records relate to the state being built ----
  // s0: state of the last applied block; v: scratch records; s: state after applying the accepted messages so far.

  ghost predicate RoleSim(s0: State, v: Val, s: State, id: nat)
  {
    VRole(s0, v, id) == LoadRole(s.roles, id)
  }

  /** What a scratch order keeps in step; it need not track the field element. */
  ghost predicate InStep(x: OrderInfo, y: OrderInfo)
  {
    x.ns == y.ns && x.base == y.base && x.prove == y.prove
  }

  ghost predicate OrderSim(s0: State, v: Val, s: State, k: Pair)
  {
    InStep(VOrder(s0, v, k), LoadOrder(s.orders, s.pay, k))
  }

  /** A bucket agrees on its chunk count; its scratch marks may be too many, never too few. */
  ghost predicate BucketSim(fs0: FsDb, w: UserInfo, fs: FsDb, u: nat, b: nat)
  {
    var x := BucketOf(fs0, u, w, b);
    && |x.chunks| == Get(fs.buckets, BucketKey(u, b), 0)
    && forall p: nat :: BitsOf(fs, u, b, p) <= StripesOf(fs0, u, b, x, p)
  }

  ghost predicate UserSim(fs0: FsDb, users: map<nat, UserInfo>, fs: FsDb, u: nat)
  {
    match VUser(fs0, users, u)
    case None => u !in fs.verifyKey
    case Some(w) =>
      && u in fs.verifyKey && w.verifyKey == fs.verifyKey[u]
      && w.next == NextBucket(fs, u)
      && forall b: nat :: BucketSim(fs0, w, fs, u, b)
  }

  ghost predicate UsersSim(fs0: FsDb, users: map<nat, UserInfo>, fs: FsDb)
  {
    forall u: nat :: UserSim(fs0, users, fs, u)
  }

  /** Stored sequences keep their segments. */
  ghost predicate SeqsKept(o: OrderDb, t: OrderDb)
  {
    forall key | key in o.seqs :: key in t.seqs && t.seqs[key].data == o.seqs[key].data
  }

  /** Both copies run the same challenge epoch, of which validation takes an expired order to be one that
      had expired in the last applied state. */
  ghost predicate ClockSim(s0: State, v: Val, s: State)
  {
    && v.current == s.ce.current && v.previous == s.ce.previous && v.epoch == s.ce.epoch && v.version == s.version
    && s0.ce.previous.slot <= s.ce.previous.slot <= s.ce.current.slot
    && s.slot == s0.slot
  }

  ghost predicate Sim(s0: State, v: Val, s: State)
  {
    && (forall id: nat :: RoleSim(s0, v, s, id))
    && (forall id | id in s0.roles.base :: id in s.roles.base)
    && (forall u | u in s0.fs.verifyKey :: u in s.fs.verifyKey)
    && (forall k: Pair :: OrderSim(s0, v, s, k))
    && UsersSim(s0.fs, v.users, s.fs)
    && v.root == s.root
    && ClockSim(s0, v, s)
    && OrdersGrow(s0.orders, s.orders) && SeqsKept(s0.orders, s.orders)
    && OrdersOk(s.orders) && UsersOk(s)
  }

  lemma SimStart(c: Crypto, s0: State)
    requires Inv(c, s0)
    ensures Sim(s0, Reset(s0), s0)
  {
    forall u: nat ensures UserSim(s0.fs, map[], s0.fs, u) {
      forall b: nat | u in s0.fs.verifyKey ensures BucketSim(s0.fs, LoadUser(s0.fs, u).value, s0.fs, u, b) { }
    }
  }

  // ---- Segments ----

  /** Loading a bucket or adding marks keeps the scratch user good enough. */
  lemma BucketUpdateSim(fs0: FsDb, users: map<nat, UserInfo>, fs: FsDb, user: nat, w: UserInfo, bucket: nat, x: Bucket)
    requires UsersSim(fs0, users, fs) && VUser(fs0, users, user) == Some(w)
    requires |x.chunks| == Get(fs.buckets, BucketKey(user, bucket), 0)
    requires forall p: nat :: BitsOf(fs, user, bucket, p) <= StripesOf(fs0, user, bucket, x, p)
    ensures UsersSim(fs0, users[user := w.(buckets := w.buckets[bucket := x])], fs)
  {
    var w' := w.(buckets := w.buckets[bucket := x]);
    var users' := users[user := w'];
    forall u: nat ensures UserSim(fs0, users', fs, u) {
      assert UserSim(fs0, users, fs, u);
      if u == user {
        forall b: nat ensures BucketSim(fs0, w', fs, u, b) { assert BucketSim(fs0, w, fs, u, b); }
      }
    }
  }

  lemma LoadUserSim(fs0: FsDb, users: map<nat, UserInfo>, fs: FsDb, user: nat)
    requires UsersSim(fs0, users, fs) && VUser(fs0, users, user).Some?
    ensures UsersSim(fs0, users[user := VUser(fs0, users, user).value], fs)
  {
    var users' := users[user := VUser(fs0, users, user).value];
    forall u: nat ensures UserSim(fs0, users', fs, u) { assert UserSim(fs0, users, fs, u); }
  }

  /** Whatever the verdict on a segment, the scratch users stay good enough for the old state. */
  lemma ChunkKeepsSim(fs0: FsDb, users: map<nat, UserInfo>, fs: FsDb, user: nat, pro: nat, nonce: nat, seg: AggSegs)
    requires UsersSim(fs0, users, fs)
    ensures UsersSim(fs0, CanAddChunk(fs0, users, user, pro, nonce, seg).0, fs)
  {
    match VUser(fs0, users, user)
    case None =>
    case Some(w) =>
      LoadUserSim(fs0, users, fs, user);
      if seg.bucket < w.next {
        var b := BucketOf(fs0, user, w, seg.bucket);
        assert UserSim(fs0, users, fs, user) && BucketSim(fs0, w, fs, user, seg.bucket);
        var users' := CanAddChunk(fs0, users, user, pro, nonce, seg).0;
        BucketUpdateSim(fs0, users, fs, user, w, seg.bucket, users'[user].buckets[seg.bucket]);
      }
  }

  /** An accepted segment is accepted by the real transition, and the users still agree. */
  lemma ChunkAgrees(fs0: FsDb, users: map<nat, UserInfo>, fs: FsDb, user: nat, pro: nat, nonce: nat, seg: AggSegs)
    requires UsersSim(fs0, users, fs) && CanAddChunk(fs0, users, user, pro, nonce, seg).1
    ensures ApplyAddChunk(fs, user, pro, nonce, seg).Ok?
    ensures UsersSim(fs0, CanAddChunk(fs0, users, user, pro, nonce, seg).0,
                     ApplyAddChunk(fs, user, pro, nonce, seg).value)
  {
    var w := VUser(fs0, users, user).value;
    assert UserSim(fs0, users, fs, user) && BucketSim(fs0, w, fs, user, seg.bucket);
    var b := BucketOf(fs0, user, w, seg.bucket);
    assert BitsOf(fs, user, seg.bucket, pro) <= StripesOf(fs0, user, seg.bucket, b, pro);
    var fs' := ApplyAddChunk(fs, user, pro, nonce, seg).value;
    ChunkKeepsSim(fs0, users, fs, user, pro, nonce, seg);
    var users' := CanAddChunk(fs0, users, user, pro, nonce, seg).0;
    forall u: nat ensures UserSim(fs0, users', fs', u) {
      assert UserSim(fs0, users', fs, u);
      if VUser(fs0, users', u).Some? {
        var w' := VUser(fs0, users', u).value;
        forall b: nat ensures BucketSim(fs0, w', fs', u, b) { assert BucketSim(fs0, w', fs, u, b); }
      }
    }
  }

  lemma {:induction false} ChunksAgree(fs0: FsDb, users: map<nat, UserInfo>, fs: FsDb, user: nat, pro: nat, nonce: nat,
                                       segs: seq<AggSegs>)
    requires UsersSim(fs0, users, fs)
    ensures var (users', ok) := CanAddChunks(fs0, users, user, pro, nonce, segs);
            && UsersSim(fs0, users', fs)
            && (ok ==> ApplyAddChunks(fs, user, pro, nonce, segs).Ok? &&
                       UsersSim(fs0, users', ApplyAddChunks(fs, user, pro, nonce, segs).value))
            && (ok && segs != [] ==> user in fs.verifyKey)
  {
    if segs != [] {
      var init, last := segs[..|segs| - 1], segs[|segs| - 1];
      ChunksAgree(fs0, users, fs, user, pro, nonce, init);
      var (users1, ok1) := CanAddChunks(fs0, users, user, pro, nonce, init);
      if ok1 {
        ChunkKeepsSim(fs0, users1, fs, user, pro, nonce, last);
        if CanAddChunk(fs0, users1, user, pro, nonce, last).1 {
          var fs1 := ApplyAddChunks(fs, user, pro, nonce, init).value;
          ChunkAgrees(fs0, users1, fs1, user, pro, nonce, last);
          ChunksKeepUsers(fs, user, pro, nonce, init, fs1);
        }
      }
    }
  }

  // ---- Frames ----

  /** Caching a record that would be loaded anyway changes nothing. */
  lemma LoadsKeepSim(s0: State, v: Val, s: State, w: Val)
    requires Sim(s0, v, s)
    requires w == v.(roles := w.roles, orders := w.orders, users := w.users)
    requires forall id: nat :: VRole(s0, w, id) == VRole(s0, v, id)
    requires forall k: Pair :: VOrder(s0, w, k) == VOrder(s0, v, k)
    requires UsersSim(s0.fs, w.users, s.fs)
    ensures Sim(s0, w, s)
  {
    forall id: nat ensures RoleSim(s0, w, s, id) { assert RoleSim(s0, v, s, id); }
    forall k: Pair ensures OrderSim(s0, w, s, k) { assert OrderSim(s0, v, s, k); }
  }

  /** Counting a message: nonce and root move together. */
  lemma AdmitAgrees(c: Crypto, s0: State, v: Val, s: State, m: Message)
    requires Sim(s0, v, s) && m.nonce == NonceOf(s.roles, m.from)
    ensures Admit(c, s0, v, m).Some? && Sim(s0, Admit(c, s0, v, m).value, Charge(c, s, m))
  {
    assert RoleSim(s0, v, s, m.from);
    var w, t := Admit(c, s0, v, m).value, Charge(c, s, m);
    forall id: nat ensures RoleSim(s0, w, t, id) { assert RoleSim(s0, v, s, id); }
    forall k: Pair ensures OrderSim(s0, w, t, k) { assert OrderSim(s0, v, s, k); }
  }

  // ---- Accepted messages, one method at a time ----

  lemma AddRoleAgrees(c: Crypto, s0: State, v: Val, s: State, from: nat, role: RoleBase)
    requires Sim(s0, v, s) && CanAddRole(s0, v, from, role).1
    ensures ApplyAddRole(s, from, role).Ok?
    ensures Sim(s0, CanAddRole(s0, v, from, role).0, ApplyAddRole(s, from, role).value)
  {
    assert RoleSim(s0, v, s, from);
    var w, t := CanAddRole(s0, v, from, role).0, ApplyAddRole(s, from, role).value;
    forall id: nat ensures RoleSim(s0, w, t, id) { assert RoleSim(s0, v, s, id); }
    forall k: Pair ensures OrderSim(s0, w, t, k) { assert OrderSim(s0, v, s, k); }
    NewRoleKeepsUsers(s, from, role, t);
  }

  lemma CreateFsAgrees(c: Crypto, s0: State, v: Val, s: State, from: nat, vk: nat)
    requires Sim(s0, v, s) && UsersOk(s0) && CanCreateFs(s0, v, from, vk).1
    ensures ApplyCreateFs(s, from, vk).Ok? && Sim(s0, CanCreateFs(s0, v, from, vk).0, ApplyCreateFs(s, from, vk).value)
  {
    assert RoleSim(s0, v, s, from) && UserSim(s0.fs, v.users, s.fs, from);
    var w, t := CanCreateFs(s0, v, from, vk).0, ApplyCreateFs(s, from, vk).value;
    assert from !in s.fs.verifyKey;
    NewFsKeepsUsers(s, from, vk, t);
    forall id: nat ensures RoleSim(s0, w, t, id) { assert RoleSim(s0, v, s, id); }
    forall k: Pair ensures OrderSim(s0, w, t, k) { assert OrderSim(s0, v, s, k); }
    forall u: nat ensures UserSim(s0.fs, w.users, t.fs, u) {
      assert UserSim(s0.fs, v.users, s.fs, u);
      if u == from {
        forall b: nat ensures BucketSim(s0.fs, UserInfo(vk, 0, map[]), t.fs, u, b) { }
      } else {
        OtherUserSim(s0.fs, v.users, s.fs, w.users, t.fs, u);
      }
    }
  }

  lemma OtherUserSim(fs0: FsDb, users: map<nat, UserInfo>, fs: FsDb, users': map<nat, UserInfo>, fs': FsDb, u: nat)
    requires UserSim(fs0, users, fs, u) && VUser(fs0, users', u) == VUser(fs0, users, u)
    requires fs'.next == fs.next && fs'.buckets == fs.buckets && fs'.bits == fs.bits
    requires Find(fs'.verifyKey, u) == Find(fs.verifyKey, u)
    ensures UserSim(fs0, users', fs', u)
  {
    if VUser(fs0, users, u).Some? {
      forall b: nat ensures BucketSim(fs0, VUser(fs0, users, u).value, fs', u, b) {
        assert BucketSim(fs0, VUser(fs0, users, u).value, fs, u, b);
      }
    }
  }

  lemma CreateBucketUsers(s0: State, v: Val, s: State, from: nat, bucket: nat, chunks: nat)
    requires UsersSim(s0.fs, v.users, s.fs) && UsersOk(s) && CanCreateBucket(s0, v, from, bucket, chunks).1
    ensures ApplyCreateBucket(s, from, bucket, chunks).Ok?
    ensures UsersSim(s0.fs, CanCreateBucket(s0, v, from, bucket, chunks).0.users,
                     ApplyCreateBucket(s, from, bucket, chunks).value.fs)
  {
    assert UserSim(s0.fs, v.users, s.fs, from);
    var w, t := CanCreateBucket(s0, v, from, bucket, chunks).0, ApplyCreateBucket(s, from, bucket, chunks).value;
    forall u: nat ensures UserSim(s0.fs, w.users, t.fs, u) {
      assert UserSim(s0.fs, v.users, s.fs, u);
      NewBucketSim(s0.fs, v.users, s.fs, from, bucket, chunks, u);
    }
  }

  lemma NewBucketSim(fs0: FsDb, users: map<nat, UserInfo>, fs: FsDb, from: nat, bucket: nat, chunks: nat, u: nat)
    requires UserSim(fs0, users, fs, u) && VUser(fs0, users, from).Some? && VUser(fs0, users, from).value.next == bucket
    requires forall key | key in fs.bits :: key.bucket < NextBucket(fs, key.user)
    ensures var x := VUser(fs0, users, from).value;
            var users' := users[from := x.(buckets := x.buckets[bucket := NewBucket(chunks)], next := x.next + 1)];
            UserSim(fs0, users',
                    fs.(buckets := fs.buckets[BucketKey(from, bucket) := chunks],
                        next := fs.next[from := bucket + 1]), u)
  {
    var x := VUser(fs0, users, from).value;
    var users' := users[from := x.(buckets := x.buckets[bucket := NewBucket(chunks)], next := x.next + 1)];
    var fs' := fs.(buckets := fs.buckets[BucketKey(from, bucket) := chunks], next := fs.next[from := bucket + 1]);
    if VUser(fs0, users, u).Some? {
      forall b: nat ensures BucketSim(fs0, VUser(fs0, users', u).value, fs', u, b) {
        assert BucketSim(fs0, VUser(fs0, users, u).value, fs, u, b);
      }
    }
  }

  lemma CreateBucketAgrees(c: Crypto, s0: State, v: Val, s: State, from: nat, bucket: nat, chunks: nat)
    requires Sim(s0, v, s) && CanCreateBucket(s0, v, from, bucket, chunks).1
    ensures ApplyCreateBucket(s, from, bucket, chunks).Ok?
    ensures Sim(s0, CanCreateBucket(s0, v, from, bucket, chunks).0, ApplyCreateBucket(s, from, bucket, chunks).value)
  {
    CreateBucketUsers(s0, v, s, from, bucket, chunks);
    var w, t := CanCreateBucket(s0, v, from, bucket, chunks).0, ApplyCreateBucket(s, from, bucket, chunks).value;
    NewBucketKeepsUsers(s, from, bucket, chunks, t);
    forall id: nat ensures RoleSim(s0, w, t, id) { assert RoleSim(s0, v, s, id); }
    forall k: Pair ensures OrderSim(s0, w, t, k) { assert OrderSim(s0, v, s, k); }
  }

  lemma AddMetaAgrees(s0: State, v: Val, s: State, from: nat, bucket: nat)
    requires Sim(s0, v, s) && CanAddMeta(s0, v, from, bucket).1
    ensures ApplyAddMeta(s, from, bucket) == Ok(s) && Sim(s0, CanAddMeta(s0, v, from, bucket).0, s)
  {
    assert UserSim(s0.fs, v.users, s.fs, from);
    LoadUserSim(s0.fs, v.users, s.fs, from);
    LoadsKeepSim(s0, v, s, CanAddMeta(s0, v, from, bucket).0);
  }

  predicate SameTime(s: State, t: State)
  {
    t.ce == s.ce && t.slot == s.slot && t.version == s.version
  }

  /** Transitions on one order: everything but that pair's nonces and base is as before. */
  lemma OrderMoves(s0: State, v: Val, s: State, k: Pair, w: Val, t: State)
    requires Sim(s0, v, s) && UsersSim(s0.fs, w.users, t.fs) && UsersOk(t) && OrdersOk(t.orders)
    requires OrdersGrow(s.orders, t.orders) && SeqsKept(s.orders, t.orders)
    requires t.roles == s.roles && SameTime(s, t) && t.root == s.root && t.fs.verifyKey == s.fs.verifyKey
    requires w == v.(roles := w.roles, orders := w.orders, users := w.users)
    requires forall id: nat :: VRole(s0, w, id) == VRole(s0, v, id)
    requires forall j: Pair | j != k :: VOrder(s0, w, j) == VOrder(s0, v, j)
    requires forall j: Pair | j != k ::
               InStep(LoadOrder(t.orders, t.pay, j), LoadOrder(s.orders, s.pay, j))
    requires OrderSim(s0, w, t, k)
    ensures Sim(s0, w, t)
  {
    GrowTransitive(s0.orders, s.orders, t.orders);
    forall id: nat ensures RoleSim(s0, w, t, id) { assert RoleSim(s0, v, s, id); }
    forall j: Pair ensures OrderSim(s0, w, t, j) { assert OrderSim(s0, v, s, j); }
  }

  lemma BooksKept(c: Crypto, s: State, from: nat, body: Payload, t: State)
    requires OrdersOk(s.orders) && UsersOk(s) && Step(c, s, from, body) == Ok(t)
    ensures OrdersOk(t.orders) && OrdersGrow(s.orders, t.orders) && UsersOk(t)
  {
    OrdersStep(c, s, from, body, t);
    GrowStep(c, s, from, body, t);
    UsersStep(c, s, from, body, t);
  }

  /** A transition that only moves the counters of one pair, on both sides. */
  lemma CountersMove(s0: State, v: Val, s: State, k: Pair, next: OrderInfo, w: Val, t: State)
    requires Sim(s0, v, s) && OrdersOk(t.orders) && OrdersGrow(s.orders, t.orders) && UsersOk(t)
    requires w == v.(orders := v.orders[k := next]) && next.prove == VOrder(s0, v, k).prove
    requires t == s.(dates := t.dates, orders := PutNs(s.orders, k, s.ce.epoch, next.ns))
    requires var key := OrderKey(k, next.ns.nonce);
             next.base == if key in s.orders.base then Some(s.orders.base[key].order) else None
    ensures Sim(s0, w, t)
  {
    assert OrderSim(s0, v, s, k);
    OrderMoves(s0, v, s, k, w, t);
  }

  lemma CommitAccepted(s0: State, v: Val, s: State, from: nat, user: nat, pro: nat, nonce: nat, seqNum: nat)
    requires OrderSim(s0, v, s, Pair(user, pro)) && CanCommit(s0, v, from, user, pro, nonce, seqNum).1
    ensures var k := Pair(user, pro);
            var info := VOrder(s0, v, k);
            var next := info.(ns := NonceSeq(nonce + 1, 0, info.ns.subNonce), fr := 0, base := None);
            && Ns(s.orders, k).nonce == nonce
            && CanCommit(s0, v, from, user, pro, nonce, seqNum).0 == v.(orders := v.orders[k := next])
            && ApplyCommit(s, from, user, pro, nonce, seqNum)
               == Ok(Touch(s, k).(orders := PutNs(s.orders, k, s.ce.epoch, next.ns)))
  {
  }

  lemma CommitAgrees(c: Crypto, s0: State, v: Val, s: State, from: nat, user: nat, pro: nat, nonce: nat, seqNum: nat)
    requires Sim(s0, v, s) && CanCommit(s0, v, from, user, pro, nonce, seqNum).1
    ensures ApplyCommit(s, from, user, pro, nonce, seqNum).Ok?
    ensures Sim(s0, CanCommit(s0, v, from, user, pro, nonce, seqNum).0,
                ApplyCommit(s, from, user, pro, nonce, seqNum).value)
  {
    var k := Pair(user, pro);
    assert OrderSim(s0, v, s, k);
    CommitAccepted(s0, v, s, from, user, pro, nonce, seqNum);
    var w, t := CanCommit(s0, v, from, user, pro, nonce, seqNum).0,
      ApplyCommit(s, from, user, pro, nonce, seqNum).value;
    BooksKept(c, s, from, CommitDataOrder(user, pro, nonce, seqNum), t);
    NothingAhead(s.orders, OrderKey(k, nonce + 1));
    CountersMove(s0, v, s, k, w.orders[k], w, t);
  }

  lemma NothingAhead(o: OrderDb, key: OrderKey)
    requires OrdersOk(o) && key.nonce > Ns(o, key.pair).nonce
    ensures key !in o.base
  {
    assert key in o.base ==> OrderOk(o, key);
  }

  lemma SubAccepted(s0: State, v: Val, s: State, from: nat, user: nat, pro: nat, nonce: nat)
    requires OrderSim(s0, v, s, Pair(user, pro)) && OrderGrows(s0.orders, s.orders, OrderKey(Pair(user, pro), nonce))
    requires s0.ce.previous.slot <= s.ce.previous.slot && CanSub(s0, v, from, user, pro, nonce).1
    ensures var k := Pair(user, pro);
            var info := VOrder(s0, v, k);
            var next := info.(ns := info.ns.(subNonce := nonce + 1));
            && CanSub(s0, v, from, user, pro, nonce).0 == v.(orders := v.orders[k := next])
            && ApplySub(s, from, user, pro, nonce)
               == Ok(Touch(s, k).(orders := PutNs(s.orders, k, s.ce.epoch, next.ns)))
  {
  }

  lemma SubAgrees(c: Crypto, s0: State, v: Val, s: State, from: nat, user: nat, pro: nat, nonce: nat)
    requires Sim(s0, v, s) && CanSub(s0, v, from, user, pro, nonce).1
    ensures ApplySub(s, from, user, pro, nonce).Ok?
    ensures Sim(s0, CanSub(s0, v, from, user, pro, nonce).0, ApplySub(s, from, user, pro, nonce).value)
  {
    var k := Pair(user, pro);
    assert OrderSim(s0, v, s, k) && OrderGrows(s0.orders, s.orders, OrderKey(k, nonce));
    SubAccepted(s0, v, s, from, user, pro, nonce);
    var w, t := CanSub(s0, v, from, user, pro, nonce).0, ApplySub(s, from, user, pro, nonce).value;
    BooksKept(c, s, from, SubDataOrder(user, pro, nonce), t);
    CountersMove(s0, v, s, k, w.orders[k], w, t);
  }

  lemma FaultEffect(c: Crypto, s: State, from: nat, f: SegRemove, t: State)
    requires ApplyFault(c, s, from, f) == Ok(t)
    ensures t.roles == s.roles && SameTime(s, t) && t.root == s.root && t.fs == s.fs && SeqsKept(s.orders, t.orders)
    ensures forall k: Pair ::
              InStep(LoadOrder(t.orders, t.pay, k), LoadOrder(s.orders, s.pay, k))
  {
  }

  lemma FaultAccepted(c: Crypto, s0: State, v: Val, s: State, from: nat, f: SegRemove)
    requires Sim(s0, v, s) && FaultAcceptable(s0.orders, v.previous.slot, v.current.slot, from, f)
    ensures ApplyFault(c, s, from, f).Ok?
  {
    var k := Pair(f.user, f.pro);
    assert OrderGrows(s0.orders, s.orders, OrderKey(k, f.nonce));
    assert SeqKey(k, f.nonce, f.seqNum) in s.orders.seqs;
  }

  lemma FaultKeepsBooks(c: Crypto, s: State, from: nat, f: SegRemove, t: State)
    requires OrdersOk(s.orders) && UsersOk(s) && ApplyFault(c, s, from, f) == Ok(t)
    ensures OrdersOk(t.orders) && OrdersGrow(s.orders, t.orders) && UsersOk(t)
  {
    BooksKept(c, s, from, SegmentFault(f), t);
  }

  lemma OrderStays(s0: State, v: Val, s: State, t: State, k: Pair)
    requires Sim(s0, v, s) && OrdersOk(t.orders) && OrdersGrow(s.orders, t.orders)
    requires UsersOk(t) && SeqsKept(s.orders, t.orders)
    requires t.roles == s.roles && SameTime(s, t) && t.root == s.root && t.fs == s.fs
    requires forall j: Pair ::
               InStep(LoadOrder(t.orders, t.pay, j), LoadOrder(s.orders, s.pay, j))
    ensures Sim(s0, v, t)
  {
    assert OrderSim(s0, v, s, k);
    OrderMoves(s0, v, s, k, v, t);
  }

  lemma FaultSim(c: Crypto, s0: State, v: Val, s: State, from: nat, f: SegRemove, t: State)
    requires Sim(s0, v, s) && ApplyFault(c, s, from, f) == Ok(t)
    ensures Sim(s0, v, t)
  {
    FaultKeepsBooks(c, s, from, f, t);
    FaultEffect(c, s, from, f, t);
    OrderStays(s0, v, s, t, Pair(f.user, f.pro));
  }

  /** What an accepted sequence leaves in the scratch records. */
  lemma CanAddSeqEffect(c: Crypto, s0: State, v: Val, from: nat, q: SignedSeq, w: Val)
    requires CanAddSeq(c, s0, v, from, q) == (w, true)
    ensures var d := q.data;
            var k := Pair(d.user, d.pro);
            var info := VOrder(s0, v, k);
            && SeqAcceptable(c, from, q, VRole(s0, v, d.user).base, VRole(s0, v, d.pro).base, info)
            && CanAddChunks(s0.fs, v.users, d.user, d.pro, d.nonce, d.segments) == (w.users, true)
            && w == v.(roles := w.roles, orders := w.orders, users := w.users)
            && (forall id: nat :: VRole(s0, w, id) == VRole(s0, v, id))
            && (forall j: Pair | j != k :: VOrder(s0, w, j) == VOrder(s0, v, j))
            && VOrder(s0, w, k).ns == info.ns.(seqNum := info.ns.seqNum + 1)
            && VOrder(s0, w, k).base == Some(NewBase(info.base.value, q)) && VOrder(s0, w, k).prove == info.prove
  {
  }

  /** What an accepted sequence changes in the state. */
  lemma AddSeqEffect(c: Crypto, s: State, from: nat, q: SignedSeq, t: State)
    requires OrdersOk(s.orders) && ApplyAddSeq(c, s, from, q) == Ok(t)
    ensures var d := q.data;
            var k := Pair(d.user, d.pro);
            var info := LoadOrder(s.orders, s.pay, k);
            && ApplyAddChunks(s.fs, d.user, d.pro, d.nonce, d.segments) == Ok(t.fs)
            && t.roles == s.roles && SameTime(s, t) && t.root == s.root && t.pay == s.pay
            && SeqsKept(s.orders, t.orders)
            && info.base.Some?
            && LoadOrder(t.orders, t.pay, k).ns == info.ns.(seqNum := info.ns.seqNum + 1)
            && LoadOrder(t.orders, t.pay, k).base == Some(NewBase(info.base.value, q))
            && LoadOrder(t.orders, t.pay, k).prove == info.prove
            && (forall j: Pair | j != k ::
                  InStep(LoadOrder(t.orders, t.pay, j), LoadOrder(s.orders, s.pay, j)))
  {
    var k := Pair(q.data.user, q.data.pro);
    assert OrderOk(s.orders, OrderKey(k, Ns(s.orders, k).nonce));
    assert PairOk(s.orders, k);
    assert SeqKey(k, q.data.nonce, q.data.seqNum) in s.orders.seqs ==>
           SeqOk(s.orders, SeqKey(k, q.data.nonce, q.data.seqNum));
  }

  lemma SameRecordSameVerdict(c: Crypto, from: nat, q: SignedSeq, uri: Option<RoleBase>, pri: Option<RoleBase>,
                              x: OrderInfo, y: OrderInfo)
    requires SeqAcceptable(c, from, q, uri, pri, x) && x.ns == y.ns && x.base == y.base
    ensures SeqAcceptable(c, from, q, uri, pri, y)
  {
  }

  lemma AcceptableSeqApplies(c: Crypto, s: State, from: nat, q: SignedSeq)
    requires OrdersOk(s.orders) && q.data.user in s.fs.verifyKey
    requires ApplyAddChunks(s.fs, q.data.user, q.data.pro, q.data.nonce, q.data.segments).Ok?
    requires SeqAcceptable(c, from, q, Find(s.roles.base, q.data.user), Find(s.roles.base, q.data.pro),
                           OrderOf(s, Pair(q.data.user, q.data.pro)))
    ensures ApplyAddSeq(c, s, from, q).Ok?
  {
    var k := Pair(q.data.user, q.data.pro);
    assert OrderOk(s.orders, OrderKey(k, Ns(s.orders, k).nonce));
  }

  lemma AddSeqAccepted(c: Crypto, s0: State, v: Val, s: State, from: nat, q: SignedSeq)
    requires Sim(s0, v, s) && q.data.segments != []
    requires CanAddChunks(s0.fs, v.users, q.data.user, q.data.pro, q.data.nonce, q.data.segments).1
    requires SeqAcceptable(c, from, q, VRole(s0, v, q.data.user).base, VRole(s0, v, q.data.pro).base,
                           VOrder(s0, v, Pair(q.data.user, q.data.pro)))
    ensures ApplyAddSeq(c, s, from, q).Ok?
  {
    var d := q.data;
    var k := Pair(d.user, d.pro);
    assert RoleSim(s0, v, s, d.user) && RoleSim(s0, v, s, d.pro) && OrderSim(s0, v, s, k);
    ChunksAgree(s0.fs, v.users, s.fs, d.user, d.pro, d.nonce, d.segments);
    SameRecordSameVerdict(c, from, q, VRole(s0, v, d.user).base, VRole(s0, v, d.pro).base, VOrder(s0, v, k),
                          OrderOf(s, k));
    AcceptableSeqApplies(c, s, from, q);
  }

  lemma AddSeqKeepsRest(c: Crypto, s: State, from: nat, q: SignedSeq, t: State)
    requires OrdersOk(s.orders) && UsersOk(s) && ApplyAddSeq(c, s, from, q) == Ok(t)
    ensures OrdersOk(t.orders) && UsersOk(t) && OrdersGrow(s.orders, t.orders)
  {
    AddSeqKeeps(c, s, from, q, t);
    AddSeqGrows(c, s, from, q, t);
    AddSeqKeepsUsers(c, s, from, q, t);
  }

  lemma AddSeqSim(c: Crypto, s0: State, v: Val, s: State, from: nat, q: SignedSeq, w: Val, t: State)
    requires Sim(s0, v, s) && CanAddSeq(c, s0, v, from, q) == (w, true) && ApplyAddSeq(c, s, from, q) == Ok(t)
    ensures Sim(s0, w, t)
  {
    AddSeqKeepsRest(c, s, from, q, t);
    CanAddSeqEffect(c, s0, v, from, q, w);
    AddSeqEffect(c, s, from, q, t);
    AddSeqMoves(s0, v, s, q, w, t);
  }

  lemma AddSeqMoves(s0: State, v: Val, s: State, q: SignedSeq, w: Val, t: State)
    requires Sim(s0, v, s) && UsersOk(t) && OrdersOk(t.orders)
    requires OrdersGrow(s.orders, t.orders) && SeqsKept(s.orders, t.orders)
    requires t.roles == s.roles && SameTime(s, t) && t.root == s.root
    requires w == v.(roles := w.roles, orders := w.orders, users := w.users)
    requires forall id: nat :: VRole(s0, w, id) == VRole(s0, v, id)
    requires var k := Pair(q.data.user, q.data.pro);
             && CanAddChunks(s0.fs, v.users, k.user, k.pro, q.data.nonce, q.data.segments) == (w.users, true)
             && ApplyAddChunks(s.fs, k.user, k.pro, q.data.nonce, q.data.segments) == Ok(t.fs)
             && (forall j: Pair | j != k :: VOrder(s0, w, j) == VOrder(s0, v, j))
             && (forall j: Pair | j != k :: InStep(LoadOrder(t.orders, t.pay, j), LoadOrder(s.orders, s.pay, j)))
             && var x, y := VOrder(s0, v, k), LoadOrder(s.orders, s.pay, k);
             && x.base.Some? && y.base.Some?
             && VOrder(s0, w, k).ns == x.ns.(seqNum := x.ns.seqNum + 1)
             && VOrder(s0, w, k).base == Some(NewBase(x.base.value, q)) && VOrder(s0, w, k).prove == x.prove
             && LoadOrder(t.orders, t.pay, k).ns == y.ns.(seqNum := y.ns.seqNum + 1)
             && LoadOrder(t.orders, t.pay, k).base == Some(NewBase(y.base.value, q))
             && LoadOrder(t.orders, t.pay, k).prove == y.prove
    ensures Sim(s0, w, t)
  {
    var k := Pair(q.data.user, q.data.pro);
    ChunksAgree(s0.fs, v.users, s.fs, k.user, k.pro, q.data.nonce, q.data.segments);
    ChunksKeepUsers(s.fs, k.user, k.pro, q.data.nonce, q.data.segments, t.fs);
    assert OrderSim(s0, v, s, k);
    OrderMoves(s0, v, s, k, w, t);
  }

  // ---- All methods together ----

  /** The methods for which validation and apply are meant to agree. */
  predicate InScope(body: Payload)
  {
    match body
    case PreDataOrder(_) => false
    case UpdateChalEpoch(_) => false
    case SegmentProof(_) => false
    case ConfirmPostIncome(_, _, _) => false
    case AddDataOrder(q) => q.data.segments != []
    case _ => true
  }

  lemma AcceptedAgrees(c: Crypto, s0: State, v: Val, s: State, from: nat, body: Payload)
    requires Sim(s0, v, s) && UsersOk(s0) && InScope(body) && Can(c, s0, v, from, body).1
    ensures Step(c, s, from, body).Ok? && Sim(s0, Can(c, s0, v, from, body).0, Step(c, s, from, body).value)
  {
    match body
    case AddRole(role) => AddRoleAgrees(c, s0, v, s, from, role);
    case CreateFs(vk) => CreateFsAgrees(c, s0, v, s, from, vk);
    case CreateBucket(b, n) => CreateBucketAgrees(c, s0, v, s, from, b, n);
    case AddDataOrder(q) =>
      var w := CanAddSeq(c, s0, v, from, q).0;
      CanAddSeqEffect(c, s0, v, from, q, w);
      AddSeqAccepted(c, s0, v, s, from, q);
      AddSeqSim(c, s0, v, s, from, q, w, ApplyAddSeq(c, s, from, q).value);
    case CommitDataOrder(u, p, n, q) => CommitAgrees(c, s0, v, s, from, u, p, n, q);
    case SubDataOrder(u, p, n) => SubAgrees(c, s0, v, s, from, u, p, n);
    case SegmentFault(f) =>
      FaultAccepted(c, s0, v, s, from, f);
      FaultSim(c, s0, v, s, from, f, ApplyFault(c, s, from, f).value);
    case AddMeta(b) => AddMetaAgrees(s0, v, s, from, b);
    case _ =>
  }

  /** The scratch records answer every look-up as before. */
  ghost predicate SameRecords(s0: State, v: Val, w: Val)
  {
    && (forall id: nat :: VRole(s0, w, id) == VRole(s0, v, id))
    && (forall k: Pair :: VOrder(s0, w, k) == VOrder(s0, v, k))
  }

  lemma WithRoleSame(s0: State, v: Val, id: nat)
    ensures SameRecords(s0, v, WithRole(s0, v, id))
  {
  }

  lemma WithOrderSame(s0: State, v: Val, k: Pair)
    ensures SameRecords(s0, v, WithOrder(s0, v, k))
  {
  }

  /** What a rejected sequence leaves in the scratch records. */
  lemma RejectedSeqEffect(c: Crypto, s0: State, v: Val, from: nat, q: SignedSeq, w: Val)
    requires CanAddSeq(c, s0, v, from, q) == (w, false)
    ensures w == v.(roles := w.roles, orders := w.orders, users := w.users) && SameRecords(s0, v, w)
    ensures w.users == v.users
            || w.users == CanAddChunks(s0.fs, v.users, q.data.user, q.data.pro, q.data.nonce, q.data.segments).0
  {
    var d := q.data;
    var v1 := WithRole(s0, v, d.user);
    var v2 := WithRole(s0, v1, d.pro);
    WithRoleSame(s0, v, d.user);
    WithRoleSame(s0, v1, d.pro);
    WithOrderSame(s0, v2, Pair(d.user, d.pro));
  }

  lemma RejectedSeqKeepsSim(s0: State, v: Val, s: State, q: SignedSeq, w: Val)
    requires Sim(s0, v, s)
    requires w == v.(roles := w.roles, orders := w.orders, users := w.users)
    requires SameRecords(s0, v, w)
    requires w.users == v.users
             || w.users == CanAddChunks(s0.fs, v.users, q.data.user, q.data.pro, q.data.nonce, q.data.segments).0
    ensures Sim(s0, w, s)
  {
    ChunksAgree(s0.fs, v.users, s.fs, q.data.user, q.data.pro, q.data.nonce, q.data.segments);
    LoadsKeepSim(s0, v, s, w);
  }

  /** A rejected message leaves at most loaded records and extra marks behind. */
  lemma RejectedKeepsSim(c: Crypto, s0: State, v: Val, s: State, from: nat, body: Payload)
    requires Sim(s0, v, s) && !Can(c, s0, v, from, body).1
    ensures Sim(s0, Can(c, s0, v, from, body).0, s)
  {
    match body
    case AddDataOrder(q) => RejectedSequence(c, s0, v, s, from, q);
    case CreateFs(vk) => RejectedFs(s0, v, s, from, vk);
    case CreateBucket(b, n) => RejectedBucket(s0, v, s, from, b, n);
    case AddMeta(b) => RejectedMeta(s0, v, s, from, b);
    case CommitDataOrder(u, p, n, q) => RejectedCommit(s0, v, s, from, u, p, n, q);
    case SubDataOrder(u, p, n) => RejectedSub(s0, v, s, from, u, p, n);
    case PreDataOrder(o) => RejectedOrderKeepsSim(c, s0, v, s, from, o);
    case SegmentProof(p) => RejectedProof(c, s0, v, s, from, p);
    case ConfirmPostIncome(e, i, g) => RejectedConfirm(c, s0, v, s, from, e, i, g);
    case _ =>
  }

  lemma RejectedFs(s0: State, v: Val, s: State, from: nat, vk: nat)
    requires Sim(s0, v, s) && !CanCreateFs(s0, v, from, vk).1
    ensures Sim(s0, CanCreateFs(s0, v, from, vk).0, s)
  {
    RoleLoadKeepsSim(s0, v, s, from);
  }

  lemma RejectedBucket(s0: State, v: Val, s: State, from: nat, bucket: nat, chunks: nat)
    requires Sim(s0, v, s) && !CanCreateBucket(s0, v, from, bucket, chunks).1
    ensures Sim(s0, CanCreateBucket(s0, v, from, bucket, chunks).0, s)
  {
    UserLoadKeepsSim(s0, v, s, from);
  }

  lemma RejectedMeta(s0: State, v: Val, s: State, from: nat, bucket: nat)
    requires Sim(s0, v, s) && !CanAddMeta(s0, v, from, bucket).1
    ensures Sim(s0, CanAddMeta(s0, v, from, bucket).0, s)
  {
    UserLoadKeepsSim(s0, v, s, from);
  }

  lemma RejectedCommit(s0: State, v: Val, s: State, from: nat, user: nat, pro: nat, nonce: nat, seqNum: nat)
    requires Sim(s0, v, s) && !CanCommit(s0, v, from, user, pro, nonce, seqNum).1
    ensures Sim(s0, CanCommit(s0, v, from, user, pro, nonce, seqNum).0, s)
  {
    OrderLoadKeepsSim(s0, v, s, Pair(user, pro));
  }

  lemma RejectedSub(s0: State, v: Val, s: State, from: nat, user: nat, pro: nat, nonce: nat)
    requires Sim(s0, v, s) && !CanSub(s0, v, from, user, pro, nonce).1
    ensures Sim(s0, CanSub(s0, v, from, user, pro, nonce).0, s)
  {
    OrderLoadKeepsSim(s0, v, s, Pair(user, pro));
  }

  lemma RejectedSequence(c: Crypto, s0: State, v: Val, s: State, from: nat, q: SignedSeq)
    requires Sim(s0, v, s) && !CanAddSeq(c, s0, v, from, q).1
    ensures Sim(s0, CanAddSeq(c, s0, v, from, q).0, s)
  {
    var w := CanAddSeq(c, s0, v, from, q).0;
    RejectedSeqEffect(c, s0, v, from, q, w);
    RejectedSeqKeepsSim(s0, v, s, q, w);
  }

  lemma RejectedProof(c: Crypto, s0: State, v: Val, s: State, from: nat, p: SegProof)
    requires Sim(s0, v, s) && !CanProve(c, s0, v, from, p).1
    ensures Sim(s0, CanProve(c, s0, v, from, p).0, s)
  {
    OrderLoadKeepsSim(s0, v, s, Pair(p.user, p.pro));
  }

  lemma RejectedConfirm(c: Crypto, s0: State, v: Val, s: State, from: nat, epoch: nat, income: AccIncome,
                        sig: Signature)
    requires Sim(s0, v, s) && !CanConfirm(c, s0, v, from, epoch, income, sig).1
    ensures Sim(s0, CanConfirm(c, s0, v, from, epoch, income, sig).0, s)
  {
    RoleLoadKeepsSim(s0, v, s, from);
  }

  lemma RejectedOrderKeepsSim(c: Crypto, s0: State, v: Val, s: State, from: nat, o: SignedOrder)
    requires Sim(s0, v, s) && !CanCreateOrder(c, s0, v, from, o).1
    ensures Sim(s0, CanCreateOrder(c, s0, v, from, o).0, s)
  {
    var v1 := WithRole(s0, v, o.ob.user);
    var v2 := WithRole(s0, v1, o.ob.pro);
    RoleLoadKeepsSim(s0, v, s, o.ob.user);
    RoleLoadKeepsSim(s0, v1, s, o.ob.pro);
    OrderLoadKeepsSim(s0, v2, s, Pair(o.ob.user, o.ob.pro));
  }

  lemma RoleLoadKeepsSim(s0: State, v: Val, s: State, id: nat)
    requires Sim(s0, v, s)
    ensures Sim(s0, WithRole(s0, v, id), s)
  {
    WithRoleSame(s0, v, id);
    LoadsKeepSim(s0, v, s, WithRole(s0, v, id));
  }

  lemma OrderLoadKeepsSim(s0: State, v: Val, s: State, k: Pair)
    requires Sim(s0, v, s)
    ensures Sim(s0, WithOrder(s0, v, k), s)
  {
    WithOrderSame(s0, v, k);
    LoadsKeepSim(s0, v, s, WithOrder(s0, v, k));
  }

  lemma UserLoadKeepsSim(s0: State, v: Val, s: State, user: nat)
    requires Sim(s0, v, s)
    ensures VUser(s0.fs, v.users, user).Some? ==>
            Sim(s0, v.(users := v.users[user := VUser(s0.fs, v.users, user).value]), s)
  {
    if VUser(s0.fs, v.users, user).Some? {
      LoadUserSim(s0.fs, v.users, s.fs, user);
      LoadsKeepSim(s0, v, s, v.(users := v.users[user := VUser(s0.fs, v.users, user).value]));
    }
  }
}
