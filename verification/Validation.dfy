/** Message validation: the second copy of the transitions, which runs over scratch records and
    reads the store of the last applied block. */
module Validation {
  import opened Types
  import opened Chain
  import opened Cache

  /** The validate* fields of the state manager. */
  datatype Val = Val(
    version: nat, height: nat, slot: nat, root: nat,
    epoch: nat, current: ChalEpoch, previous: ChalEpoch,
    orders: map<Pair, OrderInfo>, users: map<nat, UserInfo>, roles: map<nat, RoleInfo>)

  function Reset(s: State): Val
  {
    Val(s.version, s.height, s.slot, s.root, s.ce.epoch, s.ce.current, s.ce.previous, map[], map[], map[])
  }

  function ValidateHeader(c: Crypto, s: State, v: Val, h: Header): Result<Val>
  {
    if h.prevId != s.blk || h.height != v.height || h.slot <= v.slot then Err
    else Ok(v.(height := v.height + 1, slot := h.slot, root := c.nextRoot(v.root, HeaderBlob(h))))
  }

  // ---- Scratch records: kept if present, else loaded ----

  function VRole(s: State, v: Val, id: nat): RoleInfo
  {
    Get(v.roles, id, LoadRole(s.roles, id))
  }

  function WithRole(s: State, v: Val, id: nat): Val
  {
    v.(roles := v.roles[id := VRole(s, v, id)])
  }

  function VOrder(s: State, v: Val, k: Pair): OrderInfo
  {
    Get(v.orders, k, LoadOrder(s.orders, s.pay, k))
  }

  function WithOrder(s: State, v: Val, k: Pair): Val
  {
    v.(orders := v.orders[k := VOrder(s, v, k)])
  }

  function VUser(fs: FsDb, users: map<nat, UserInfo>, user: nat): Option<UserInfo>
  {
    if user in users then Some(users[user]) else LoadUser(fs, user)
  }

  // ---- Roles, users, buckets ----

  function CanAddRole(s: State, v: Val, from: nat, role: RoleBase): (Val, bool)
  {
    if role.id != from || from in s.roles.base || VRole(s, v, from).base.Some? then (v, false)
    else (v.(roles := v.roles[from := VRole(s, v, from).(base := Some(role))]), true)
  }

  function CanCreateFs(s: State, v: Val, from: nat, verifyKey: nat): (Val, bool)
  {
    if from in v.users || from in s.fs.verifyKey then (v, false)
    else
      var w := WithRole(s, v, from);
      if !MayOwnFs(VRole(s, v, from).base, verifyKey) then (w, false)
      else (w.(users := w.users[from := UserInfo(verifyKey, 0, map[])]), true)
  }

  function CanCreateBucket(s: State, v: Val, from: nat, bucket: nat, chunks: nat): (Val, bool)
  {
    match VUser(s.fs, v.users, from)
    case None => (v, false)
    case Some(u) =>
      if u.next != bucket then (v.(users := v.users[from := u]), false)
      else (v.(users :=
               v.users[from := u.(buckets := u.buckets[bucket := NewBucket(chunks)], next := u.next + 1)]), true)
  }

  function CanAddMeta(s: State, v: Val, from: nat, bucket: nat): (Val, bool)
  {
    match VUser(s.fs, v.users, from)
    case None => (v, false)
    case Some(u) => (v.(users := v.users[from := u]), bucket < u.next)
  }

  // ---- Orders ----

  function CanCreateOrder(c: Crypto, s: State, v: Val, from: nat, o: SignedOrder): (Val, bool)
  {
    var k := Pair(o.ob.user, o.ob.pro);
    if !WellFormedOrder(from, o) then (v, false)
    else
      var v1 := WithRole(s, v, o.ob.user);
      if !Signed(c, VRole(s, v1, o.ob.user).base, OrderHash(o), o.usign) then (v1, false)
      else
        var v2 := WithRole(s, v1, o.ob.pro);
        if !Signed(c, VRole(s, v2, o.ob.pro).base, OrderHash(o), o.psign) then (v2, false)
        else
          var v3 := WithOrder(s, v2, k);
          var info := VOrder(s, v2, k);
          if !FitsPair(info, o) then (v3, false)
          else (v3.(orders := v3.orders[k := info.(base := Some(o), ns := info.ns.(seqNum := 0), fr := 0)]), true)
  }

  function CanAddChunk(fs: FsDb, users: map<nat, UserInfo>, user: nat, pro: nat, nonce: nat,
                       seg: AggSegs): (map<nat, UserInfo>, bool)
  {
    match VUser(fs, users, user)
    case None => (users, false)
    case Some(u) =>
      if u.next <= seg.bucket then (users[user := u], false)
      else
        var b := BucketOf(fs, user, u, seg.bucket);
        if seg.chunk >= |b.chunks| then (users[user := u.(buckets := u.buckets[seg.bucket := b])], false)
        else
          var bits := StripesOf(fs, user, seg.bucket, b, pro);
          var b1 := b.(stripes := b.stripes[pro := bits]);
          if bits !! Range(seg.start, seg.length) then
            var info := ExtendStripe(b.chunks[seg.chunk], pro, nonce, seg.start, seg.length);
            var b2 := Bucket(b.chunks[seg.chunk := Some(info)], b.stripes[pro := bits + Range(seg.start, seg.length)]);
            (users[user := u.(buckets := u.buckets[seg.bucket := b2])], true)
          else (users[user := u.(buckets := u.buckets[seg.bucket := b1])], false)
  }

  /** A refused segment leaves the marks of the earlier segments behind. */
  function CanAddChunks(fs: FsDb, users: map<nat, UserInfo>, user: nat, pro: nat, nonce: nat,
                        segs: seq<AggSegs>): (map<nat, UserInfo>, bool)
  {
    if segs == [] then (users, true)
    else
      var (users1, ok) := CanAddChunks(fs, users, user, pro, nonce, segs[..|segs| - 1]);
      if !ok then (users1, false) else CanAddChunk(fs, users1, user, pro, nonce, segs[|segs| - 1])
  }

  function CanAddSeq(c: Crypto, s: State, v: Val, from: nat, q: SignedSeq): (Val, bool)
  {
    var d := q.data;
    var k := Pair(d.user, d.pro);
    if from != d.user then (v, false)
    else
      var v1 := WithRole(s, v, d.user);
      if !Signed(c, VRole(s, v1, d.user).base, SeqDigest(d), q.userDataSig) then (v1, false)
      else
        var v2 := WithRole(s, v1, d.pro);
        if !Signed(c, VRole(s, v2, d.pro).base, SeqDigest(d), q.proDataSig) then (v2, false)
        else
          var v3 := WithOrder(s, v2, k);
          var info := VOrder(s, v2, k);
          if !SeqAcceptable(c, from, q, VRole(s, v2, d.user).base, VRole(s, v2, d.pro).base, info) then (v3, false)
          else
            var (users, ok) := CanAddChunks(s.fs, v3.users, d.user, d.pro, d.nonce, d.segments);
            var v4 := v3.(users := users);
            if !ok then (v4, false)
            else
              var next := info.(ns := info.ns.(seqNum := info.ns.seqNum + 1),
                                base := Some(NewBase(info.base.value, q)));
              (v4.(orders := v4.orders[k := next]), true)
  }

  function CanCommit(s: State, v: Val, from: nat, user: nat, pro: nat, nonce: nat, seqNum: nat): (Val, bool)
  {
    var k := Pair(user, pro);
    if from != user then (v, false)
    else
      var v1 := WithOrder(s, v, k);
      var info := VOrder(s, v, k);
      if nonce != info.ns.nonce || seqNum != info.ns.seqNum || info.base.None? || info.base.value.size == 0 then
        (v1, false)
      else
        var next := info.(ns := NonceSeq(info.ns.nonce + 1, 0, info.ns.subNonce), fr := 0, base := None);
        (v1.(orders := v1.orders[k := next]), true)
  }

  /** Reads the epoch of the applied state, not the scratch one. */
  function CanSub(s: State, v: Val, from: nat, user: nat, pro: nat, nonce: nat): (Val, bool)
  {
    var k := Pair(user, pro);
    if from != pro then (v, false)
    else
      var v1 := WithOrder(s, v, k);
      var info := VOrder(s, v, k);
      if nonce != info.ns.subNonce || nonce > info.ns.nonce || OrderKey(k, nonce) !in s.orders.base
         || s.orders.base[OrderKey(k, nonce)].order.ob.end > SlotTime(s.ce.previous.slot)
      then (v1, false)
      else (v1.(orders := v1.orders[k := info.(ns := info.ns.(subNonce := info.ns.subNonce + 1))]), true)
  }

  // ---- Challenges ----

  /** Requires the new block's slot to be far enough but records the last applied one. */
  function CanUpdateEpoch(c: Crypto, s: State, v: Val, p: EpochParams): (Val, bool)
  {
    var d := ChalDuration(v.version);
    if p.epoch != v.epoch || p.prev != v.current.seed || d.None? || v.slot - v.current.slot < d.value then (v, false)
    else (v.(epoch := v.epoch + 1, previous := v.current, current := ChalEpoch(p.epoch, s.slot, c.seedOf(p))), true)
  }

  /** Uses a user record of the applied state when there is no scratch one. */
  function CanProve(c: Crypto, s: State, v: Val, from: nat, p: SegProof): (Val, bool)
  {
    var k := Pair(p.user, p.pro);
    if from != p.pro || p.epoch != v.current.epoch then (v, false)
    else
      var v1 := WithOrder(s, v, k);
      var info := VOrder(s, v, k);
      var u := VUser(s.fs, v.users, p.user);
      var vk := if u.Some? then Some(u.value.verifyKey) else None;
      if ProvenPrice(c, s.orders, info, vk, v.current, v.previous, from, p, true).Err? then (v1, false)
      else (v1.(orders := v1.orders[k := info.(prove := p.epoch + 1)]), true)
  }

  /** Compares the announced income with a stored record by decoding the record over the snapshot,
      and checks the signer against an empty list. */
  function CanConfirm(c: Crypto, s: State, v: Val, from: nat, epoch: nat, income: AccIncome,
                      sig: Signature): (Val, bool)
  {
    var key := ProEpoch(income.pro, epoch);
    if epoch != v.previous.epoch then (v, false)
    else
      var v1 := WithRole(s, v, from);
      var role := VRole(s, v, from).base;
      if role.None? || role.value.typ != Keeper || key !in s.pay.proAt
         || !IncomeMatches(income, income.pro, s.pay.proAt[key]) || !Signed(c, role, IncomeDigest(income), sig)
      then (v1, false)
      else
        var known := if key in s.pay.confirm then s.pay.confirm[key].income
                     else AccIncome(income.pro, 0, s.pay.proAt[key].value, s.pay.proAt[key].penalty);
        (v1, IncomeMatches(income, known.pro, Income(known.value, known.penalty))
         && AddSigner(c, NewConfirmation(income).sig, from, sig).Ok?)
  }

  // ---- Messages ----

  function Can(c: Crypto, s: State, v: Val, from: nat, body: Payload): (Val, bool)
  {
    match body
    case AddRole(role) => CanAddRole(s, v, from, role)
    case CreateFs(vk) => CanCreateFs(s, v, from, vk)
    case CreateBucket(b, n) => CanCreateBucket(s, v, from, b, n)
    case PreDataOrder(o) => CanCreateOrder(c, s, v, from, o)
    case AddDataOrder(q) => CanAddSeq(c, s, v, from, q)
    case CommitDataOrder(u, p, n, q) => CanCommit(s, v, from, u, p, n, q)
    case SubDataOrder(u, p, n) => CanSub(s, v, from, u, p, n)
    case SegmentFault(f) => (v, FaultAcceptable(s.orders, v.previous.slot, v.current.slot, from, f))
    case UpdateChalEpoch(p) => CanUpdateEpoch(c, s, v, p)
    case SegmentProof(p) => CanProve(c, s, v, from, p)
    case ConfirmPostIncome(e, i, g) => CanConfirm(c, s, v, from, e, i, g)
    case UpdateNet(_) => (v, true)
    case AddMeta(b) => CanAddMeta(s, v, from, b)
    case Malformed(_) => (v, false)
  }

  /** The part of ValidateMsg before the method is looked at; None: the nonce is wrong. */
  function Admit(c: Crypto, s: State, v: Val, m: Message): Option<Val>
  {
    var r := VRole(s, v, m.from);
    if m.nonce != r.nonce then None
    else Some(v.(roles := v.roles[m.from := r.(nonce := r.nonce + 1)], root := c.nextRoot(v.root, ParamsBlob(m.body))))
  }

  function ValidateMsg(c: Crypto, s: State, v: Val, m: Message): (Val, bool)
  {
    match Admit(c, s, v, m)
    case None => (WithRole(s, v, m.from), false)
    case Some(w) => Can(c, s, w, m.from, m.body)
  }

  /** ValidateMsg as a function value, so that statements about lists of messages are not about its
      branches. */
  ghost function Judge(c: Crypto, s: State): (judge: (Val, Message) -> (Val, bool))
    ensures forall v, m {:trigger ValidateMsg(c, s, v, m)} :: judge(v, m) == ValidateMsg(c, s, v, m)
  {
    var rule := (v: Val, m: Message) => ValidateMsg(c, s, v, m);
    assert forall v, m {:trigger ValidateMsg(c, s, v, m)} :: rule(v, m) == ValidateMsg(c, s, v, m);
    var judge: (Val, Message) -> (Val, bool) :| forall v, m {:trigger ValidateMsg(c, s, v, m)} ::
      judge(v, m) == ValidateMsg(c, s, v, m);
    judge
  }

  /** Validate messages one after the other; the flags say which were rejected. */
  ghost function ValidateMsgs(c: Crypto, s: State, v: Val, msgs: seq<Message>): (r: (Val, seq<bool>))
    ensures |r.1| == |msgs|
  {
    if msgs == [] then (v, [])
    else
      var (v1, flags) := ValidateMsgs(c, s, v, msgs[..|msgs| - 1]);
      var (v2, ok) := Judge(c, s)(v1, msgs[|msgs| - 1]);
      (v2, flags + [!ok])
  }
}
