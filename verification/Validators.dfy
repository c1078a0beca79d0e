/** The validating half of the state manager: scratch records updated message by message over the
    state of the last applied block, proved against module Validation. */
module Validators {
  import opened Types
  import opened Chain
  import opened Cache
  import opened Manager
  import V = Validation

  class Validator {
    const mgr: StateMgr
    var scratch: V.Val

    constructor (mgr: StateMgr)
      ensures this.mgr == mgr && scratch == V.Reset(mgr.View())
    {
      this.mgr := mgr;
      scratch := V.Val(mgr.version, mgr.height, mgr.slot, mgr.root, mgr.ce.epoch, mgr.ce.current, mgr.ce.previous,
                       map[], map[], map[]);
    }

    method Reset()
      modifies this`scratch
      ensures scratch == V.Reset(mgr.View())
    {
      scratch := V.Val(mgr.version, mgr.height, mgr.slot, mgr.root, mgr.ce.epoch, mgr.ce.current, mgr.ce.previous,
                       map[], map[], map[]);
    }

    /** ValidateBlock with a block; without one it is Reset. */
    method ValidateBlock(h: Header) returns (ok: bool)
      modifies this`scratch
      ensures var r := V.ValidateHeader(mgr.crypto, mgr.View(), V.Reset(mgr.View()), h);
              ok == r.Ok? && scratch == if ok then r.value else V.Reset(mgr.View())
    {
      Reset();
      if h.prevId != mgr.blk || h.height != scratch.height || h.slot <= scratch.slot { return false; }
      scratch := scratch.(height := scratch.height + 1, slot := h.slot);
      scratch := scratch.(root := mgr.crypto.nextRoot(scratch.root, HeaderBlob(h)));
      return true;
    }

    // ---- Scratch loads ----

    method GetRole(id: nat) returns (role: RoleInfo)
      modifies this`scratch
      ensures role == V.VRole(mgr.View(), old(scratch), id) && scratch == V.WithRole(mgr.View(), old(scratch), id)
    {
      role := if id in scratch.roles then scratch.roles[id] else LoadRole(mgr.roles, id);
      scratch := scratch.(roles := scratch.roles[id := role]);
    }

    method GetOrder(k: Pair) returns (info: OrderInfo)
      modifies this`scratch
      ensures info == V.VOrder(mgr.View(), old(scratch), k) && scratch == V.WithOrder(mgr.View(), old(scratch), k)
    {
      info := if k in scratch.orders then scratch.orders[k] else LoadOrder(mgr.orders, mgr.pay, k);
      scratch := scratch.(orders := scratch.orders[k := info]);
    }

    // ---- Methods ----

    method CanAddRole(from: nat, role: RoleBase) returns (ok: bool)
      modifies this`scratch
      ensures (scratch, ok) == V.CanAddRole(mgr.View(), old(scratch), from, role)
    {
      if role.id != from || from in mgr.roles.base { return false; }
      var info := if from in scratch.roles then scratch.roles[from] else LoadRole(mgr.roles, from);
      if info.base.Some? { return false; }
      scratch := scratch.(roles := scratch.roles[from := info.(base := Some(role))]);
      return true;
    }

    method CanAddUser(from: nat, verifyKey: nat) returns (ok: bool)
      modifies this`scratch
      ensures (scratch, ok) == V.CanCreateFs(mgr.View(), old(scratch), from, verifyKey)
    {
      if from in scratch.users || from in mgr.fs.verifyKey { return false; }
      var role := GetRole(from);
      if !MayOwnFs(role.base, verifyKey) { return false; }
      scratch := scratch.(users := scratch.users[from := UserInfo(verifyKey, 0, map[])]);
      return true;
    }

    method CanAddBucket(from: nat, bucket: nat, chunks: nat) returns (ok: bool)
      modifies this`scratch
      ensures (scratch, ok) == V.CanCreateBucket(mgr.View(), old(scratch), from, bucket, chunks)
    {
      var u := V.VUser(mgr.fs, scratch.users, from);
      if u.None? { return false; }
      scratch := scratch.(users := scratch.users[from := u.value]);
      if u.value.next != bucket { return false; }
      var w := u.value.(buckets := u.value.buckets[bucket := NewBucket(chunks)], next := u.value.next + 1);
      scratch := scratch.(users := scratch.users[from := w]);
      assert scratch.users == old(scratch).users[from := w];
      return true;
    }

    method CanAddMeta(from: nat, bucket: nat) returns (ok: bool)
      modifies this`scratch
      ensures (scratch, ok) == V.CanAddMeta(mgr.View(), old(scratch), from, bucket)
    {
      var u := V.VUser(mgr.fs, scratch.users, from);
      if u.None? { return false; }
      scratch := scratch.(users := scratch.users[from := u.value]);
      return bucket < u.value.next;
    }

    method CanCreateOrder(from: nat, o: SignedOrder) returns (ok: bool)
      modifies this`scratch
      ensures (scratch, ok) == V.CanCreateOrder(mgr.crypto, mgr.View(), old(scratch), from, o)
    {
      if !WellFormedOrder(from, o) { return false; }
      var uri := GetRole(o.ob.user);
      if !Signed(mgr.crypto, uri.base, OrderHash(o), o.usign) { return false; }
      var pri := GetRole(o.ob.pro);
      if !Signed(mgr.crypto, pri.base, OrderHash(o), o.psign) { return false; }
      var k := Pair(o.ob.user, o.ob.pro);
      var info := GetOrder(k);
      if !FitsPair(info, o) { return false; }
      var next := info.(base := Some(o), ns := info.ns.(seqNum := 0), fr := 0);
      scratch := scratch.(orders := scratch.orders[k := next]);
      return true;
    }

    method CanAddChunk(user: nat, pro: nat, nonce: nat, seg: AggSegs) returns (ok: bool)
      modifies this`scratch
      ensures scratch == old(scratch).(users := scratch.users)
      ensures (scratch.users, ok) == V.CanAddChunk(mgr.fs, old(scratch).users, user, pro, nonce, seg)
    {
      var users := scratch.users;
      var u := V.VUser(mgr.fs, users, user);
      if u.None? { return false; }
      var w := u.value;
      if w.next <= seg.bucket {
        scratch := scratch.(users := users[user := w]);
        return false;
      }
      var b := BucketOf(mgr.fs, user, w, seg.bucket);
      if seg.chunk >= |b.chunks| {
        scratch := scratch.(users := users[user := w.(buckets := w.buckets[seg.bucket := b])]);
        return false;
      }
      var bits := StripesOf(mgr.fs, user, seg.bucket, b, pro);
      ok := NoneMarked(bits, seg.start, seg.length);
      if ok {
        var info := ExtendStripe(b.chunks[seg.chunk], pro, nonce, seg.start, seg.length);
        bits := Mark(bits, seg.start, seg.length);
        b := b.(chunks := b.chunks[seg.chunk := Some(info)]);
      }
      b := b.(stripes := b.stripes[pro := bits]);
      scratch := scratch.(users := users[user := w.(buckets := w.buckets[seg.bucket := b])]);
    }

    method CanAddChunks(user: nat, pro: nat, nonce: nat, segs: seq<AggSegs>) returns (ok: bool)
      modifies this`scratch
      ensures scratch == old(scratch).(users := scratch.users)
      ensures (scratch.users, ok) == V.CanAddChunks(mgr.fs, old(scratch).users, user, pro, nonce, segs)
    {
      for i := 0 to |segs|
        invariant scratch == old(scratch).(users := scratch.users)
        invariant V.CanAddChunks(mgr.fs, old(scratch).users, user, pro, nonce, segs[..i]) == (scratch.users, true)
      {
        assert segs[..i + 1][..i] == segs[..i];
        ok := CanAddChunk(user, pro, nonce, segs[i]);
        if !ok {
          ChunksStay(mgr.fs, old(scratch).users, user, pro, nonce, segs, i + 1);
          return false;
        }
      }
      assert segs[..|segs|] == segs;
      return true;
    }

    method CanAddSeq(from: nat, q: SignedSeq) returns (ok: bool)
      modifies this`scratch
      ensures (scratch, ok) == V.CanAddSeq(mgr.crypto, mgr.View(), old(scratch), from, q)
    {
      var d := q.data;
      if from != d.user { return false; }
      var uri := GetRole(d.user);
      if !Signed(mgr.crypto, uri.base, SeqDigest(d), q.userDataSig) { return false; }
      var pri := GetRole(d.pro);
      if !Signed(mgr.crypto, pri.base, SeqDigest(d), q.proDataSig) { return false; }
      var k := Pair(d.user, d.pro);
      var info := GetOrder(k);
      ok := SeqVerdict(mgr.crypto, from, q, uri.base, pri.base, info);
      if !ok { return false; }
      ok := CanAddChunks(d.user, d.pro, d.nonce, d.segments);
      if !ok { return false; }
      var next := info.(ns := info.ns.(seqNum := info.ns.seqNum + 1), base := Some(NewBase(info.base.value, q)));
      scratch := scratch.(orders := scratch.orders[k := next]);
    }

    method CanCommitOrder(from: nat, user: nat, pro: nat, nonce: nat, seqNum: nat) returns (ok: bool)
      modifies this`scratch
      ensures (scratch, ok) == V.CanCommit(mgr.View(), old(scratch), from, user, pro, nonce, seqNum)
    {
      if from != user { return false; }
      var k := Pair(user, pro);
      var info := GetOrder(k);
      if nonce != info.ns.nonce || seqNum != info.ns.seqNum || info.base.None? || info.base.value.size == 0 {
        return false;
      }
      var next := info.(ns := NonceSeq(info.ns.nonce + 1, 0, info.ns.subNonce), fr := 0, base := None);
      scratch := scratch.(orders := scratch.orders[k := next]);
      return true;
    }

    method CanSubOrder(from: nat, user: nat, pro: nat, nonce: nat) returns (ok: bool)
      modifies this`scratch
      ensures (scratch, ok) == V.CanSub(mgr.View(), old(scratch), from, user, pro, nonce)
    {
      if from != pro { return false; }
      var k := Pair(user, pro);
      var info := GetOrder(k);
      if nonce != info.ns.subNonce || nonce > info.ns.nonce || OrderKey(k, nonce) !in mgr.orders.base { return false; }
      if mgr.orders.base[OrderKey(k, nonce)].order.ob.end > SlotTime(mgr.ce.previous.slot) { return false; }
      var next := info.(ns := info.ns.(subNonce := info.ns.subNonce + 1));
      scratch := scratch.(orders := scratch.orders[k := next]);
      return true;
    }

    method CanRemoveSeg(from: nat, f: SegRemove) returns (ok: bool)
      ensures ok == FaultAcceptable(mgr.orders, scratch.previous.slot, scratch.current.slot, from, f)
    {
      var key, sk := OrderKey(Pair(f.user, f.pro), f.nonce), SeqKey(Pair(f.user, f.pro), f.nonce, f.seqNum);
      if from != f.pro || key !in mgr.orders.base || sk !in mgr.orders.seqs { return false; }
      var b := mgr.orders.base[key].order.ob;
      if SlotTime(scratch.previous.slot) > b.end || SlotTime(scratch.current.slot) < b.start { return false; }
      ok := CheckHeld(mgr.orders.seqs[sk].data.segments, f.segments);
    }

    method CanUpdateChalEpoch(p: EpochParams) returns (ok: bool)
      modifies this`scratch
      ensures (scratch, ok) == V.CanUpdateEpoch(mgr.crypto, mgr.View(), old(scratch), p)
    {
      if p.epoch != scratch.epoch || p.prev != scratch.current.seed { return false; }
      var d := ChalDuration(scratch.version);
      if d.None? || scratch.slot - scratch.current.slot < d.value { return false; }
      scratch := scratch.(epoch := scratch.epoch + 1, previous := scratch.current);
      scratch := scratch.(current := ChalEpoch(p.epoch, mgr.slot, mgr.crypto.seedOf(p)));
      return true;
    }

    method CanAddSegProof(from: nat, p: SegProof) returns (ok: bool)
      modifies this`scratch
      ensures (scratch, ok) == V.CanProve(mgr.crypto, mgr.View(), old(scratch), from, p)
    {
      if from != p.pro || p.epoch != scratch.current.epoch { return false; }
      var k := Pair(p.user, p.pro);
      var info := GetOrder(k);
      var u := V.VUser(mgr.fs, scratch.users, p.user);
      var vk := if u.Some? then Some(u.value.verifyKey) else None;
      var r := CheckProof(mgr.crypto, mgr.orders, info, vk, scratch.current, scratch.previous, from, p, true);
      if r.Err? { return false; }
      scratch := scratch.(orders := scratch.orders[k := info.(prove := p.epoch + 1)]);
      return true;
    }

    method CanAddPay(from: nat, epoch: nat, income: AccIncome, sig: Signature) returns (ok: bool)
      modifies this`scratch
      ensures (scratch, ok) == V.CanConfirm(mgr.crypto, mgr.View(), old(scratch), from, epoch, income, sig)
    {
      if epoch != scratch.previous.epoch { return false; }
      var role := GetRole(from);
      var key := ProEpoch(income.pro, epoch);
      if role.base.None? || role.base.value.typ != Keeper || key !in mgr.pay.proAt { return false; }
      var spi := AccIncome(income.pro, 0, mgr.pay.proAt[key].value, mgr.pay.proAt[key].penalty);
      if spi.value != income.value || spi.penalty != income.penalty { return false; }
      if !Signed(mgr.crypto, role.base, IncomeDigest(income), sig) { return false; }
      if key in mgr.pay.confirm { spi := mgr.pay.confirm[key].income; }
      if income.pro != spi.pro || income.value != spi.value || income.penalty != spi.penalty { return false; }
      var ms := AddSignature(mgr.crypto, NewConfirmation(income).sig, from, sig);
      return ms.Ok?;
    }

    method Dispatch(from: nat, body: Payload) returns (ok: bool)
      modifies this`scratch
      ensures (scratch, ok) == V.Can(mgr.crypto, mgr.View(), old(scratch), from, body)
    {
      match body
      case AddRole(role) => ok := CanAddRole(from, role);
      case CreateFs(vk) => ok := CanAddUser(from, vk);
      case CreateBucket(b, n) => ok := CanAddBucket(from, b, n);
      case PreDataOrder(o) => ok := CanCreateOrder(from, o);
      case AddDataOrder(q) => ok := CanAddSeq(from, q);
      case CommitDataOrder(u, p, n, q) => ok := CanCommitOrder(from, u, p, n, q);
      case SubDataOrder(u, p, n) => ok := CanSubOrder(from, u, p, n);
      case SegmentFault(f) => ok := CanRemoveSeg(from, f);
      case UpdateChalEpoch(p) => ok := CanUpdateChalEpoch(p);
      case SegmentProof(p) => ok := CanAddSegProof(from, p);
      case ConfirmPostIncome(e, i, g) => ok := CanAddPay(from, e, i, g);
      case UpdateNet(_) => ok := true;
      case AddMeta(b) => ok := CanAddMeta(from, b);
      case Malformed(_) => ok := false;
    }

    /** Count the message; a role the applied state has cached is copied, any other is loaded. */
    method AdmitMessage(m: Message) returns (ok: bool)
      requires mgr.Valid()
      modifies this`scratch
      ensures var r := V.Admit(mgr.crypto, mgr.View(), old(scratch), m);
              ok == r.Some? && scratch == if ok then r.value else V.WithRole(mgr.View(), old(scratch), m.from)
    {
      var role: RoleInfo;
      if m.from in scratch.roles {
        role := scratch.roles[m.from];
      } else if m.from in mgr.rInfo {
        role := mgr.rInfo[m.from];
      } else {
        role := LoadRole(mgr.roles, m.from);
      }
      if m.nonce != role.nonce {
        scratch := scratch.(roles := scratch.roles[m.from := role]);
        return false;
      }
      scratch := scratch.(roles := scratch.roles[m.from := role.(nonce := role.nonce + 1)]);
      scratch := scratch.(root := mgr.crypto.nextRoot(scratch.root, ParamsBlob(m.body)));
      return true;
    }

    method ValidateMessage(m: Message) returns (ok: bool)
      requires mgr.Valid()
      modifies this`scratch
      ensures (scratch, ok) == V.ValidateMsg(mgr.crypto, mgr.View(), old(scratch), m)
    {
      ok := AdmitMessage(m);
      if ok {
        ok := Dispatch(m.from, m.body);
      }
    }
  }

  lemma {:induction false} ChunksStay(fs: FsDb, users: map<nat, UserInfo>, user: nat, pro: nat, nonce: nat,
                                      segs: seq<AggSegs>, i: nat)
    requires i <= |segs| && !V.CanAddChunks(fs, users, user, pro, nonce, segs[..i]).1
    ensures V.CanAddChunks(fs, users, user, pro, nonce, segs) == V.CanAddChunks(fs, users, user, pro, nonce, segs[..i])
  {
    if i == |segs| {
      assert segs[..i] == segs;
    } else {
      assert segs[..|segs| - 1][..i] == segs[..i];
      ChunksStay(fs, users, user, pro, nonce, segs[..|segs| - 1], i);
    }
  }
}
