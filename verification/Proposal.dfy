/** Block proposal: the leader builds a block over the validation state, the followers replay it. */
module Proposal {
  import opened Types
  import opened Chain
  import opened Cache
  import opened Validation
  import opened Invariants
  import opened BlockAgreement
  import M = Manager
  import W = Validators

  /** tx.MsgSet */
  datatype MsgSet = MsgSet(msgs: seq<Message>, receipts: seq<bool>, parentRoot: nat, root: nat)

  /** What Propose hands to the consensus: receipts and root are those of validation, and the nonces
      of every sender run on from the state nonce without a gap. */
  ghost predicate Proposed(c: Crypto, s: State, h: Header, ms: MsgSet)
  {
    && ValidateHeader(c, s, Reset(s), h).Ok?
    && ms.parentRoot == s.root
    && Replay(c, s, h, ms.msgs).1 == ms.receipts
    && Replay(c, s, h, ms.msgs).0.root == ms.root
    && Gapless(s.roles, ms.msgs)
  }

  ghost predicate MessagesSigned(signed: Message -> bool, msgs: seq<Message>)
  {
    forall m | m in msgs :: signed(m)
  }

  /** What OnPropose demands; `signed` is the verdict of RoleVerify on a message. */
  ghost predicate Accepts(c: Crypto, s: State, raw: RawBlock, signed: Message -> bool)
    requires |raw.msgs| <= |raw.receipts|
  {
    && ValidateHeader(c, s, Reset(s), raw.header).Ok?
    && raw.parentRoot == s.root
    && MessagesSigned(signed, raw.msgs)
    && Replay(c, s, raw.header, raw.msgs).1 == raw.receipts[..|raw.msgs|]
    && Replay(c, s, raw.header, raw.msgs).0.root == raw.root
  }

  // ---- Theorems ----

  /** Validation does not see the remembered dates, the only trace of cache history. */
  lemma ValidateIgnoresDates(c: Crypto, s: State, d: map<Pair, Dates>, v: Val, m: Message)
    ensures ValidateMsg(c, s.(dates := d), v, m) == ValidateMsg(c, s, v, m)
  {
    var t := s.(dates := d);
    assert Admit(c, t, v, m) == Admit(c, s, v, m);
    match Admit(c, s, v, m)
    case None =>
    case Some(w) => CanIgnoresDates(c, s, t, w, m.from, m.body);
  }

  lemma CanIgnoresDates(c: Crypto, s: State, t: State, v: Val, from: nat, body: Payload)
    requires t == s.(dates := t.dates)
    ensures Can(c, t, v, from, body) == Can(c, s, v, from, body)
  {
    match body
    case PreDataOrder(o) => CanCreateOrderIgnoresDates(c, s, t, v, from, o);
    case CommitDataOrder(u, p, n, q) => CanCommitIgnoresDates(s, t, v, from, u, p, n, q);
    case SubDataOrder(u, p, n) => CanSubIgnoresDates(s, t, v, from, u, p, n);
    case AddDataOrder(q) => CanAddSeqIgnoresDates(c, s, t, v, from, q);
    case SegmentProof(p) => CanProveIgnoresDates(c, s, t, v, from, p);
    case ConfirmPostIncome(e, i, g) => CanConfirmIgnoresDates(c, s, t, v, from, e, i, g);
    case _ =>
  }

  lemma CanCreateOrderIgnoresDates(c: Crypto, s: State, t: State, v: Val, from: nat, o: SignedOrder)
    requires t == s.(dates := t.dates)
    ensures CanCreateOrder(c, t, v, from, o) == CanCreateOrder(c, s, v, from, o)
  {
  }

  lemma CanCommitIgnoresDates(s: State, t: State, v: Val, from: nat, user: nat, pro: nat, nonce: nat, seqNum: nat)
    requires t == s.(dates := t.dates)
    ensures CanCommit(t, v, from, user, pro, nonce, seqNum) == CanCommit(s, v, from, user, pro, nonce, seqNum)
  {
  }

  lemma CanSubIgnoresDates(s: State, t: State, v: Val, from: nat, user: nat, pro: nat, nonce: nat)
    requires t == s.(dates := t.dates)
    ensures CanSub(t, v, from, user, pro, nonce) == CanSub(s, v, from, user, pro, nonce)
  {
  }

  lemma CanAddSeqIgnoresDates(c: Crypto, s: State, t: State, v: Val, from: nat, q: SignedSeq)
    requires t == s.(dates := t.dates)
    ensures CanAddSeq(c, t, v, from, q) == CanAddSeq(c, s, v, from, q)
  {
  }

  lemma CanProveIgnoresDates(c: Crypto, s: State, t: State, v: Val, from: nat, p: SegProof)
    requires t == s.(dates := t.dates)
    ensures CanProve(c, t, v, from, p) == CanProve(c, s, v, from, p)
  {
  }

  lemma CanConfirmIgnoresDates(c: Crypto, s: State, t: State, v: Val, from: nat, epoch: nat, income: AccIncome,
                               sig: Signature)
    requires t == s.(dates := t.dates)
    ensures CanConfirm(c, t, v, from, epoch, income, sig) == CanConfirm(c, s, v, from, epoch, income, sig)
  {
  }

  lemma {:induction false} ValidateAllIgnoresDates(c: Crypto, s: State, d: map<Pair, Dates>, v: Val, msgs: seq<Message>)
    ensures ValidateMsgs(c, s.(dates := d), v, msgs) == ValidateMsgs(c, s, v, msgs)
  {
    if msgs != [] {
      ValidateAllIgnoresDates(c, s, d, v, msgs[..|msgs| - 1]);
      ValidateIgnoresDates(c, s, d, ValidateMsgs(c, s, v, msgs[..|msgs| - 1]).0, msgs[|msgs| - 1]);
    }
  }

  /** The scratch records and verdicts after a header and a list of messages. */
  ghost function Replay(c: Crypto, s: State, h: Header, msgs: seq<Message>): (Val, seq<bool>)
    requires ValidateHeader(c, s, Reset(s), h).Ok?
  {
    ValidateMsgs(c, s, ValidateHeader(c, s, Reset(s), h).value, msgs)
  }

  lemma ReplayIgnoresDates(c: Crypto, s: State, t: State, h: Header, msgs: seq<Message>)
    requires t == s.(dates := t.dates) && ValidateHeader(c, s, Reset(s), h).Ok?
    ensures ValidateHeader(c, t, Reset(t), h).Ok? && Replay(c, t, h, msgs) == Replay(c, s, h, msgs)
  {
    ValidateAllIgnoresDates(c, s, t.dates, ValidateHeader(c, s, Reset(s), h).value, msgs);
  }

  lemma MatchingReplayAccepts(c: Crypto, s: State, raw: RawBlock, signed: Message -> bool)
    requires |raw.msgs| == |raw.receipts| && raw.parentRoot == s.root && MessagesSigned(signed, raw.msgs)
    requires ValidateHeader(c, s, Reset(s), raw.header).Ok?
    requires Replay(c, s, raw.header, raw.msgs).1 == raw.receipts
    requires Replay(c, s, raw.header, raw.msgs).0.root == raw.root
    ensures Accepts(c, s, raw, signed)
  {
    assert raw.receipts[..|raw.msgs|] == raw.receipts;
  }

  /** A proposed block is accepted by every node with the same committed state, whatever its caches. */
  lemma ProposalAccepted(c: Crypto, leader: State, follower: State, raw: RawBlock, signed: Message -> bool)
    requires Proposed(c, leader, raw.header, MsgSet(raw.msgs, raw.receipts, raw.parentRoot, raw.root))
    requires follower == leader.(dates := follower.dates)
    requires MessagesSigned(signed, raw.msgs)
    ensures |raw.msgs| <= |raw.receipts| && Accepts(c, follower, raw, signed)
  {
    ReplayIgnoresDates(c, leader, follower, raw.header, raw.msgs);
    MatchingReplayAccepts(c, follower, raw, signed);
  }

  // ---- No accepted second CreateFs ----

  lemma {:induction false} ScratchUsersGrow(fs: FsDb, users: map<nat, UserInfo>, user: nat, pro: nat, nonce: nat,
                                            segs: seq<AggSegs>)
    ensures users.Keys <= CanAddChunks(fs, users, user, pro, nonce, segs).0.Keys
  {
    if segs != [] { ScratchUsersGrow(fs, users, user, pro, nonce, segs[..|segs| - 1]); }
  }

  /** Validation only ever adds scratch users, and an accepted CreateFs is of a user known neither to
      the state nor to the scratch records, which it adds. */
  lemma CanKeepsUsers(c: Crypto, s: State, v: Val, from: nat, body: Payload)
    ensures v.users.Keys <= Can(c, s, v, from, body).0.users.Keys
    ensures body.CreateFs? && Can(c, s, v, from, body).1 ==>
              from !in s.fs.verifyKey && from !in v.users && from in Can(c, s, v, from, body).0.users
  {
    match body
    case AddDataOrder(q) => CanAddSeqKeepsUsers(c, s, v, from, q);
    case _ =>
  }

  lemma CanAddSeqKeepsUsers(c: Crypto, s: State, v: Val, from: nat, q: SignedSeq)
    ensures v.users.Keys <= CanAddSeq(c, s, v, from, q).0.users.Keys
  {
    ScratchUsersGrow(s.fs, v.users, q.data.user, q.data.pro, q.data.nonce, q.data.segments);
  }

  lemma ValidateKeepsUsers(c: Crypto, s: State, v: Val, m: Message)
    ensures var (w, ok) := ValidateMsg(c, s, v, m);
            && v.users.Keys <= w.users.Keys
            && (m.body.CreateFs? && ok ==> m.from !in s.fs.verifyKey && m.from !in v.users && m.from in w.users)
  {
    match Admit(c, s, v, m)
    case None =>
    case Some(w) => CanKeepsUsers(c, s, w, m.from, m.body);
  }

  lemma ChunksKeepKeys(fs: FsDb, user: nat, pro: nat, nonce: nat, segs: seq<AggSegs>, fs': FsDb)
    requires ApplyAddChunks(fs, user, pro, nonce, segs) == Ok(fs')
    ensures fs'.verifyKey == fs.verifyKey
  {
    if segs != [] {
      ChunksKeepKeys(fs, user, pro, nonce, segs[..|segs| - 1],
                     ApplyAddChunks(fs, user, pro, nonce, segs[..|segs| - 1]).value);
    }
  }

  /** Only CreateFs registers a file system. */
  lemma StepKeys(c: Crypto, s: State, from: nat, body: Payload, t: State)
    requires Step(c, s, from, body) == Ok(t)
    ensures t.fs.verifyKey.Keys <= s.fs.verifyKey.Keys + (if body.CreateFs? then {from} else {})
  {
    match body
    case AddDataOrder(q) => ChunksKeepKeys(s.fs, q.data.user, q.data.pro, q.data.nonce, q.data.segments, t.fs);
    case _ =>
  }

  /** Every user of the state being built is known to the committed state or to the scratch records. */
  lemma {:induction false} UsersKnown(c: Crypto, s0: State, v: Val, s: State, msgs: seq<Message>, receipts: seq<bool>)
    requires s.fs.verifyKey.Keys <= s0.fs.verifyKey.Keys + v.users.Keys
    requires |msgs| <= |receipts| && receipts[..|msgs|] == ValidateMsgs(c, s0, v, msgs).1
    ensures ApplyMsgs(c, s, msgs, receipts).Ok? ==>
              ApplyMsgs(c, s, msgs, receipts).value.fs.verifyKey.Keys <= s0.fs.verifyKey.Keys
                + ValidateMsgs(c, s0, v, msgs).0.users.Keys
  {
    if msgs != [] {
      var n := |msgs| - 1;
      var w := ValidateMsgs(c, s0, v, msgs[..n]).0;
      FlagAt(c, s0, v, msgs, n);
      assert receipts[..n] == receipts[..|msgs|][..n];
      UsersKnown(c, s0, v, s, msgs[..n], receipts);
      var before := ApplyMsgs(c, s, msgs[..n], receipts);
      if before.Ok? { UserKnown(c, s0, w, before.value, msgs[n], receipts[n]); }
    }
  }

  lemma UserKnown(c: Crypto, s0: State, v: Val, s: State, m: Message, rejected: bool)
    requires s.fs.verifyKey.Keys <= s0.fs.verifyKey.Keys + v.users.Keys && rejected == !ValidateMsg(c, s0, v, m).1
    ensures ApplyMsg(c, s, m, rejected).Ok? ==>
              ApplyMsg(c, s, m, rejected).value.fs.verifyKey.Keys <= s0.fs.verifyKey.Keys
                + ValidateMsg(c, s0, v, m).0.users.Keys
  {
    ValidateKeepsUsers(c, s0, v, m);
    if ApplyMsg(c, s, m, rejected).Ok? && !rejected {
      StepKeys(c, Charge(c, s, m), m.from, m.body, ApplyMsg(c, s, m, rejected).value);
    }
  }

  /** Validation never accepts a second CreateFs: whatever the messages are, an accepted CreateFs meets
      a state without that user when its turn comes. */
  lemma ValidatedFirstFs(c: Crypto, s0: State, v: Val, s: State, msgs: seq<Message>, receipts: seq<bool>)
    requires s.fs.verifyKey.Keys <= s0.fs.verifyKey.Keys + v.users.Keys
    requires |msgs| <= |receipts| && receipts[..|msgs|] == ValidateMsgs(c, s0, v, msgs).1
    ensures FirstFsOnly(c, s, msgs, receipts)
  {
    forall i | 0 <= i < |msgs| && ApplyMsgs(c, s, msgs[..i], receipts).Ok?
      ensures FirstFs(ApplyMsgs(c, s, msgs[..i], receipts).value, msgs[i], receipts[i])
    {
      FlagAt(c, s0, v, msgs, i);
      assert receipts[..i] == receipts[..|msgs|][..i] && receipts[i] == receipts[..|msgs|][i];
      UsersKnown(c, s0, v, s, msgs[..i], receipts);
      ValidateKeepsUsers(c, s0, ValidateMsgs(c, s0, v, msgs[..i]).0, msgs[i]);
    }
  }

  /** So a block with the receipts validation gives, in particular every block that OnPropose accepts,
      is one the state manager applies in place exactly as the store-only transition does. */
  lemma AcceptedFirstFs(c: Crypto, s: State, raw: RawBlock, signed: Message -> bool)
    requires |raw.msgs| <= |raw.receipts| && Accepts(c, s, raw, signed)
    ensures FirstFsOnly(c, Opened(c, s, raw.header), raw.msgs, raw.receipts)
  {
    ValidatedFirstFs(c, s, ValidateHeader(c, s, Reset(s), raw.header).value, Opened(c, s, raw.header), raw.msgs,
                     raw.receipts);
  }

  /** Receipt i is the verdict of validation after the messages before. */
  ghost predicate ReceiptRight(c: Crypto, s: State, v: Val, raw: RawBlock, i: nat)
    requires i < |raw.msgs| <= |raw.receipts|
  {
    raw.receipts[i] == !ValidateMsg(c, s, ValidateMsgs(c, s, v, raw.msgs[..i]).0, raw.msgs[i]).1
  }

  lemma ReceiptsRight(c: Crypto, s: State, v: Val, raw: RawBlock)
    requires |raw.msgs| <= |raw.receipts|
    ensures ValidateMsgs(c, s, v, raw.msgs).1 == raw.receipts[..|raw.msgs|] <==>
              forall i | 0 <= i < |raw.msgs| :: ReceiptRight(c, s, v, raw, i)
  {
    var flags := ValidateMsgs(c, s, v, raw.msgs).1;
    forall i | 0 <= i < |raw.msgs| ensures flags[i] == raw.receipts[i] <==> ReceiptRight(c, s, v, raw, i) {
      FlagAt(c, s, v, raw.msgs, i);
    }
  }

  /** What a follower has made sure of when it accepts a block, message by message. */
  lemma AcceptedMessages(c: Crypto, s: State, raw: RawBlock, signed: Message -> bool)
    requires |raw.msgs| <= |raw.receipts|
    ensures var v := Reset(s).(height := s.height + 1, slot := raw.header.slot,
                               root := c.nextRoot(s.root, HeaderBlob(raw.header)));
            Accepts(c, s, raw, signed) <==>
              && raw.header.height == s.height && raw.header.slot > s.slot && raw.header.prevId == s.blk
              && raw.parentRoot == s.root && (forall m | m in raw.msgs :: signed(m))
              && (forall i | 0 <= i < |raw.msgs| :: ReceiptRight(c, s, v, raw, i))
              && ValidateMsgs(c, s, v, raw.msgs).0.root == raw.root
  {
    ReceiptsRight(c, s, Reset(s).(height := s.height + 1, slot := raw.header.slot,
                                  root := c.nextRoot(s.root, HeaderBlob(raw.header))), raw);
  }

  /** Applying a list checks that each sender's nonces follow on. */
  lemma {:induction false} AppliedGapless(c: Crypto, s: State, msgs: seq<Message>, receipts: seq<bool>)
    requires |msgs| <= |receipts| && ApplyMsgs(c, s, msgs, receipts).Ok?
    ensures Gapless(s.roles, msgs)
  {
    if msgs != [] {
      var n := |msgs| - 1;
      var t := ApplyMsgs(c, s, msgs[..n], receipts).value;
      AppliedGapless(c, s, msgs[..n], receipts);
      NoncesAdvance(c, s, msgs[..n], receipts, t, msgs[n].from);
      GaplessAppend(s.roles, msgs[..n], msgs[n]);
      assert msgs == msgs[..n] + [msgs[n]];
    }
  }

  /** What a follower's acceptance is worth: an accepted block is applied if and only if its nonces
      follow on, it has the signers (block zero: registers keepers only) and every accepted message is
      ripe in its turn, none of which OnPropose looks at. Messages in scope always are. */
  lemma AcceptedApplies(c: Crypto, s: State, b: Block, signed: Message -> bool)
    requires Reachable(c, s) && |b.raw.msgs| <= |b.raw.receipts| && Accepts(c, s, b.raw, signed)
    ensures ApplyBlock(c, s, b).Ok? <==>
              && Gapless(s.roles, b.raw.msgs)
              && (if b.raw.header.height > 0 then EnoughSigners(s, b.signers) else KeepersOnly(b.raw.msgs))
              && RipeInTurn(c, Opened(c, s, b.raw.header), b.raw.msgs, b.raw.receipts)
    ensures AcceptsInScope(b.raw.msgs, b.raw.receipts) && Gapless(s.roles, b.raw.msgs)
            && (if b.raw.header.height > 0 then EnoughSigners(s, b.signers) else KeepersOnly(b.raw.msgs)) ==>
            ApplyBlock(c, s, b).Ok?
  {
    if ApplyBlock(c, s, b).Ok? {
      AppliedGapless(c, Opened(c, s, b.raw.header), b.raw.msgs, b.raw.receipts);
      assert forall i | 0 <= i < |b.raw.msgs| ::
               InTurn(Opened(c, s, b.raw.header).roles, b.raw.msgs, i) ==> InTurn(s.roles, b.raw.msgs, i);
    }
    if Gapless(s.roles, b.raw.msgs)
      && (if b.raw.header.height > 0 then EnoughSigners(s, b.signers) else KeepersOnly(b.raw.msgs)) {
      ValidatedBlockApplies(c, s, b);
    }
  }

  /** The failing input: a block of one message with a stale nonce, marked rejected. Validation leaves
      the root alone, so every follower accepts the block, and none can apply it. */
  lemma StaleMessageAccepted(c: Crypto, s: State, h: Header, m: Message, signers: seq<nat>)
    requires Fits(s, h) && m.nonce != NonceOf(s.roles, m.from)
    ensures var raw := RawBlock(h, [m], [true], s.root, c.nextRoot(s.root, HeaderBlob(h)));
            Accepts(c, s, raw, _ => true) && ApplyBlock(c, s, Block(raw, signers)).Err?
  {
    var raw := RawBlock(h, [m], [true], s.root, c.nextRoot(s.root, HeaderBlob(h)));
    var v := ValidateHeader(c, s, Reset(s), h).value;
    assert [m][..0] == [];
    assert ValidateMsgs(c, s, v, []) == (v, []);
    assert ValidateMsg(c, s, v, m) == (WithRole(s, v, m.from), false);
    assert ValidateMsgs(c, s, v, [m]) == (WithRole(s, v, m.from), [] + [true]);
    assert raw.receipts[..1] == [true];
    assert ApplyMsgs(c, Opened(c, s, h), [], [true]) == Ok(Opened(c, s, h));
  }

  /** End to end: in every reachable state, a proposed block that is signed by enough keepers is applied
      by the state manager, and ends at the proposed root, if and only if every accepted message is ripe
      in its turn, as messages in scope are. */
  lemma ProposalApplies(c: Crypto, s: State, b: Block)
    requires Reachable(c, s) && if b.raw.header.height > 0 then EnoughSigners(s, b.signers) else KeepersOnly(b.raw.msgs)
    requires Proposed(c, s, b.raw.header, MsgSet(b.raw.msgs, b.raw.receipts, b.raw.parentRoot, b.raw.root))
    ensures ApplyBlock(c, s, b).Ok? <==> RipeInTurn(c, Opened(c, s, b.raw.header), b.raw.msgs, b.raw.receipts)
    ensures AcceptsInScope(b.raw.msgs, b.raw.receipts) ==> ApplyBlock(c, s, b).Ok?
    ensures FirstFsOnly(c, Opened(c, s, b.raw.header), b.raw.msgs, b.raw.receipts)
  {
    assert b.raw.receipts[..|b.raw.msgs|] == b.raw.receipts;
    ValidatedBlockApplies(c, s, b);
    MatchingReplayAccepts(c, s, b.raw, _ => true);
    AcceptedFirstFs(c, s, b.raw, _ => true);
  }

  // ---- The pool ----

  /** msgSet: pending messages of one sender by nonce. */
  datatype Queue = Queue(nextDelete: nat, info: map<nat, Message>)

  lemma SentByAppend(msgs: seq<Message>, m: Message, id: nat)
    ensures SentBy(msgs + [m], id) == SentBy(msgs, id) + (if m.from == id then 1 else 0)
  {
    assert (msgs + [m])[..|msgs|] == msgs;
  }

  lemma GaplessAppend(r: RoleDb, msgs: seq<Message>, m: Message)
    requires Gapless(r, msgs) && m.nonce == NonceOf(r, m.from) + SentBy(msgs, m.from)
    ensures Gapless(r, msgs + [m])
  {
    var all := msgs + [m];
    forall i | 0 <= i < |all| ensures InTurn(r, all, i) {
      if i < |msgs| {
        assert InTurn(r, msgs, i);
        assert all[..i] == msgs[..i];
      } else {
        assert all[..i] == msgs;
      }
    }
  }

  lemma ReplayAppend(c: Crypto, s: State, h: Header, msgs: seq<Message>, m: Message)
    requires ValidateHeader(c, s, Reset(s), h).Ok?
    ensures var (v, flags) := Replay(c, s, h, msgs);
            Replay(c, s, h, msgs + [m]) == (ValidateMsg(c, s, v, m).0, flags + [!ValidateMsg(c, s, v, m).1])
  {
    assert (msgs + [m])[..|msgs|] == msgs;
  }

  /** Appending the sender's next message, with the verdict of validation, keeps a proposal. */
  lemma ProposedAppend(c: Crypto, s: State, h: Header, ms: MsgSet, m: Message, w: Val, ok: bool)
    requires Proposed(c, s, h, ms) && m.nonce == NonceOf(s.roles, m.from) + SentBy(ms.msgs, m.from)
    requires ValidateMsg(c, s, Replay(c, s, h, ms.msgs).0, m) == (w, ok)
    ensures Proposed(c, s, h, MsgSet(ms.msgs + [m], ms.receipts + [!ok], ms.parentRoot, w.root))
    ensures Replay(c, s, h, ms.msgs + [m]).0 == w
    ensures forall f :: SentBy(ms.msgs + [m], f) == SentBy(ms.msgs, f) + (if m.from == f then 1 else 0)
  {
    ReplayAppend(c, s, h, ms.msgs, m);
    GaplessAppend(s.roles, ms.msgs, m);
    forall f ensures SentBy(ms.msgs + [m], f) == SentBy(ms.msgs, f) + (if m.from == f then 1 else 0) {
      SentByAppend(ms.msgs, m, f);
    }
  }

  ghost function AtLeast(q: map<nat, Message>, i: nat): set<nat>
  {
    set n | n in q && n >= i
  }

  lemma AtLeastShrinks(q: map<nat, Message>, i: nat)
    requires i in q
    ensures |AtLeast(q, i + 1)| < |AtLeast(q, i)|
  {
    assert AtLeast(q, i) == AtLeast(q, i + 1) + {i};
  }

  /** Only role messages, all of senders that the role service knows as keepers. */
  ghost predicate KeeperRoles(msgs: seq<Message>, keeper: nat -> bool)
  {
    forall m | m in msgs :: m.body.AddRole? && keeper(m.from)
  }

  lemma KeeperRolesAppend(msgs: seq<Message>, m: Message, keeper: nat -> bool)
    requires KeeperRoles(msgs, keeper) && m.body.AddRole? && keeper(m.from)
    ensures KeeperRoles(msgs + [m], keeper)
  {
  }

  /** How many messages were not rejected. */
  function Accepted(receipts: seq<bool>): nat
  {
    if receipts == [] then 0 else Accepted(receipts[..|receipts| - 1]) + if receipts[|receipts| - 1] then 0 else 1
  }

  /** The nonce after the last one a list holds of a sender. */
  ghost function AfterLast(msgs: seq<Message>, from: nat, default: nat): nat
  {
    if msgs == [] then default
    else if msgs[|msgs| - 1].from == from then msgs[|msgs| - 1].nonce + 1
    else AfterLast(msgs[..|msgs| - 1], from, default)
  }

  ghost function NoncesOf(msgs: seq<Message>, from: nat): set<nat>
  {
    set m | m in msgs && m.from == from :: m.nonce
  }

  /** A sender's queue once the messages of a block are done. */
  ghost function Dequeued(q: Queue, from: nat, msgs: seq<Message>): Queue
  {
    Queue(AfterLast(msgs, from, q.nextDelete), q.info - NoncesOf(msgs, from))
  }

  lemma OneMoreDone(q: Queue, from: nat, msgs: seq<Message>, m: Message)
    ensures Dequeued(q, from, msgs + [m]) ==
      if m.from == from then Queue(m.nonce + 1, Dequeued(q, from, msgs).info - {m.nonce}) else Dequeued(q, from, msgs)
  {
    assert (msgs + [m])[..|msgs|] == msgs;
    assert NoncesOf(msgs + [m], from) == NoncesOf(msgs, from) + if m.from == from then {m.nonce} else {};
    assert q.info - NoncesOf(msgs, from) - {m.nonce} == q.info - (NoncesOf(msgs, from) + {m.nonce});
  }

  /** Messages of one sender taken so far: its queue's run up to nonce i, on top of `ms`. */
  ghost predicate Took(roles: RoleDb, info: map<nat, Message>, ms: MsgSet, out: MsgSet, from: nat, i: nat)
  {
    && i == NonceOf(roles, from) + SentBy(out.msgs, from)
    && (forall f | f != from :: SentBy(out.msgs, f) == SentBy(ms.msgs, f))
    && (forall m | m in out.msgs :: m in ms.msgs || (m.nonce in info && info[m.nonce] == m))
  }

  lemma TookNext(roles: RoleDb, info: map<nat, Message>, ms: MsgSet, soFar: MsgSet, out: MsgSet, from: nat, i: nat)
    requires Took(roles, info, ms, soFar, from, i) && i in info && info[i].from == from && info[i].nonce == i
    requires out.msgs == soFar.msgs + [info[i]]
    requires forall f :: SentBy(out.msgs, f) == SentBy(soFar.msgs, f) + (if info[i].from == f then 1 else 0)
    ensures Took(roles, info, ms, out, from, i + 1)
  {
  }

  /** The size limit of a proposal, in bytes. */
  const LIMIT: nat := 1_000_000

  /** The sender's pending run has been taken whole, or its next message does not fit any more. */
  predicate Exhausted(roles: RoleDb, info: map<nat, Message>, msgs: seq<Message>, from: nat, used: nat,
                      sizeOf: Message -> nat)
  {
    var next := NonceOf(roles, from) + SentBy(msgs, from);
    next !in info || used + sizeOf(info[next]) > LIMIT
  }

  /** The same for block zero: nothing is left but what is not a known keeper's registration. */
  predicate NoMoreKeepers(roles: RoleDb, info: map<nat, Message>, msgs: seq<Message>, from: nat, keeper: nat -> bool)
  {
    var next := NonceOf(roles, from) + SentBy(msgs, from);
    next !in info || !info[next].body.AddRole? || !keeper(from)
  }

  /** Bytes that messages count for, signatures and error texts not included. */
  function Weight(sizeOf: Message -> nat, msgs: seq<Message>): nat
  {
    if msgs == [] then 0 else Weight(sizeOf, msgs[..|msgs| - 1]) + sizeOf(msgs[|msgs| - 1]) + 128
  }

  lemma WeightAppend(sizeOf: Message -> nat, msgs: seq<Message>, m: Message)
    ensures Weight(sizeOf, msgs + [m]) == Weight(sizeOf, msgs) + sizeOf(m) + 128
  {
    assert (msgs + [m])[..|msgs|] == msgs;
  }

  /** `used` counts at least the messages taken, none of which went over the limit. */
  predicate Counted(sizeOf: Message -> nat, msgs: seq<Message>, used: nat)
  {
    Weight(sizeOf, msgs) <= used && Weight(sizeOf, msgs) <= LIMIT + 128 && (msgs == [] ==> used == 0)
  }

  /** Messages come from the queues of their senders. */
  ghost predicate FromQueues(pending: map<nat, Queue>, msgs: seq<Message>)
  {
    forall m | m in msgs :: m.from in pending && m.nonce in pending[m.from].info && pending[m.from].info[m.nonce] == m
  }

  /** The first thing the sender wants is to register itself, and it is a known keeper not registered yet. */
  ghost predicate Registers(pending: map<nat, Queue>, s: State, keeper: nat -> bool, f: nat)
  {
    && f in pending && keeper(f) && f !in s.roles.base
    && NonceOf(s.roles, f) in pending[f].info
    && var m := pending[f].info[NonceOf(s.roles, f)];
    && m.from == f && m.nonce == NonceOf(s.roles, f) && m.body.AddRole? && m.body.role.id == f
  }

  /** As many senders as a quorum takes do. */
  ghost predicate EnoughRegister(pending: map<nat, Queue>, s: State, keeper: nat -> bool)
  {
    |set f | f in pending && Registers(pending, s, keeper, f)| >= Threshold(s)
  }

  lemma {:induction false} FirstOfSender(r: RoleDb, msgs: seq<Message>, f: nat) returns (i: nat)
    requires Gapless(r, msgs) && SentBy(msgs, f) > 0
    ensures i < |msgs| && msgs[i].from == f && SentBy(msgs[..i], f) == 0 && msgs[i].nonce == NonceOf(r, f)
  {
    var n := |msgs| - 1;
    if SentBy(msgs[..n], f) > 0 {
      GaplessPrefix(r, msgs, n);
      i := FirstOfSender(r, msgs[..n], f);
      assert msgs[..n][..i] == msgs[..i];
    } else {
      i := n;
      assert InTurn(r, msgs, n);
    }
  }

  /** Registrations of others leave a role alone. */
  lemma {:induction false} OthersRegister(c: Crypto, s: State, v: Val, msgs: seq<Message>, f: nat)
    requires SentBy(msgs, f) == 0 && forall m | m in msgs :: m.body.AddRole?
    ensures VRole(s, ValidateMsgs(c, s, v, msgs).0, f) == VRole(s, v, f)
  {
    if msgs != [] {
      var n := |msgs| - 1;
      OthersRegister(c, s, v, msgs[..n], f);
      OtherRegisters(c, s, ValidateMsgs(c, s, v, msgs[..n]).0, msgs[n], f);
    }
  }

  lemma OtherRegisters(c: Crypto, s: State, v: Val, m: Message, f: nat)
    requires m.from != f && m.body.AddRole?
    ensures VRole(s, ValidateMsg(c, s, v, m).0, f) == VRole(s, v, f)
  {
  }

  /** The first message of a sender that registers itself is accepted. */
  lemma RegistrationAccepted(c: Crypto, s: State, v: Val, msgs: seq<Message>, i: nat, f: nat)
    requires v.roles == map[] && f !in s.roles.base && (forall m | m in msgs :: m.body.AddRole?)
    requires i < |msgs| && msgs[i].from == f && SentBy(msgs[..i], f) == 0 && msgs[i].nonce == NonceOf(s.roles, f)
    requires msgs[i].body.role.id == f
    ensures !ValidateMsgs(c, s, v, msgs).1[i]
  {
    FlagAt(c, s, v, msgs, i);
    OthersRegister(c, s, v, msgs[..i], f);
  }

  /** Each of some senders has an accepted message of its own. */
  ghost predicate HasAccepted(msgs: seq<Message>, receipts: seq<bool>, f: nat)
    requires |msgs| == |receipts|
  {
    exists i :: 0 <= i < |msgs| && msgs[i].from == f && !receipts[i]
  }

  lemma {:induction false} AtLeastSoMany(msgs: seq<Message>, receipts: seq<bool>, senders: set<nat>)
    requires |msgs| == |receipts| && forall f | f in senders :: HasAccepted(msgs, receipts, f)
    ensures Accepted(receipts) >= |senders|
  {
    if msgs != [] {
      var n := |msgs| - 1;
      var rest := if receipts[n] then senders else senders - {msgs[n].from};
      forall f | f in rest ensures HasAccepted(msgs[..n], receipts[..n], f) {
        var i :| 0 <= i < |msgs| && msgs[i].from == f && !receipts[i];
        assert msgs[..n][i] == msgs[i] && receipts[..n][i] == receipts[i];
      }
      AtLeastSoMany(msgs[..n], receipts[..n], rest);
    } else {
      assert forall f :: !HasAccepted(msgs, receipts, f);
      assert senders == {};
    }
  }

  /** Enough pending registrations make a block zero. */
  lemma KeepersSuffice(c: Crypto, s: State, h: Header, ms: MsgSet, pending: map<nat, Queue>, keeper: nat -> bool)
    requires Proposed(c, s, h, ms) && KeeperRoles(ms.msgs, keeper) && FromQueues(pending, ms.msgs)
    requires forall f | f in pending :: NoMoreKeepers(s.roles, pending[f].info, ms.msgs, f, keeper)
    ensures EnoughRegister(pending, s, keeper) ==> Accepted(ms.receipts) >= Threshold(s)
  {
    var senders := set f | f in pending && Registers(pending, s, keeper, f);
    forall f | f in senders ensures HasAccepted(ms.msgs, ms.receipts, f) {
      assert NoMoreKeepers(s.roles, pending[f].info, ms.msgs, f, keeper);
      var i := FirstOfSender(s.roles, ms.msgs, f);
      assert ms.msgs[i] in ms.msgs;
      RegistrationAccepted(c, s, ValidateHeader(c, s, Reset(s), h).value, ms.msgs, i, f);
    }
    AtLeastSoMany(ms.msgs, ms.receipts, senders);
  }

  /** Every sender but those still to come is exhausted. */
  ghost predicate AllExhausted(roles: RoleDb, pending: map<nat, Queue>, todo: set<nat>, msgs: seq<Message>, used: nat,
                               sizeOf: Message -> nat)
  {
    forall f | f in pending && f !in todo :: Exhausted(roles, pending[f].info, msgs, f, used, sizeOf)
  }

  ghost predicate AllKeepersIn(roles: RoleDb, pending: map<nat, Queue>, todo: set<nat>, msgs: seq<Message>,
                               keeper: nat -> bool)
  {
    forall f | f in pending && f !in todo :: NoMoreKeepers(roles, pending[f].info, msgs, f, keeper)
  }

  lemma OneMoreExhausted(roles: RoleDb, pending: map<nat, Queue>, todo: set<nat>, before: seq<Message>,
                         after: seq<Message>, room: nat, used: nat, sizeOf: Message -> nat, from: nat)
    requires AllExhausted(roles, pending, todo, before, room, sizeOf) && room <= used && from in pending
    requires forall f | f != from :: SentBy(after, f) == SentBy(before, f)
    requires Exhausted(roles, pending[from].info, after, from, used, sizeOf)
    ensures AllExhausted(roles, pending, todo - {from}, after, used, sizeOf)
  {
    forall f | f in pending && f !in todo - {from} ensures Exhausted(roles, pending[f].info, after, f, used, sizeOf) {
      if f != from { assert Exhausted(roles, pending[f].info, before, f, room, sizeOf); }
    }
  }

  lemma OneMoreKeeper(roles: RoleDb, pending: map<nat, Queue>, todo: set<nat>, before: seq<Message>,
                      after: seq<Message>, keeper: nat -> bool, from: nat)
    requires AllKeepersIn(roles, pending, todo, before, keeper) && from in pending
    requires forall f | f != from :: SentBy(after, f) == SentBy(before, f)
    requires NoMoreKeepers(roles, pending[from].info, after, from, keeper)
    ensures AllKeepersIn(roles, pending, todo - {from}, after, keeper)
  {
    forall f | f in pending && f !in todo - {from} ensures NoMoreKeepers(roles, pending[f].info, after, f, keeper) {
      if f != from { assert NoMoreKeepers(roles, pending[f].info, before, f, keeper); }
    }
  }

  lemma OneMoreSender(pending: map<nat, Queue>, before: seq<Message>, after: seq<Message>, from: nat)
    requires FromQueues(pending, before) && from in pending
    requires forall n | n in pending[from].info :: pending[from].info[n].from == from
    requires forall m | m in after :: m in before || (m.nonce in pending[from].info && pending[from].info[m.nonce] == m)
    ensures FromQueues(pending, after)
  {
    forall m | m in after
      ensures m.from in pending && m.nonce in pending[m.from].info && pending[m.from].info[m.nonce] == m
    {
    }
  }

  /** The time is up at some look at the clock. */
  ghost predicate TimeUp(clock: nat -> bool)
  {
    exists k :: clock(k)
  }

  lemma Looked(clock: nat -> bool, k: nat)
    requires clock(k)
    ensures TimeUp(clock)
  {
  }

  /** The run of one sender taken so far, with the bytes used, as a fact that is looked into only where it
      is asked for. */
  ghost predicate Taking(roles: RoleDb, info: map<nat, Message>, ms: MsgSet, out: MsgSet, from: nat, i: nat, room: nat,
                         used: nat, sizeOf: Message -> nat)
  {
    forall n {:trigger Asked(n)} :: Asked(n) ==>
      Took(roles, info, ms, out, from, i) && room <= used && Counted(sizeOf, out.msgs, used)
  }

  lemma RunTaken(roles: RoleDb, info: map<nat, Message>, ms: MsgSet, out: MsgSet, from: nat, i: nat, room: nat,
                 used: nat, sizeOf: Message -> nat)
    requires Taking(roles, info, ms, out, from, i, room, used, sizeOf)
    ensures Took(roles, info, ms, out, from, NonceOf(roles, from) + SentBy(out.msgs, from))
    ensures room <= used && Counted(sizeOf, out.msgs, used)
    ensures i !in info || used + sizeOf(info[i]) > LIMIT ==> Exhausted(roles, info, out.msgs, from, used, sizeOf)
  {
    assert Asked(0);
  }

  class InPool {
    const mgr: M.StateMgr
    const val: W.Validator
    var pending: map<nat, Queue>

    /** Pool and validator work on the same, coherent state. */
    ghost predicate Linked()
      reads mgr
    {
      val.mgr == mgr && mgr.Valid()
    }

    /** Every message is filed under its sender and nonce. */
    ghost predicate Valid()
      reads this, mgr
    {
      && Linked()
      && forall f, n | f in pending && n in pending[f].info ::
           pending[f].info[n].from == f && pending[f].info[n].nonce == n
    }

    constructor (mgr: M.StateMgr, val: W.Validator)
      requires val.mgr == mgr && mgr.Valid()
      ensures Valid() && this.mgr == mgr && this.val == val
    {
      this.mgr := mgr;
      this.val := val;
      pending := map[];
    }

    /** process, on a message from the push pool: nonces already passed are dropped. */
    method AddMessage(m: Message)
      requires Valid()
      modifies this`pending
      ensures Valid()
      ensures var q := Get(old(pending), m.from, Queue(NonceOf(mgr.roles, m.from), map[]));
              pending == old(pending)[m.from := if q.nextDelete <= m.nonce then q.(info := q.info[m.nonce := m]) else q]
    {
      var q := Queue(0, map[]);
      if m.from in pending {
        q := pending[m.from];
      } else {
        var n := StateNonce(m.from);
        q := Queue(n, map[]);
      }
      if q.nextDelete <= m.nonce {
        q := q.(info := q.info[m.nonce := m]);
      }
      pending := pending[m.from := q];
    }

    /** process, on an applied block: each queue loses exactly the nonces the block holds of its sender,
        and waits from the one after the last of them. */
    method BlockDone(msgs: seq<Message>)
      requires Valid()
      modifies this`pending
      ensures Valid() && pending.Keys == old(pending).Keys
      ensures forall f | f in pending :: pending[f] == Dequeued(old(pending)[f], f, msgs)
    {
      for i := 0 to |msgs|
        invariant Valid() && pending.Keys == old(pending).Keys
        invariant forall f | f in pending :: pending[f] == Dequeued(old(pending)[f], f, msgs[..i])
      {
        var m := msgs[i];
        ghost var before := pending;
        if m.from in pending {
          pending := pending[m.from := Queue(m.nonce + 1, pending[m.from].info - {m.nonce})];
        }
        forall f | f in pending ensures pending[f] == Dequeued(old(pending)[f], f, msgs[..i + 1]) {
          OneMoreDone(old(pending)[f], f, msgs[..i], m);
          assert msgs[..i + 1] == msgs[..i] + [m];
        }
      }
      assert msgs[..|msgs|] == msgs;
    }

    /** Validate a sender's next message and append it with its receipt. */
    method Append(h: Header, ms: MsgSet, m: Message) returns (out: MsgSet)
      requires Linked() && Building(h, ms)
      requires m.nonce == NonceOf(mgr.roles, m.from) + SentBy(ms.msgs, m.from)
      modifies val`scratch
      ensures Linked() && Building(h, out) && out.msgs == ms.msgs + [m]
      ensures forall f :: SentBy(out.msgs, f) == SentBy(ms.msgs, f) + (if m.from == f then 1 else 0)
    {
      ghost var s := mgr.View();
      var ok := val.ValidateMessage(m);
      out := MsgSet(ms.msgs + [m], ms.receipts + [!ok], ms.parentRoot, val.scratch.root);
      ProposedAppend(mgr.crypto, s, h, ms, m, val.scratch, ok);
    }

    /** Take the pending run of one sender, as far as it fits. The wall clock is looked at after each
        message, and may stop it there (`late`); `clock` tells at which looks the time is up, `tick`
        counts them and `room` is the size used so far. */
    method TakeFrom(from: nat, h: Header, ms: MsgSet, room: nat, sizeOf: Message -> nat, clock: nat -> bool, tick: nat)
        returns (out: MsgSet, used: nat, late: bool, look: nat)
      requires Valid() && from in pending && SentBy(ms.msgs, from) == 0
      requires Built(h, ms) && Counted(sizeOf, ms.msgs, room)
      modifies val`scratch
      ensures Valid() && Built(h, out)
      ensures forall f | f != from :: SentBy(out.msgs, f) == SentBy(ms.msgs, f)
      ensures forall m | m in out.msgs ::
                m in ms.msgs || (m.nonce in pending[from].info && pending[from].info[m.nonce] == m)
      ensures room <= used && Counted(sizeOf, out.msgs, used)
      ensures late || Exhausted(mgr.roles, pending[from].info, out.msgs, from, used, sizeOf)
      ensures late ==> out.msgs != [] && TimeUp(clock)
    {
      var i := StateNonce(from);
      out, used, late, look := TakeRun(from, h, mgr.roles, pending[from].info, ms, i, room, sizeOf, clock, tick);
    }

    /** The loop over one sender's nonces, starting at the one the state expects. */
    method TakeRun(from: nat, h: Header, ghost roles: RoleDb, info: map<nat, Message>, ms: MsgSet, first: nat,
                   room: nat, sizeOf: Message -> nat, clock: nat -> bool, tick: nat)
      returns (out: MsgSet, used: nat, late: bool, look: nat)
      requires Linked() && roles == mgr.roles && Built(h, ms) && Took(roles, info, ms, ms, from, first)
      requires forall n | n in info :: info[n].from == from && info[n].nonce == n
      requires Counted(sizeOf, ms.msgs, room)
      modifies val`scratch
      ensures Linked() && Built(h, out)
      ensures Took(roles, info, ms, out, from, NonceOf(roles, from) + SentBy(out.msgs, from))
      ensures room <= used && Counted(sizeOf, out.msgs, used)
      ensures late || Exhausted(roles, info, out.msgs, from, used, sizeOf)
      ensures late ==> out.msgs != [] && TimeUp(clock)
    {
      out, used, late, look := ms, room, false, tick;
      var i := first;
      while i in info && used + sizeOf(info[i]) <= LIMIT
        invariant Linked() && Built(h, out) && Taking(roles, info, ms, out, from, i, room, used, sizeOf) && !late
        decreases |AtLeast(info, i)|
      {
        out, used := TakeNextFitting(from, h, roles, info, ms, out, i, room, used, sizeOf);
        i := i + 1;
        late, look := clock(look), look + 1;
        if late {
          Looked(clock, look - 1);
          break;
        }
      }
      RunTaken(roles, info, ms, out, from, i, room, used, sizeOf);
    }

    /** One more message that fits, with its signature and, if it is refused, an error text. */
    method TakeNextFitting(from: nat, h: Header, ghost roles: RoleDb, info: map<nat, Message>, ghost ms: MsgSet,
                           soFar: MsgSet, i: nat, ghost room: nat, soMuch: nat, sizeOf: Message -> nat)
      returns (out: MsgSet, used: nat)
      requires Linked() && roles == mgr.roles && i in info && info[i].from == from && info[i].nonce == i
      requires Built(h, soFar) && Taking(roles, info, ms, soFar, from, i, room, soMuch, sizeOf)
      requires soMuch + sizeOf(info[i]) <= LIMIT
      modifies val`scratch
      ensures Linked() && Built(h, out) && Taking(roles, info, ms, out, from, i + 1, room, used, sizeOf)
      ensures out.msgs != [] && |AtLeast(info, i + 1)| < |AtLeast(info, i)|
    {
      assert Asked(0);
      WeightAppend(sizeOf, soFar.msgs, info[i]);
      out := TakeNext(from, h, roles, info, ms, soFar, i);
      AtLeastShrinks(info, i);
      var extra: nat :| true;
      used := soMuch + sizeOf(info[i]) + 128 + extra;
    }

    /** The nonce of a sender in the committed state, from its cached record if there is one. */
    method StateNonce(from: nat) returns (n: nat)
      requires mgr.Valid()
      ensures n == NonceOf(mgr.roles, from)
    {
      n := if from in mgr.rInfo then mgr.rInfo[from].nonce else NonceOf(mgr.roles, from);
    }

    /** A proposal is under way and the validator has replayed it. */
    ghost predicate Building(h: Header, ms: MsgSet)
      reads mgr, val
    {
      Proposed(mgr.crypto, mgr.View(), h, ms) && val.scratch == Replay(mgr.crypto, mgr.View(), h, ms.msgs).0
    }

    /** The same, as a fact that is looked into only where it is asked for. */
    ghost predicate Built(h: Header, ms: MsgSet)
      reads mgr, val
    {
      forall n {:trigger Asked(n)} :: Asked(n) ==> Building(h, ms)
    }

    method TakeNext(from: nat, h: Header, ghost roles: RoleDb, info: map<nat, Message>, ghost ms: MsgSet,
                    soFar: MsgSet, i: nat)
      returns (out: MsgSet)
      requires Linked() && roles == mgr.roles && i in info && info[i].from == from && info[i].nonce == i
      requires Built(h, soFar) && Took(roles, info, ms, soFar, from, i)
      modifies val`scratch
      ensures Linked() && Built(h, out) && Took(roles, info, ms, out, from, i + 1) && out.msgs == soFar.msgs + [info[i]]
    {
      assert Asked(0);
      out := Append(h, soFar, info[i]);
      TookNext(roles, info, ms, soFar, out, from, i);
    }

    /** Block zero takes only role messages, of senders whose registered role is keeper. */
    method TakeKeepers(from: nat, h: Header, ms: MsgSet, keeper: nat -> bool) returns (out: MsgSet)
      requires Valid() && from in pending && SentBy(ms.msgs, from) == 0
      requires Built(h, ms) && KeeperRoles(ms.msgs, keeper)
      modifies val`scratch
      ensures Valid() && Built(h, out) && KeeperRoles(out.msgs, keeper)
      ensures forall f | f != from :: SentBy(out.msgs, f) == SentBy(ms.msgs, f)
      ensures forall m | m in out.msgs ::
                m in ms.msgs || (m.nonce in pending[from].info && pending[from].info[m.nonce] == m)
      ensures NoMoreKeepers(mgr.roles, pending[from].info, out.msgs, from, keeper)
    {
      var i := StateNonce(from);
      out := TakeKeeperRun(from, h, mgr.roles, pending[from].info, ms, i, keeper);
    }

    method TakeKeeperRun(from: nat, h: Header, ghost roles: RoleDb, info: map<nat, Message>, ms: MsgSet, first: nat,
                         keeper: nat -> bool)
      returns (out: MsgSet)
      requires Linked() && roles == mgr.roles && Built(h, ms)
      requires Took(roles, info, ms, ms, from, first) && KeeperRoles(ms.msgs, keeper)
      requires forall n | n in info :: info[n].from == from && info[n].nonce == n
      modifies val`scratch
      ensures Linked() && Built(h, out)
      ensures Took(roles, info, ms, out, from, NonceOf(roles, from) + SentBy(out.msgs, from))
      ensures KeeperRoles(out.msgs, keeper) && NoMoreKeepers(roles, info, out.msgs, from, keeper)
    {
      out := ms;
      var i := first;
      while i in info && info[i].body.AddRole? && keeper(from)
        invariant Linked() && Built(h, out) && Took(roles, info, ms, out, from, i) && KeeperRoles(out.msgs, keeper)
        decreases |AtLeast(info, i)|
      {
        out := TakeNextKeeper(from, h, roles, info, ms, out, i, keeper);
        i := i + 1;
      }
    }

    method TakeNextKeeper(from: nat, h: Header, ghost roles: RoleDb, info: map<nat, Message>, ghost ms: MsgSet,
                          soFar: MsgSet, i: nat, ghost keeper: nat -> bool)
      returns (out: MsgSet)
      requires Linked() && roles == mgr.roles && i in info && info[i].from == from && info[i].nonce == i
      requires Built(h, soFar) && Took(roles, info, ms, soFar, from, i)
      requires KeeperRoles(soFar.msgs, keeper) && info[i].body.AddRole? && keeper(from)
      modifies val`scratch
      ensures Linked() && Built(h, out) && Took(roles, info, ms, out, from, i + 1) && KeeperRoles(out.msgs, keeper)
      ensures |AtLeast(info, i + 1)| < |AtLeast(info, i)|
    {
      out := TakeNext(from, h, roles, info, ms, soFar, i);
      KeeperRolesAppend(soFar.msgs, info[i], keeper);
      AtLeastShrinks(info, i);
    }

    /** Propose: senders in any order, each with its pending run; for block zero the keepers'
        registrations, which must be enough for a quorum. Unless the clock stops it (`late`) every
        pending sender's run is taken whole, up to a message that no longer fits (`used` bytes are
        taken). `clock` tells at which looks at it the time is up. */
    method Propose(h: Header, sizeOf: Message -> nat, keeper: nat -> bool, clock: nat -> bool)
        returns (r: Result<MsgSet>, ghost used: nat, ghost late: bool)
      requires Valid()
      modifies val`scratch
      ensures Valid() && (r.Ok? ==> Proposed(mgr.crypto, mgr.View(), h, r.value) && FromQueues(pending, r.value.msgs))
      ensures h.height > 0 ==> (r.Err? <==> !Fits(mgr.View(), h))
      ensures h.height > 0 && r.Ok? ==> Counted(sizeOf, r.value.msgs, used) && (late ==> TimeUp(clock))
      ensures h.height > 0 && r.Ok? && !late ==>
                forall f | f in pending :: Exhausted(mgr.roles, pending[f].info, r.value.msgs, f, used, sizeOf)
      ensures h.height > 0 && r.Ok? && !late && r.value.msgs == [] ==>
                forall f | f in pending && NonceOf(mgr.roles, f) in pending[f].info ::
                  sizeOf(pending[f].info[NonceOf(mgr.roles, f)]) > LIMIT
      ensures h.height == 0 && r.Ok? ==>
                KeeperRoles(r.value.msgs, keeper) && Accepted(r.value.receipts) >= Threshold(mgr.View())
      ensures h.height == 0 && r.Ok? ==>
                forall f | f in pending :: NoMoreKeepers(mgr.roles, pending[f].info, r.value.msgs, f, keeper)
      ensures h.height == 0 && Fits(mgr.View(), h) && EnoughRegister(pending, mgr.View(), keeper) ==> r.Ok?
    {
      used, late := 0, false;
      val.Reset();
      var parent := val.scratch.root;
      var ok := val.ValidateBlock(h);
      if !ok { return Err, used, late; }
      var ms := MsgSet([], [], parent, val.scratch.root);
      assert Built(h, ms);
      if h.height == 0 {
        ms := AllKeepers(h, ms, keeper);
        assert Asked(0);
        var thr := QuorumSize();
        KeepersSuffice(mgr.crypto, mgr.View(), h, ms, pending, keeper);
        return if Accepted(ms.receipts) < thr then Err else Ok(ms), used, late;
      }
      ms, used, late := AllSenders(h, ms, sizeOf, clock);
      assert Asked(0);
      return Ok(ms), used, late;
    }

    method QuorumSize() returns (thr: nat)
      ensures thr == Threshold(mgr.View())
    {
      thr := 2 * (|mgr.roles.keepers| + 1) / 3;
      if thr <= mgr.threshold { thr := mgr.threshold; }
    }

    method AllSenders(h: Header, start: MsgSet, sizeOf: Message -> nat, clock: nat -> bool)
        returns (ms: MsgSet, used: nat, late: bool)
      requires Valid() && Built(h, start) && start.msgs == []
      modifies val`scratch
      ensures Valid() && Built(h, ms) && FromQueues(pending, ms.msgs) && Counted(sizeOf, ms.msgs, used)
      ensures late || AllExhausted(mgr.roles, pending, {}, ms.msgs, used, sizeOf)
      ensures late ==> TimeUp(clock)
    {
      ms, used, late := start, 0, false;
      var look := 0;
      var todo := pending.Keys;
      while todo != {}
        invariant Valid() && todo <= pending.Keys && !late
        invariant Built(h, ms) && FromQueues(pending, ms.msgs) && Counted(sizeOf, ms.msgs, used)
        invariant forall f | f in todo :: SentBy(ms.msgs, f) == 0
        invariant AllExhausted(mgr.roles, pending, todo, ms.msgs, used, sizeOf)
        decreases |todo|
      {
        var from :| from in todo;
        ghost var before, room := ms.msgs, used;
        ms, used, late, look := TakeFrom(from, h, ms, used, sizeOf, clock, look);
        OneMoreSender(pending, before, ms.msgs, from);
        if !late { OneMoreExhausted(mgr.roles, pending, todo, before, ms.msgs, room, used, sizeOf, from); }
        todo := todo - {from};
        if clock(look) {
          Looked(clock, look);
          late := true;
        }
        look := look + 1;
        if used > LIMIT || late { break; }
      }
    }

    method AllKeepers(h: Header, start: MsgSet, keeper: nat -> bool) returns (ms: MsgSet)
      requires Valid() && Built(h, start) && start.msgs == []
      modifies val`scratch
      ensures Valid() && Built(h, ms) && KeeperRoles(ms.msgs, keeper) && FromQueues(pending, ms.msgs)
      ensures AllKeepersIn(mgr.roles, pending, {}, ms.msgs, keeper)
    {
      ms := start;
      var todo := pending.Keys;
      while todo != {}
        invariant Valid() && todo <= pending.Keys
        invariant Built(h, ms) && KeeperRoles(ms.msgs, keeper) && FromQueues(pending, ms.msgs)
        invariant forall f | f in todo :: SentBy(ms.msgs, f) == 0
        invariant AllKeepersIn(mgr.roles, pending, todo, ms.msgs, keeper)
        decreases |todo|
      {
        var from :| from in todo;
        ghost var before := ms.msgs;
        ms := TakeKeepers(from, h, ms, keeper);
        OneMoreSender(pending, before, ms.msgs, from);
        OneMoreKeeper(mgr.roles, pending, todo, before, ms.msgs, keeper, from);
        todo := todo - {from};
      }
    }

    /** The first messages of a block have been replayed, with the receipts it carries. */
    ghost predicate Following(raw: RawBlock, i: nat)
      requires i <= |raw.msgs| <= |raw.receipts|
      reads this, mgr, val
    {
      Linked() && Follows(mgr.crypto, mgr.View(), raw, i, val.scratch)
    }

    /** Replay the messages of a block: true if every signature and every receipt is right. */
    method ReplayMessages(raw: RawBlock, signed: Message -> bool) returns (ok: bool)
      requires |raw.msgs| <= |raw.receipts| && Following(raw, 0)
      modifies val`scratch
      ensures ok == Endorsed(mgr.crypto, mgr.View(), raw, signed)
      ensures ok ==> Following(raw, |raw.msgs|)
    {
      for i := 0 to |raw.msgs|
        invariant Following(raw, i)
        invariant MessagesSigned(signed, raw.msgs[..i])
      {
        var m := raw.msgs[i];
        if !signed(m) { return false; }
        var good := ReplayNext(raw, i);
        if !good { return false; }
        assert raw.msgs[..i + 1] == raw.msgs[..i] + [m];
      }
      FollowedToEnd(mgr.crypto, mgr.View(), raw, signed, val.scratch);
      return true;
    }

    /** Replay one more message; false if the block's receipt says otherwise. */
    method ReplayNext(raw: RawBlock, i: nat) returns (good: bool)
      requires i < |raw.msgs| <= |raw.receipts| && Following(raw, i)
      modifies val`scratch
      ensures good ==> Following(raw, i + 1)
      ensures !good ==> Replay(mgr.crypto, mgr.View(), raw.header, raw.msgs).1 != raw.receipts[..|raw.msgs|]
    {
      var fine := ReplayOne(raw.header, raw.msgs[..i], raw.receipts[..i], raw.msgs[i]);
      good := fine != raw.receipts[i];
      NextReceipt(mgr.crypto, mgr.View(), raw, i, fine, val.scratch);
    }

    method ReplayOne(h: Header, ghost msgs: seq<Message>, ghost flags: seq<bool>, m: Message) returns (fine: bool)
      requires Linked() && ValidateHeader(mgr.crypto, mgr.View(), Reset(mgr.View()), h).Ok?
      requires Replay(mgr.crypto, mgr.View(), h, msgs) == (val.scratch, flags)
      modifies val`scratch
      ensures Replay(mgr.crypto, mgr.View(), h, msgs + [m]) == (val.scratch, flags + [!fine])
    {
      ReplayAppend(mgr.crypto, mgr.View(), h, msgs, m);
      fine := val.ValidateMessage(m);
    }

    /** OnPropose: replay the block and compare receipts and root. */
    method OnPropose(raw: RawBlock, signed: Message -> bool) returns (ok: bool)
      requires Valid() && |raw.msgs| <= |raw.receipts|
      modifies val`scratch
      ensures ok == Accepts(mgr.crypto, mgr.View(), raw, signed)
    {
      val.Reset();
      if val.scratch.root != raw.parentRoot { return false; }
      var fits := val.ValidateBlock(raw.header);
      if !fits { return false; }
      ok := ReplayMessages(raw, signed);
      if !ok { return false; }
      assert raw.msgs[..|raw.msgs|] == raw.msgs;
      return val.scratch.root == raw.root;
    }
  }

  ghost predicate Follows(c: Crypto, s: State, raw: RawBlock, i: nat, v: Val)
    requires i <= |raw.msgs| <= |raw.receipts|
  {
    && ValidateHeader(c, s, Reset(s), raw.header).Ok?
    && Replay(c, s, raw.header, raw.msgs[..i]) == (v, raw.receipts[..i])
  }

  /** Every signature is valid and every receipt is the verdict of validation. */
  ghost predicate Endorsed(c: Crypto, s: State, raw: RawBlock, signed: Message -> bool)
    requires |raw.msgs| <= |raw.receipts| && ValidateHeader(c, s, Reset(s), raw.header).Ok?
  {
    MessagesSigned(signed, raw.msgs) && Replay(c, s, raw.header, raw.msgs).1 == raw.receipts[..|raw.msgs|]
  }

  lemma FollowedToEnd(c: Crypto, s: State, raw: RawBlock, signed: Message -> bool, v: Val)
    requires |raw.msgs| <= |raw.receipts| && Follows(c, s, raw, |raw.msgs|, v)
    requires MessagesSigned(signed, raw.msgs[..|raw.msgs|])
    ensures Endorsed(c, s, raw, signed)
  {
    assert raw.msgs[..|raw.msgs|] == raw.msgs;
  }

  lemma NextReceipt(c: Crypto, s: State, raw: RawBlock, i: nat, fine: bool, v: Val)
    requires i < |raw.msgs| <= |raw.receipts| && ValidateHeader(c, s, Reset(s), raw.header).Ok?
    requires Replay(c, s, raw.header, raw.msgs[..i] + [raw.msgs[i]]) == (v, raw.receipts[..i] + [!fine])
    ensures fine != raw.receipts[i] ==> Follows(c, s, raw, i + 1, v)
    ensures fine == raw.receipts[i] ==> Replay(c, s, raw.header, raw.msgs).1 != raw.receipts[..|raw.msgs|]
  {
    assert raw.msgs[..i + 1] == raw.msgs[..i] + [raw.msgs[i]];
    if fine == raw.receipts[i] {
      WrongReceipt(c, s, raw, i, fine);
    } else {
      assert raw.receipts[..i + 1] == raw.receipts[..i] + [!fine];
    }
  }

  lemma WrongReceipt(c: Crypto, s: State, raw: RawBlock, i: nat, fine: bool)
    requires i < |raw.msgs| <= |raw.receipts| && ValidateHeader(c, s, Reset(s), raw.header).Ok?
    requires Replay(c, s, raw.header, raw.msgs[..i + 1]).1 == raw.receipts[..i] + [!fine] && fine == raw.receipts[i]
    ensures Replay(c, s, raw.header, raw.msgs).1 != raw.receipts[..|raw.msgs|]
  {
    FlagsStay(c, s, ValidateHeader(c, s, Reset(s), raw.header).value, raw.msgs, i + 1);
    assert raw.receipts[..|raw.msgs|][..i + 1][i] == raw.receipts[i];
    assert (raw.receipts[..i] + [!fine])[i] == !fine;
  }
}
