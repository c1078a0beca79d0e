/** Whole blocks: exactly when a list of messages with the receipts of validation is applied. */
module BlockAgreement {
  import opened Types
  import opened Chain
  import opened Cache
  import opened Validation
  import opened Confirmations
  import opened Invariants
  import opened Agreement
  import opened Differences

  // ---- One message ----

  /** With the receipt validation gives it, a message applies if and only if it is rejected or ripe, and
      then both states still agree. */
  lemma MessageAgrees(c: Crypto, s0: State, v: Val, s: State, m: Message)
    requires Sim(s0, v, s) && UsersOk(s0) && ConfirmsOk(c, s) && m.nonce == NonceOf(s.roles, m.from)
    ensures var (w, ok) := ValidateMsg(c, s0, v, m);
            && (ApplyMsg(c, s, m, !ok).Ok? <==> (ok ==> Ripe(c, s, m.from, m.body)))
            && (ApplyMsg(c, s, m, !ok).Ok? ==> Sim(s0, w, ApplyMsg(c, s, m, !ok).value))
  {
    AdmitAgrees(c, s0, v, s, m);
    var v1, s1 := Admit(c, s0, v, m).value, Charge(c, s, m);
    if Can(c, s0, v1, m.from, m.body).1 {
      ChargedConfirms(c, s, m);
      RipeDecides(c, s0, v1, s1, m.from, m.body);
      ChargedRipe(c, s, m, m.from, m.body);
    } else {
      RejectedKeepsSim(c, s0, v1, s1, m.from, m.body);
    }
  }

  lemma ChargedConfirms(c: Crypto, s: State, m: Message)
    requires ConfirmsOk(c, s)
    ensures ConfirmsOk(c, Charge(c, s, m))
  {
    forall key | key in s.pay.confirm ensures RecordOk(c, Charge(c, s, m), key, s.pay.confirm[key]) {
      assert RecordOk(c, s, key, s.pay.confirm[key]);
      SignedFrame(c, s.roles, Charge(c, s, m).roles, s.pay.confirm[key]);
    }
  }

  /** Counting the message does not matter. */
  lemma ChargedRipe(c: Crypto, s: State, m: Message, from: nat, body: Payload)
    ensures Ripe(c, Charge(c, s, m), from, body) <==> Ripe(c, s, from, body)
  {
  }

  // ---- Lists of messages ----

  /** Messages of each sender carry the sender's state nonce, then the following ones. */
  ghost predicate Gapless(r: RoleDb, msgs: seq<Message>)
  {
    forall i {:trigger InTurn(r, msgs, i)} | 0 <= i < |msgs| :: InTurn(r, msgs, i)
  }

  ghost predicate InTurn(r: RoleDb, msgs: seq<Message>, i: nat)
    requires i < |msgs|
  {
    msgs[i].nonce == NonceOf(r, msgs[i].from) + SentBy(msgs[..i], msgs[i].from)
  }

  function SentBy(msgs: seq<Message>, from: nat): nat
  {
    if msgs == [] then 0 else SentBy(msgs[..|msgs| - 1], from) + (if msgs[|msgs| - 1].from == from then 1 else 0)
  }

  lemma {:induction false} NoncesAdvance(c: Crypto, s: State, msgs: seq<Message>, receipts: seq<bool>,
                                         t: State, id: nat)
    requires |msgs| <= |receipts| && ApplyMsgs(c, s, msgs, receipts) == Ok(t)
    ensures NonceOf(t.roles, id) == NonceOf(s.roles, id) + SentBy(msgs, id)
  {
    if msgs != [] {
      var n := |msgs| - 1;
      var u := ApplyMsgs(c, s, msgs[..n], receipts).value;
      NoncesAdvance(c, s, msgs[..n], receipts, u, id);
      if !receipts[n] { StepNonces(c, Charge(c, u, msgs[n]), msgs[n].from, msgs[n].body, t); }
    }
  }

  lemma StepNonces(c: Crypto, s: State, from: nat, body: Payload, t: State)
    requires Step(c, s, from, body) == Ok(t)
    ensures t.roles.nonce == s.roles.nonce
  {
  }

  lemma GaplessPrefix(r: RoleDb, msgs: seq<Message>, n: nat)
    requires n <= |msgs| && Gapless(r, msgs)
    ensures Gapless(r, msgs[..n])
  {
    var init := msgs[..n];
    forall i | 0 <= i < n ensures InTurn(r, init, i) {
      assert InTurn(r, msgs, i);
      assert msgs[..i] == init[..i];
    }
  }

  /** Every message is rejected or of an in-scope method. */
  ghost predicate AcceptsInScope(msgs: seq<Message>, receipts: seq<bool>)
    requires |msgs| <= |receipts|
  {
    forall i | 0 <= i < |msgs| :: receipts[i] || InScope(msgs[i].body)
  }

  /** The verdicts on a prefix are a prefix of the verdicts. */
  lemma {:induction false} FlagsStay(c: Crypto, s: State, v: Val, msgs: seq<Message>, i: nat)
    requires i <= |msgs|
    ensures ValidateMsgs(c, s, v, msgs).1[..i] == ValidateMsgs(c, s, v, msgs[..i]).1
  {
    if i == |msgs| {
      assert msgs[..i] == msgs;
    } else {
      assert msgs[..|msgs| - 1][..i] == msgs[..i];
      FlagsStay(c, s, v, msgs[..|msgs| - 1], i);
    }
  }

  /** The verdict on message i is the one given after the messages before it. */
  lemma FlagAt(c: Crypto, s: State, v: Val, msgs: seq<Message>, i: nat)
    requires i < |msgs|
    ensures var flags := ValidateMsgs(c, s, v, msgs).1;
            var (w, before) := ValidateMsgs(c, s, v, msgs[..i]);
            flags[..i] == before && flags[i] == !ValidateMsg(c, s, w, msgs[i]).1
  {
    FlagsStay(c, s, v, msgs, i);
    FlagsStay(c, s, v, msgs, i + 1);
    assert msgs[..i + 1][..i] == msgs[..i];
    assert ValidateMsgs(c, s, v, msgs).1[i] == ValidateMsgs(c, s, v, msgs).1[..i + 1][i];
  }

  /** Every accepted message is ripe when its turn comes. */
  ghost predicate RipeInTurn(c: Crypto, s: State, msgs: seq<Message>, receipts: seq<bool>)
    requires |msgs| <= |receipts|
  {
    if msgs == [] then true
    else
      var n := |msgs| - 1;
      var before := ApplyMsgs(c, s, msgs[..n], receipts);
      && RipeInTurn(c, s, msgs[..n], receipts)
      && (before.Ok? && !receipts[n] ==> Ripe(c, before.value, msgs[n].from, msgs[n].body))
  }

  lemma {:induction false} SameTurns(c: Crypto, s: State, msgs: seq<Message>, a: seq<bool>, b: seq<bool>)
    requires |msgs| <= |a| <= |b| && a == b[..|a|]
    ensures RipeInTurn(c, s, msgs, a) <==> RipeInTurn(c, s, msgs, b)
  {
    if msgs != [] {
      SameTurns(c, s, msgs[..|msgs| - 1], a, b);
      SamePrefix(c, s, msgs[..|msgs| - 1], a, b);
    }
  }

  /** One more message, whose turn comes in state t. */
  lemma LastTurn(c: Crypto, s: State, msgs: seq<Message>, flags: seq<bool>, last: bool)
    requires msgs != [] && |flags| == |msgs| - 1
    ensures var before := ApplyMsgs(c, s, msgs[..|msgs| - 1], flags);
            var m := msgs[|msgs| - 1];
            && ApplyMsgs(c, s, msgs, flags + [last]) ==
                 (if before.Ok? then ApplyMsg(c, before.value, m, last) else Err)
            && (RipeInTurn(c, s, msgs, flags + [last]) <==>
                  RipeInTurn(c, s, msgs[..|msgs| - 1], flags)
                  && (before.Ok? && !last ==> Ripe(c, before.value, m.from, m.body)))
  {
    SamePrefix(c, s, msgs[..|msgs| - 1], flags, flags + [last]);
    SameTurns(c, s, msgs[..|msgs| - 1], flags, flags + [last]);
  }

  /** A gapless list with the receipts validation computes is applied if and only if every accepted
      message is ripe in its turn, and then both copies of the state agree; in particular the roots are
      equal. */
  lemma {:induction false} MessagesAgree(c: Crypto, s0: State, v: Val, s: State, msgs: seq<Message>)
    requires Sim(s0, v, s) && UsersOk(s0) && Inv(c, s) && Gapless(s.roles, msgs)
    ensures var (w, flags) := ValidateMsgs(c, s0, v, msgs);
            && (ApplyMsgs(c, s, msgs, flags).Ok? <==> RipeInTurn(c, s, msgs, flags))
            && (ApplyMsgs(c, s, msgs, flags).Ok? ==> Sim(s0, w, ApplyMsgs(c, s, msgs, flags).value))
  {
    if msgs != [] {
      var n := |msgs| - 1;
      GaplessPrefix(s.roles, msgs, n);
      MessagesAgree(c, s0, v, s, msgs[..n]);
      var (v1, flags) := ValidateMsgs(c, s0, v, msgs[..n]);
      LastTurn(c, s, msgs, flags, !ValidateMsg(c, s0, v1, msgs[n]).1);
      if ApplyMsgs(c, s, msgs[..n], flags).Ok? {
        LastAgrees(c, s0, v1, s, msgs, flags, ApplyMsgs(c, s, msgs[..n], flags).value);
      }
    }
  }

  /** The last message finds its nonce right and the confirmations in order. */
  lemma LastReady(c: Crypto, s: State, msgs: seq<Message>, flags: seq<bool>, t: State)
    requires msgs != [] && |flags| == |msgs| - 1 && Inv(c, s) && Gapless(s.roles, msgs)
    requires ApplyMsgs(c, s, msgs[..|msgs| - 1], flags) == Ok(t)
    ensures msgs[|msgs| - 1].nonce == NonceOf(t.roles, msgs[|msgs| - 1].from) && ConfirmsOk(c, t)
  {
    var n := |msgs| - 1;
    NoncesAdvance(c, s, msgs[..n], flags, t, msgs[n].from);
    assert InTurn(s.roles, msgs, n);
    MsgsKeep(c, s, msgs[..n], flags, t);
  }

  lemma LastAgrees(c: Crypto, s0: State, v: Val, s: State, msgs: seq<Message>, flags: seq<bool>, t: State)
    requires msgs != [] && |flags| == |msgs| - 1 && UsersOk(s0) && Inv(c, s) && Gapless(s.roles, msgs)
    requires ApplyMsgs(c, s, msgs[..|msgs| - 1], flags) == Ok(t) && Sim(s0, v, t)
    ensures var m := msgs[|msgs| - 1];
            var (w, ok) := ValidateMsg(c, s0, v, m);
            && (ApplyMsg(c, t, m, !ok).Ok? <==> (ok ==> Ripe(c, t, m.from, m.body)))
            && (ApplyMsg(c, t, m, !ok).Ok? ==> Sim(s0, w, ApplyMsg(c, t, m, !ok).value))
  {
    LastReady(c, s, msgs, flags, t);
    MessageAgrees(c, s0, v, t, msgs[|msgs| - 1]);
  }

  /** Messages of methods whose two copies agree are always ripe. */
  lemma {:induction false} InScopeRipe(c: Crypto, s0: State, v: Val, s: State, msgs: seq<Message>)
    requires Sim(s0, v, s) && UsersOk(s0) && Inv(c, s) && Gapless(s.roles, msgs)
    requires AcceptsInScope(msgs, ValidateMsgs(c, s0, v, msgs).1)
    ensures RipeInTurn(c, s, msgs, ValidateMsgs(c, s0, v, msgs).1)
  {
    if msgs != [] {
      var n := |msgs| - 1;
      GaplessPrefix(s.roles, msgs, n);
      FlagAt(c, s0, v, msgs, n);
      var (v1, flags) := ValidateMsgs(c, s0, v, msgs[..n]);
      assert AcceptsInScope(msgs[..n], flags);
      InScopeRipe(c, s0, v, s, msgs[..n]);
      MessagesAgree(c, s0, v, s, msgs[..n]);
      LastTurn(c, s, msgs, flags, !ValidateMsg(c, s0, v1, msgs[n]).1);
      LastInScope(c, s0, v1, s, msgs, flags, ApplyMsgs(c, s, msgs[..n], flags).value);
    }
  }

  lemma LastInScope(c: Crypto, s0: State, v: Val, s: State, msgs: seq<Message>, flags: seq<bool>, t: State)
    requires msgs != [] && |flags| == |msgs| - 1 && UsersOk(s0) && Inv(c, s) && Gapless(s.roles, msgs)
    requires ApplyMsgs(c, s, msgs[..|msgs| - 1], flags) == Ok(t) && Sim(s0, v, t)
    ensures var m := msgs[|msgs| - 1];
            InScope(m.body) && ValidateMsg(c, s0, v, m).1 ==> Ripe(c, t, m.from, m.body)
  {
    var m := msgs[|msgs| - 1];
    LastReady(c, s, msgs, flags, t);
    if InScope(m.body) && ValidateMsg(c, s0, v, m).1 { InScopeMessage(c, s0, v, t, m); }
  }

  lemma InScopeMessage(c: Crypto, s0: State, v: Val, s: State, m: Message)
    requires Sim(s0, v, s) && UsersOk(s0) && ConfirmsOk(c, s) && m.nonce == NonceOf(s.roles, m.from)
    requires InScope(m.body) && ValidateMsg(c, s0, v, m).1
    ensures Ripe(c, s, m.from, m.body)
  {
    AdmitAgrees(c, s0, v, s, m);
    var v1, s1 := Admit(c, s0, v, m).value, Charge(c, s, m);
    AcceptedAgrees(c, s0, v1, s1, m.from, m.body);
    ChargedConfirms(c, s, m);
    RipeDecides(c, s0, v1, s1, m.from, m.body);
    ChargedRipe(c, s, m, m.from, m.body);
  }

  lemma {:induction false} SamePrefix(c: Crypto, s: State, msgs: seq<Message>, a: seq<bool>, b: seq<bool>)
    requires |msgs| <= |a| <= |b| && a == b[..|a|]
    ensures ApplyMsgs(c, s, msgs, a) == ApplyMsgs(c, s, msgs, b)
  {
    if msgs != [] { SamePrefix(c, s, msgs[..|msgs| - 1], a, b); }
  }

  // ---- Blocks ----

  /** A block with gapless nonces, with the receipts and root that validation gives and enough signers
      (block zero: of keepers' registrations), is applied if and only if every accepted message is ripe
      in its turn, as it is if all of them are in scope. */
  lemma ValidatedBlockApplies(c: Crypto, s: State, b: Block)
    requires Reachable(c, s) && Fits(s, b.raw.header)
    requires if b.raw.header.height > 0 then EnoughSigners(s, b.signers) else KeepersOnly(b.raw.msgs)
    requires |b.raw.msgs| <= |b.raw.receipts| && Gapless(s.roles, b.raw.msgs)
    requires b.raw.parentRoot == s.root
    requires var v := ValidateHeader(c, s, Reset(s), b.raw.header);
             && v.Ok?
             && b.raw.receipts[..|b.raw.msgs|] == ValidateMsgs(c, s, v.value, b.raw.msgs).1
             && b.raw.root == ValidateMsgs(c, s, v.value, b.raw.msgs).0.root
    ensures ApplyBlock(c, s, b).Ok? <==> RipeInTurn(c, Opened(c, s, b.raw.header), b.raw.msgs, b.raw.receipts)
    ensures AcceptsInScope(b.raw.msgs, b.raw.receipts) ==> ApplyBlock(c, s, b).Ok?
  {
    var h := Opened(c, s, b.raw.header);
    var v := ValidateHeader(c, s, Reset(s), b.raw.header).value;
    OpenedReady(c, s, v, h, b.raw.header);
    ValidatedMessages(c, s, v, h, b.raw.msgs, b.raw.receipts);
  }

  lemma OpenedReady(c: Crypto, s: State, v: Val, h: State, header: Header)
    requires Reachable(c, s) && ValidateHeader(c, s, Reset(s), header) == Ok(v) && h == Opened(c, s, header)
    ensures Sim(s, v, h) && UsersOk(s) && Inv(c, h)
  {
    ReachableInv(c, s);
    SimHeader(c, s, v, h, header);
    InvFrame(c, s, h);
  }

  /** The receipts of a list may be followed by more. */
  lemma ValidatedMessages(c: Crypto, s0: State, v: Val, s: State, msgs: seq<Message>, receipts: seq<bool>)
    requires Sim(s0, v, s) && UsersOk(s0) && Inv(c, s) && Gapless(s.roles, msgs)
    requires |msgs| <= |receipts| && receipts[..|msgs|] == ValidateMsgs(c, s0, v, msgs).1
    ensures ApplyMsgs(c, s, msgs, receipts).Ok? <==> RipeInTurn(c, s, msgs, receipts)
    ensures ApplyMsgs(c, s, msgs, receipts).Ok? ==>
            ApplyMsgs(c, s, msgs, receipts).value.root == ValidateMsgs(c, s0, v, msgs).0.root
    ensures AcceptsInScope(msgs, receipts) ==> ApplyMsgs(c, s, msgs, receipts).Ok?
  {
    var flags := ValidateMsgs(c, s0, v, msgs).1;
    MessagesAgree(c, s0, v, s, msgs);
    SamePrefix(c, s, msgs, flags, receipts);
    SameTurns(c, s, msgs, flags, receipts);
    if AcceptsInScope(msgs, receipts) {
      assert forall i | 0 <= i < |msgs| :: flags[i] == receipts[i];
      InScopeRipe(c, s0, v, s, msgs);
    }
  }

  // ---- Proofs in a block ----

  /** The message changes records of the pair. */
  predicate Concerns(body: Payload, k: Pair)
  {
    match body
    case PreDataOrder(o) => k == Pair(o.ob.user, o.ob.pro)
    case AddDataOrder(q) => k == Pair(q.data.user, q.data.pro)
    case CommitDataOrder(u, p, _, _) => k == Pair(u, p)
    case SubDataOrder(u, p, _) => k == Pair(u, p)
    case SegmentFault(f) => k == Pair(f.user, f.pro)
    case SegmentProof(p) => k == Pair(p.user, p.pro)
    case _ => false
  }

  lemma StepKeepsStored(c: Crypto, s: State, from: nat, body: Payload, t: State, k: Pair, epoch: nat)
    requires Step(c, s, from, body) == Ok(t) && !Concerns(body, k)
    ensures SameStored(s.orders, t.orders, k, epoch)
  {
    match body
    case PreDataOrder(o) => OpenKeepsStored(c, s, from, o, t, k, epoch);
    case AddDataOrder(q) => AddSeqKeepsStored(c, s, from, q, t, k, epoch);
    case SegmentFault(f) => FaultKeepsStored(c, s, from, f, t, k, epoch);
    case SegmentProof(p) => ProofKeepsStored(c, s, from, p, t, k, epoch);
    case CommitDataOrder(u, p, n, q) => CommitKeepsStored(s, from, u, p, n, q, t, k, epoch);
    case SubDataOrder(u, p, n) => SubKeepsStored(s, from, u, p, n, t, k, epoch);
    case Malformed(_) =>
    case _ => assert t.orders == s.orders;
  }

  lemma OpenKeepsStored(c: Crypto, s: State, from: nat, o: SignedOrder, t: State, k: Pair, epoch: nat)
    requires ApplyCreateOrder(c, s, from, o) == Ok(t) && k != Pair(o.ob.user, o.ob.pro)
    ensures SameStored(s.orders, t.orders, k, epoch)
  {
  }

  lemma AddSeqKeepsStored(c: Crypto, s: State, from: nat, q: SignedSeq, t: State, k: Pair, epoch: nat)
    requires ApplyAddSeq(c, s, from, q) == Ok(t) && k != Pair(q.data.user, q.data.pro)
    ensures SameStored(s.orders, t.orders, k, epoch)
  {
  }

  lemma FaultKeepsStored(c: Crypto, s: State, from: nat, f: SegRemove, t: State, k: Pair, epoch: nat)
    requires ApplyFault(c, s, from, f) == Ok(t) && k != Pair(f.user, f.pro)
    ensures SameStored(s.orders, t.orders, k, epoch)
  {
  }

  lemma ProofKeepsStored(c: Crypto, s: State, from: nat, p: SegProof, t: State, k: Pair, epoch: nat)
    requires ApplyProof(c, s, from, p) == Ok(t) && k != Pair(p.user, p.pro)
    ensures SameStored(s.orders, t.orders, k, epoch)
  {
  }

  lemma CommitKeepsStored(s: State, from: nat, user: nat, pro: nat, nonce: nat, seqNum: nat, t: State, k: Pair,
                          epoch: nat)
    requires ApplyCommit(s, from, user, pro, nonce, seqNum) == Ok(t) && k != Pair(user, pro)
    ensures SameStored(s.orders, t.orders, k, epoch)
  {
  }

  lemma SubKeepsStored(s: State, from: nat, user: nat, pro: nat, nonce: nat, t: State, k: Pair, epoch: nat)
    requires ApplySub(s, from, user, pro, nonce) == Ok(t) && k != Pair(user, pro)
    ensures SameStored(s.orders, t.orders, k, epoch)
  {
  }

  /** No message of the list that is applied concerns the pair. */
  ghost predicate Undisturbed(msgs: seq<Message>, receipts: seq<bool>, k: Pair)
    requires |msgs| <= |receipts|
  {
    forall i | 0 <= i < |msgs| :: receipts[i] || !Concerns(msgs[i].body, k)
  }

  lemma {:induction false} MsgsKeepStored(c: Crypto, s: State, msgs: seq<Message>, receipts: seq<bool>,
                                          t: State, k: Pair, epoch: nat)
    requires |msgs| <= |receipts| && ApplyMsgs(c, s, msgs, receipts) == Ok(t) && Undisturbed(msgs, receipts, k)
    ensures SameStored(s.orders, t.orders, k, epoch)
  {
    if msgs != [] {
      var n := |msgs| - 1;
      var u := ApplyMsgs(c, s, msgs[..n], receipts).value;
      MsgsKeepStored(c, s, msgs[..n], receipts, u, k, epoch);
      if !receipts[n] {
        StepKeepsStored(c, Charge(c, u, msgs[n]), msgs[n].from, msgs[n].body, t, k, epoch);
        StoredTransitive(s.orders, u.orders, t.orders, k, epoch);
      }
    }
  }

  lemma StoredTransitive(a: OrderDb, b: OrderDb, d: OrderDb, k: Pair, epoch: nat)
    requires SameStored(a, b, k, epoch) && SameStored(b, d, k, epoch)
    ensures SameStored(a, d, k, epoch)
  {
  }

  /** A proof that nothing before it in the block has disturbed is ripe if and only if no order in its
      range starts at or after the end of the window. */
  lemma UndisturbedProof(c: Crypto, s: State, header: Header, msgs: seq<Message>, t: State, m: Message)
    requires Reachable(c, s) && ValidateHeader(c, s, Reset(s), header).Ok? && m.body.SegmentProof?
    requires var v := ValidateHeader(c, s, Reset(s), header).value;
             var (w, flags) := ValidateMsgs(c, s, v, msgs);
             && Gapless(s.roles, msgs) && ApplyMsgs(c, Opened(c, s, header), msgs, flags) == Ok(t)
             && Undisturbed(msgs, flags, Pair(m.body.chal.user, m.body.chal.pro)) && ValidateMsg(c, s, w, m).1
             && m.nonce == NonceOf(t.roles, m.from)
    ensures Ripe(c, t, m.from, m.body) <==> NoneLate(t, m.body.chal)
  {
    var v, h := ValidateHeader(c, s, Reset(s), header).value, Opened(c, s, header);
    var (w, flags) := ValidateMsgs(c, s, v, msgs);
    OpenedReady(c, s, v, h, header);
    MessagesAgree(c, s, v, h, msgs);
    var p := m.body.chal;
    MsgsKeepStored(c, h, msgs, flags, t, Pair(p.user, p.pro), p.epoch);
    ProofTurn(c, s, w, t, m);
  }

  lemma ProofTurn(c: Crypto, s0: State, v: Val, s: State, m: Message)
    requires Sim(s0, v, s) && m.body.SegmentProof? && m.nonce == NonceOf(s.roles, m.from) && ValidateMsg(c, s0, v, m).1
    requires SameStored(s0.orders, s.orders, Pair(m.body.chal.user, m.body.chal.pro), m.body.chal.epoch)
    ensures Ripe(c, s, m.from, m.body) <==> NoneLate(s, m.body.chal)
  {
    AdmitAgrees(c, s0, v, s, m);
    UntouchedProofApplies(c, s0, Admit(c, s0, v, m).value, Charge(c, s, m), m.from, m.body.chal);
    ProofApplies(c, Charge(c, s, m), m.from, m.body.chal);
    ChargedRipe(c, s, m, m.from, m.body);
  }

  // ---- The header ----

  lemma SimHeader(c: Crypto, s: State, v: Val, h: State, header: Header)
    requires Inv(c, s) && ValidateHeader(c, s, Reset(s), header) == Ok(v) && h == Opened(c, s, header)
    ensures Sim(s, v, h)
  {
    SimStart(c, s);
    forall id: nat ensures RoleSim(s, v, h, id) { assert RoleSim(s, Reset(s), s, id); }
    forall k: Pair ensures OrderSim(s, v, h, k) { assert OrderSim(s, Reset(s), s, k); }
  }
}
