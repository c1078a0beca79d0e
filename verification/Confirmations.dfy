/** Keeper confirmations of a provider's income: who signed what, and when it agrees with the ledger. */
module Confirmations {
  import opened Types
  import opened Chain
  import opened Epochs
  import opened Ledger

  ghost predicate Distinct(xs: seq<nat>)
  {
    forall i, j | 0 <= i < j < |xs| :: xs[i] != xs[j]
  }

  function Concat(sigs: seq<Signature>): seq<nat>
  {
    if sigs == [] then [] else Concat(sigs[..|sigs| - 1]) + sigs[|sigs| - 1].data
  }

  /** A keeper signed these amounts for this provider (the token index is not compared). */
  ghost predicate KeeperSigned(c: Crypto, r: RoleDb, id: nat, a: AccIncome, sig: Signature)
  {
    && id in r.base && r.base[id].typ == Keeper
    && exists token: nat :: Signed(c, Some(r.base[id]), IncomeDigest(a.(token := token)), sig)
  }

  ghost predicate AllSigned(c: Crypto, r: RoleDb, rec: Confirmation, sigs: seq<Signature>)
  {
    && |sigs| == |rec.sig.signers|
    && rec.sig.data == Concat(sigs)
    && forall i | 0 <= i < |sigs| :: KeeperSigned(c, r, rec.sig.signers[i], rec.income, sigs[i])
  }

  ghost predicate RecordOk(c: Crypto, s: State, key: ProEpoch, rec: Confirmation)
  {
    && rec.income.pro == key.pro
    && rec.sig.typ == SigSecp256k1
    && Distinct(rec.sig.signers)
    && (exists sigs :: AllSigned(c, s.roles, rec, sigs))
    && key.epoch <= s.ce.previous.epoch
    && (key.epoch >= 1 ==> key in s.pay.proAt && IncomeMatches(rec.income, key.pro, s.pay.proAt[key]))
  }

  /** Every record: distinct keeper signers, each of whom signed its amounts; from epoch 1 on the
      amounts are those of the frozen snapshot. */
  ghost predicate ConfirmsOk(c: Crypto, s: State)
  {
    forall key {:trigger RecordOk(c, s, key, s.pay.confirm[key])} | key in s.pay.confirm ::
      RecordOk(c, s, key, s.pay.confirm[key])
  }

  lemma {:induction false} SignedFrame(c: Crypto, r: RoleDb, r': RoleDb, rec: Confirmation)
    requires forall id | id in r.base :: id in r'.base && r'.base[id] == r.base[id]
    requires exists sigs :: AllSigned(c, r, rec, sigs)
    ensures exists sigs :: AllSigned(c, r', rec, sigs)
  {
    var sigs :| AllSigned(c, r, rec, sigs);
    forall i | 0 <= i < |sigs| ensures KeeperSigned(c, r', rec.sig.signers[i], rec.income, sigs[i]) {
      assert KeeperSigned(c, r, rec.sig.signers[i], rec.income, sigs[i]);
    }
    assert AllSigned(c, r', rec, sigs);
  }

  /** Adding a signer to a record extends the list of signatures it stands for. */
  lemma SignerAdds(c: Crypto, r: RoleDb, rec: Confirmation, id: nat, income: AccIncome, sig: Signature,
                   ms: MultiSignature)
    requires rec.sig.typ == SigSecp256k1 && Distinct(rec.sig.signers) && exists sigs :: AllSigned(c, r, rec, sigs)
    requires AddSigner(c, rec.sig, id, sig) == Ok(ms)
    requires id in r.base && r.base[id].typ == Keeper && Signed(c, Some(r.base[id]), IncomeDigest(income), sig)
    requires rec.income == income.(token := rec.income.token)
    ensures Distinct(ms.signers) && exists sigs :: AllSigned(c, r, rec.(sig := ms), sigs)
  {
    var sigs :| AllSigned(c, r, rec, sigs);
    var sigs' := sigs + [sig];
    assert sigs'[..|sigs|] == sigs;
    assert rec.income.(token := income.token) == income;
    assert KeeperSigned(c, r, id, rec.income, sig);
    assert AllSigned(c, r, rec.(sig := ms), sigs');
  }

  lemma ConfirmKeeps(c: Crypto, s: State, from: nat, epoch: nat, income: AccIncome, sig: Signature, t: State)
    requires ClockOk(s) && ConfirmsOk(c, s) && ApplyConfirm(c, s, from, epoch, income, sig) == Ok(t)
    ensures ConfirmsOk(c, t)
  {
    var key0 := ProEpoch(income.pro, epoch);
    var rec := Get(s.pay.confirm, key0, NewConfirmation(income));
    if key0 in s.pay.confirm {
      assert RecordOk(c, s, key0, s.pay.confirm[key0]);
    } else {
      assert AllSigned(c, s.roles, rec, []);
    }
    SignerAdds(c, s.roles, rec, from, income, sig, t.pay.confirm[key0].sig);
    forall key | key in t.pay.confirm ensures RecordOk(c, t, key, t.pay.confirm[key]) {
      if key != key0 { assert RecordOk(c, s, key, s.pay.confirm[key]); }
    }
  }

  lemma OtherKeepsConfirms(c: Crypto, s: State, t: State)
    requires ConfirmsOk(c, s) && t.pay.confirm == s.pay.confirm
    requires forall id | id in s.roles.base :: id in t.roles.base && t.roles.base[id] == s.roles.base[id]
    requires s.ce.previous.epoch <= t.ce.previous.epoch
    requires forall key: ProEpoch | 1 <= key.epoch <= s.ce.previous.epoch ::
               Find(t.pay.proAt, key) == Find(s.pay.proAt, key)
    ensures ConfirmsOk(c, t)
  {
    forall key | key in t.pay.confirm ensures RecordOk(c, t, key, t.pay.confirm[key]) {
      assert RecordOk(c, s, key, s.pay.confirm[key]);
      SignedFrame(c, s.roles, t.roles, s.pay.confirm[key]);
      assert key.epoch >= 1 ==> Find(t.pay.proAt, key) == Find(s.pay.proAt, key);
    }
  }

  lemma RecordsKept(c: Crypto, s: State, from: nat, body: Payload, t: State)
    requires Step(c, s, from, body) == Ok(t) && !body.ConfirmPostIncome?
    ensures t.pay.confirm == s.pay.confirm
  {
  }

  lemma RolesKept(c: Crypto, s: State, from: nat, body: Payload, t: State)
    requires Step(c, s, from, body) == Ok(t)
    ensures forall id | id in s.roles.base :: id in t.roles.base && t.roles.base[id] == s.roles.base[id]
  {
  }

  lemma WindowMoves(c: Crypto, s: State, from: nat, body: Payload, t: State)
    requires ClockOk(s) && Step(c, s, from, body) == Ok(t)
    ensures s.ce.previous.epoch <= t.ce.previous.epoch
  {
  }

  lemma ConfirmsStep(c: Crypto, s: State, from: nat, body: Payload, t: State)
    requires ClockOk(s) && ConfirmsOk(c, s) && Step(c, s, from, body) == Ok(t)
    ensures ConfirmsOk(c, t)
  {
    match body
    case ConfirmPostIncome(e, i, g) => ConfirmKeeps(c, s, from, e, i, g, t);
    case _ =>
      SnapshotsStay(c, s, from, body, t);
      RecordsKept(c, s, from, body, t);
      RolesKept(c, s, from, body, t);
      WindowMoves(c, s, from, body, t);
      OtherKeepsConfirms(c, s, t);
  }

  /** The record of a provider and epoch shows the amounts of the ledger snapshot. */
  ghost predicate Confirmed(p: PayDb, key: ProEpoch)
  {
    key in p.confirm && key in p.proAt && IncomeMatches(p.confirm[key].income, key.pro, p.proAt[key])
  }

  /** A record keeps its amounts; only signers are added. */
  ghost predicate SameRecord(p: PayDb, q: PayDb, key: ProEpoch)
    requires key in p.confirm
  {
    key in q.confirm && q.confirm[key].income == p.confirm[key].income
  }

  lemma RecordsGrow(c: Crypto, s: State, from: nat, body: Payload, t: State)
    requires Step(c, s, from, body) == Ok(t)
    ensures forall key | key in s.pay.confirm :: SameRecord(s.pay, t.pay, key)
  {
    match body
    case ConfirmPostIncome(e, i, g) =>
    case _ => RecordsKept(c, s, from, body, t);
  }

  /** Once two epoch updates lie behind, no step makes a right record wrong or a wrong one right. */
  lemma ConfirmedStaysConfirmed(c: Crypto, s: State, from: nat, body: Payload, t: State, key: ProEpoch)
    requires ClockOk(s) && ConfirmsOk(c, s) && Step(c, s, from, body) == Ok(t)
    requires s.ce.epoch >= 2 && key in s.pay.confirm
    ensures Confirmed(t.pay, key) <==> Confirmed(s.pay, key)
  {
    assert RecordOk(c, s, key, s.pay.confirm[key]);
    SnapshotsFrozen(c, s, from, body, t, key);
    RecordsGrow(c, s, from, body, t);
    assert SameRecord(s.pay, t.pay, key);
  }

  /** Before the second epoch update, epoch 0 is both confirmable and still being booked: any fault
      with a positive penalty then leaves its record behind the ledger. */
  lemma EarlyConfirmationGoesStale(c: Crypto, s: State, from: nat, f: SegRemove, t: State)
    requires ClockOk(s) && s.ce.epoch <= 1 && LedgerOk(s.pay, s.ce.current.epoch) && ApplyFault(c, s, from, f) == Ok(t)
    requires Confirmed(s.pay, ProEpoch(f.pro, 0))
    requires var b := s.orders.base[OrderKey(Pair(f.user, f.pro), f.nonce)].order.ob;
             Penalty(b, CountSegs(f.segments), SlotTime(s.ce.previous.slot)) > 0
    ensures !Confirmed(t.pay, ProEpoch(f.pro, 0))
  {
    var key := ProEpoch(f.pro, 0);
    assert SnapshotOk(s.pay, key) && ProOk(s.pay, f.pro, 0);
  }
}
