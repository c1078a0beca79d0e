/** Whole runs as a chain of blocks: how the blocks hang together, who signed them, and that the state
    root stands for everything that was ever applied. */
module Histories {
  import opened Types
  import opened Chain
  import opened Cache
  import opened Restarts

  // ---- One message, one block ----

  /** A message is applied if its nonce is the next of its sender and, unless it is marked rejected, the
      transition accepts it; either way it is counted and goes into the root. */
  lemma MessageRule(c: Crypto, s: State, m: Message, rejected: bool)
    ensures ApplyMsg(c, s, m, rejected).Ok? <==>
              m.nonce == NonceOf(s.roles, m.from) && (rejected || Step(c, Charge(c, s, m), m.from, m.body).Ok?)
    ensures ApplyMsg(c, s, m, rejected).Ok? ==>
              var t := ApplyMsg(c, s, m, rejected).value;
              && t.roles.nonce == s.roles.nonce[m.from := m.nonce + 1]
              && t.root == c.nextRoot(s.root, ParamsBlob(m.body))
              && (rejected ==> t == s.(roles := t.roles, root := t.root) && t.roles == s.roles.(nonce := t.roles.nonce))
              && (!rejected ==> Step(c, Charge(c, s, m), m.from, m.body) == Ok(t))
  {
    if ApplyMsg(c, s, m, rejected).Ok? && !rejected {
      CountedStays(c, Charge(c, s, m), m.from, m.body, ApplyMsg(c, s, m, rejected).value);
    }
  }

  lemma CountedStays(c: Crypto, s: State, from: nat, body: Payload, t: State)
    requires Step(c, s, from, body) == Ok(t)
    ensures t.roles.nonce == s.roles.nonce && t.root == s.root
    ensures t.height == s.height && t.slot == s.slot && t.blk == s.blk
    ensures t.version == s.version && t.threshold == s.threshold
  {
  }

  /** Signers that are registered keepers, counted once each. */
  ghost function KeepersAmong(s: State, signers: seq<nat>): set<nat>
  {
    set x | x in s.roles.keepers && x in signers
  }

  /** Two thirds of the keepers and one more, rounded down, or the fixed threshold if that is higher. */
  function QuorumOf(s: State): nat
  {
    var t := (2 * |s.roles.keepers| + 2) / 3;
    if s.threshold >= t then s.threshold else t
  }

  /** A block is applied if and only if it is the next, on top of the present root, signed by a quorum of
      keepers (block zero: holds only registrations of keepers), its messages all apply, and they lead to
      the root it names. */
  lemma BlockRule(c: Crypto, s: State, b: Block)
    ensures ApplyBlock(c, s, b).Ok? <==>
              && b.raw.header.height == s.height && b.raw.header.slot > s.slot && b.raw.header.prevId == s.blk
              && b.raw.parentRoot == s.root && |b.raw.receipts| >= |b.raw.msgs|
              && (b.raw.header.height > 0 ==>
                    |b.signers| >= QuorumOf(s) && |KeepersAmong(s, b.signers)| >= QuorumOf(s))
              && (b.raw.header.height == 0 ==>
                    forall m | m in b.raw.msgs :: m.body.AddRole? && m.body.role.typ == Keeper)
              && ApplyMsgs(c, Opened(c, s, b.raw.header), b.raw.msgs, b.raw.receipts).Ok?
              && ApplyMsgs(c, Opened(c, s, b.raw.header), b.raw.msgs, b.raw.receipts).value.root == b.raw.root
    ensures ApplyBlock(c, s, b).Ok? ==>
              var t, u := ApplyBlock(c, s, b).value,
                ApplyMsgs(c, Opened(c, s, b.raw.header), b.raw.msgs, b.raw.receipts).value;
              && t == u.(height := s.height + 1, slot := b.raw.header.slot, blk := c.blockId(b.raw),
                         version := t.version)
  {
    assert KeepersAmong(s, b.signers) == ValidSigners(s.roles.keepers, b.signers);
    if |b.raw.msgs| <= |b.raw.receipts| && ApplyMsgs(c, Opened(c, s, b.raw.header), b.raw.msgs, b.raw.receipts).Ok? {
      MessagesRule(c, Opened(c, s, b.raw.header), b.raw.msgs, b.raw.receipts);
    }
  }

  // ---- The root ----

  /** What a list of messages puts into the root. */
  function Params(msgs: seq<Message>): seq<Blob>
  {
    seq(|msgs|, i requires 0 <= i < |msgs| => ParamsBlob(msgs[i].body))
  }

  function Hashed(c: Crypto, root: nat, blobs: seq<Blob>): nat
  {
    if blobs == [] then root else c.nextRoot(Hashed(c, root, blobs[..|blobs| - 1]), blobs[|blobs| - 1])
  }

  lemma {:induction false} HashedOfTwo(c: Crypto, root: nat, a: seq<Blob>, b: seq<Blob>)
    ensures Hashed(c, root, a + b) == Hashed(c, Hashed(c, root, a), b)
  {
    if b == [] {
      assert a + b == a;
    } else {
      var n := |b| - 1;
      assert (a + b)[..|a + b| - 1] == a + b[..n];
      HashedOfTwo(c, root, a, b[..n]);
    }
  }

  /** Messages put their parameters into the root, rejected ones too, and leave block data alone. */
  lemma {:induction false} MessagesRule(c: Crypto, s: State, msgs: seq<Message>, receipts: seq<bool>)
    requires |msgs| <= |receipts| && ApplyMsgs(c, s, msgs, receipts).Ok?
    ensures var t := ApplyMsgs(c, s, msgs, receipts).value;
            && t.root == Hashed(c, s.root, Params(msgs))
            && t.height == s.height && t.slot == s.slot && t.blk == s.blk && t.version == s.version
            && t.threshold == s.threshold
  {
    if msgs != [] {
      var n := |msgs| - 1;
      MessagesRule(c, s, msgs[..n], receipts);
      var u := ApplyMsgs(c, s, msgs[..n], receipts).value;
      MessageRule(c, u, msgs[n], receipts[n]);
      assert Params(msgs)[..n] == Params(msgs[..n]);
      if !receipts[n] {
        CountedStays(c, Charge(c, u, msgs[n]), msgs[n].from, msgs[n].body, ApplyMsgs(c, s, msgs, receipts).value);
      }
    }
  }

  /** Everything a run puts into the root: the headers of its blocks, each with its messages. */
  function History(events: seq<Event>): seq<Blob>
  {
    if events == [] then []
    else
      var before := History(events[..|events| - 1]);
      match events[|events| - 1]
      case Applied(b) => before + ([HeaderBlob(b.raw.header)] + Params(b.raw.msgs))
      case Restarted => before
  }

  lemma {:induction false} RootIsHistory(c: Crypto, id: nat, threshold: nat, events: seq<Event>, s: State)
    requires Run(c, Genesis(id, threshold), events) == Ok(s)
    ensures s.root == Hashed(c, id, History(events))
  {
    if events != [] {
      var n := |events| - 1;
      var u := Run(c, Genesis(id, threshold), events[..n]).value;
      RootIsHistory(c, id, threshold, events[..n], u);
      if events[n].Applied? {
        var raw := events[n].block.raw;
        var blobs := [HeaderBlob(raw.header)];
        MessagesRule(c, Opened(c, u, raw.header), raw.msgs, raw.receipts);
        HashedOfTwo(c, id, History(events[..n]), blobs + Params(raw.msgs));
        HashedOfTwo(c, u.root, blobs, Params(raw.msgs));
        OneHashed(c, u.root, HeaderBlob(raw.header));
      }
    }
  }

  lemma OneHashed(c: Crypto, root: nat, blob: Blob)
    ensures Hashed(c, root, [blob]) == c.nextRoot(root, blob)
  {
    assert [blob][..0] == [];
  }

  /** Two different inputs with one hash, or an input that hashes to the initial root. */
  ghost predicate Collision(c: Crypto, id: nat)
  {
    || (exists r, x, r', y :: (r != r' || x != y) && Hits(c, r, x, c.nextRoot(r', y)))
    || (exists r, x :: Hits(c, r, x, id))
  }

  ghost predicate Hits(c: Crypto, root: nat, blob: Blob, hash: nat)
  {
    c.nextRoot(root, blob) == hash
  }

  lemma {:induction false} HashedApart(c: Crypto, id: nat, a: seq<Blob>, b: seq<Blob>)
    requires a != b && Hashed(c, id, a) == Hashed(c, id, b)
    ensures Collision(c, id)
    decreases |a|
  {
    if a == [] {
      assert Hits(c, Hashed(c, id, b[..|b| - 1]), b[|b| - 1], id);
    } else if b == [] {
      assert Hits(c, Hashed(c, id, a[..|a| - 1]), a[|a| - 1], id);
    } else {
      var x, y := a[..|a| - 1], b[..|b| - 1];
      assert a == x + [a[|a| - 1]] && b == y + [b[|b| - 1]];
      if Hashed(c, id, x) == Hashed(c, id, y) && a[|a| - 1] == b[|b| - 1] {
        HashedApart(c, id, x, y);
      } else {
        assert Hits(c, Hashed(c, id, x), a[|a| - 1], c.nextRoot(Hashed(c, id, y), b[|b| - 1]));
      }
    }
  }

  /** The root stands for the whole history: two runs of one group that end at the same root have applied
      the same headers and messages, in the same order, or show a collision of the hash. */
  lemma RootFixesHistory(c: Crypto, id: nat, threshold: nat, ops: seq<Event>, s: State, ops': seq<Event>, s': State)
    requires Run(c, Genesis(id, threshold), ops) == Ok(s) && Run(c, Genesis(id, threshold), ops') == Ok(s')
    ensures History(ops) == History(ops') ==> s.root == s'.root
    ensures s.root == s'.root && History(ops) != History(ops') ==> Collision(c, id)
  {
    RootIsHistory(c, id, threshold, ops, s);
    RootIsHistory(c, id, threshold, ops', s');
    if s.root == s'.root && History(ops) != History(ops') { HashedApart(c, id, History(ops), History(ops')); }
  }

  // ---- The chain ----

  /** The blocks of a run, without the restarts. */
  function Blocks(events: seq<Event>): seq<Block>
  {
    if events == [] then []
    else
      var before := Blocks(events[..|events| - 1]);
      match events[|events| - 1]
      case Applied(b) => before + [b]
      case Restarted => before
  }

  /** Block i follows the one before it: heights count up from zero, slots grow, and each block names its
      predecessor and the root it leads to. */
  predicate Follows(c: Crypto, id: nat, bs: seq<Block>, i: nat)
    requires i < |bs|
  {
    && bs[i].raw.header.height == i
    && (i == 0 ==> bs[i].raw.header.prevId == id && bs[i].raw.header.slot > 0 && bs[i].raw.parentRoot == id)
    && (i > 0 ==>
          && bs[i].raw.header.prevId == c.blockId(bs[i - 1].raw) && bs[i].raw.header.slot > bs[i - 1].raw.header.slot
          && bs[i].raw.parentRoot == bs[i - 1].raw.root)
  }

  ghost predicate Linked(c: Crypto, id: nat, bs: seq<Block>)
  {
    forall i | 0 <= i < |bs| :: Follows(c, id, bs, i)
  }

  function VersionOf(height: nat): nat
  {
    if height < 2880 then 0 else if height < 20160 then 1 else if height < 103000 then 2 else 3
  }

  /** A run is a chain, and the state knows its end. */
  lemma {:induction false} RunIsChain(c: Crypto, id: nat, threshold: nat, events: seq<Event>, s: State)
    requires Run(c, Genesis(id, threshold), events) == Ok(s)
    ensures var bs := Blocks(events);
            && Linked(c, id, bs) && s.height == |bs| && s.threshold == threshold
            && s.slot == (if bs == [] then 0 else bs[|bs| - 1].raw.header.slot)
            && s.blk == (if bs == [] then id else c.blockId(bs[|bs| - 1].raw))
            && s.root == (if bs == [] then id else bs[|bs| - 1].raw.root)
  {
    if events != [] {
      var n := |events| - 1;
      var u := Run(c, Genesis(id, threshold), events[..n]).value;
      RunIsChain(c, id, threshold, events[..n], u);
      if events[n].Applied? { OneMoreBlock(c, id, Blocks(events[..n]), u, events[n].block, s); }
    }
  }

  lemma BlockEffect(c: Crypto, s: State, b: Block, t: State)
    requires ApplyBlock(c, s, b) == Ok(t)
    ensures b.raw.header.height == s.height && b.raw.header.slot > s.slot && b.raw.header.prevId == s.blk
    ensures b.raw.parentRoot == s.root && t.root == b.raw.root && t.threshold == s.threshold
    ensures t.height == s.height + 1 && t.slot == b.raw.header.slot && t.blk == c.blockId(b.raw)
  {
    BlockRule(c, s, b);
    MessagesRule(c, Opened(c, s, b.raw.header), b.raw.msgs, b.raw.receipts);
  }

  lemma OneMoreBlock(c: Crypto, id: nat, bs: seq<Block>, s: State, b: Block, t: State)
    requires Linked(c, id, bs) && s.height == |bs| && ApplyBlock(c, s, b) == Ok(t)
    requires s.slot == (if bs == [] then 0 else bs[|bs| - 1].raw.header.slot)
    requires s.blk == (if bs == [] then id else c.blockId(bs[|bs| - 1].raw))
    requires s.root == (if bs == [] then id else bs[|bs| - 1].raw.root)
    ensures Linked(c, id, bs + [b]) && t.height == |bs| + 1 && t.slot == b.raw.header.slot && t.blk == c.blockId(b.raw)
    ensures t.root == b.raw.root && t.threshold == s.threshold
  {
    BlockEffect(c, s, b, t);
    LinkedMore(c, id, bs, b);
  }

  lemma LinkedMore(c: Crypto, id: nat, bs: seq<Block>, b: Block)
    requires Linked(c, id, bs) && b.raw.header.height == |bs|
    requires b.raw.header.prevId == (if bs == [] then id else c.blockId(bs[|bs| - 1].raw))
    requires b.raw.header.slot > (if bs == [] then 0 else bs[|bs| - 1].raw.header.slot)
    requires b.raw.parentRoot == (if bs == [] then id else bs[|bs| - 1].raw.root)
    ensures Linked(c, id, bs + [b])
  {
    forall i | 0 <= i <= |bs| ensures Follows(c, id, bs + [b], i) {
      if i < |bs| { assert Follows(c, id, bs, i); }
    }
  }

  /** The version in force is the one the table gives for the height. */
  lemma VersionByHeight(c: Crypto, id: nat, threshold: nat, events: seq<Event>, s: State)
    requires Run(c, Genesis(id, threshold), events) == Ok(s)
    ensures s.version == VersionOf(|Blocks(events)|)
  {
    RunReloads(c, id, threshold, events, s);
    RunIsChain(c, id, threshold, events, s);
  }
}
