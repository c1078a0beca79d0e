/** The erasure coder: stripe layout, tags coded on top of tags, recovery. */
module Coder {
  import opened Types
  import opened Arithmetic

  type Shard = Option<Bytes>

  const PREFIX_LEN: nat := 24

  datatype Policy = Rs | Mul

  /** A coder. The Reed-Solomon library is `rsOk` (a code of k data and m parity shards can be made),
      `parity` and `fill` (rebuild all shards from those present); the tag scheme is `gen`, `verify`
      and `wellFormed`. `pre` is the encoded prefix. */
  datatype Scheme = Scheme(
    policy: Policy, dc: nat, pc: nat, tagCount: nat, segSize: nat, tagSize: nat, pre: Bytes,
    rsOk: (nat, nat) -> bool, parity: (nat, nat, seq<Bytes>) -> seq<Bytes>, fill: (nat, nat, seq<Shard>) -> seq<Bytes>,
    gen: (nat, nat, Bytes) -> Bytes, verify: (nat, nat, Bytes, Bytes) -> bool, wellFormed: Bytes -> bool)

  /** NewDataCoder and preCompute: the counts a coder works with. Copying takes one data shard. */
  function Counts(policy: Policy, dataCount: nat, parityCount: nat): (r: Result<(nat, nat)>)
    ensures r.Ok? ==> r.value.0 + r.value.1 == dataCount + parityCount && r.value.0 >= 1 && r.value.1 >= 1
    ensures r.Ok? && policy.Mul? ==> r.value.0 == 1
    ensures r.Err? <==> parityCount + dataCount < 2 || (policy.Rs? && (dataCount == 0 || parityCount == 0))
  {
    var dc := if policy.Mul? then 1 else dataCount;
    var pc := if policy.Mul? then dataCount + parityCount - 1 else parityCount;
    if dc < 1 || pc < 1 then Err else Ok((dc, pc))
  }

  function ChunkCount(c: Scheme): nat { c.dc + c.pc }

  function FragmentSize(c: Scheme): nat
  {
    PREFIX_LEN + c.segSize + Area(c.tagSize, c.tagCount)
  }

  // ---- The ideal code ----

  ghost predicate Even(w: seq<Bytes>, len: nat)
  {
    forall i :: 0 <= i < |w| ==> |w[i]| == len
  }

  /** A full set of shards: equal non-zero lengths, parity as the code computes it. */
  ghost predicate CodeWord(c: Scheme, k: nat, m: nat, w: seq<Bytes>, len: nat)
  {
    && |w| == k + m
    && len > 0
    && Even(w, len)
    && w[k..] == c.parity(k, m, w[..k])
  }

  /** Every shard that is there is the one of the word. */
  ghost predicate Agrees(s: seq<Shard>, w: seq<Bytes>)
  {
    |s| == |w| && forall i :: 0 <= i < |s| ==> s[i] == None || s[i] == Some(w[i])
  }

  function Mask(s: seq<Shard>): seq<bool>
  {
    seq(|s|, i requires 0 <= i < |s| => s[i].Some?)
  }

  function CountTrue(b: seq<bool>): nat
  {
    if b == [] then 0 else CountTrue(b[..|b| - 1]) + if b[|b| - 1] then 1 else 0
  }

  function Present(s: seq<Shard>): nat
  {
    CountTrue(Mask(s))
  }

  /** What is assumed of the code: parity shards are as many and as long as asked for, any k shards
      determine the rest, filling in leaves the shards there alone, and one data shard is coded by
      repeating it. */
  ghost predicate IdealCode(c: Scheme)
  {
    && (forall k, m, d, len | |d| == k && Even(d, len) && c.rsOk(k, m) ::
          |c.parity(k, m, d)| == m && Even(c.parity(k, m, d), len))
    && (forall k, m, s, w, len | c.rsOk(k, m) && CodeWord(c, k, m, w, len) && Agrees(s, w) && Present(s) >= k ::
          c.fill(k, m, s) == w)
    && (forall k: nat, m: nat, s {:trigger c.fill(k, m, s)} | c.rsOk(k, m) && |s| == k + m && Present(s) >= k ::
          Agrees(s, c.fill(k, m, s)))
    && (forall m, d, i | c.rsOk(1, m) && |d| == 1 && 0 <= i < |c.parity(1, m, d)| :: c.parity(1, m, d)[i] == d[0])
  }

  ghost predicate IdealTags(c: Scheme)
  {
    forall name, j, seg ::
      |c.gen(name, j, seg)| == c.tagSize && c.wellFormed(c.gen(name, j, seg))
        && c.verify(name, j, seg, c.gen(name, j, seg))
  }

  predicate Sized(c: Scheme)
  {
    c.dc > 0 && c.pc > 0 && c.tagCount > 1 && c.segSize > 0 && c.tagSize > 0 && |c.pre| == PREFIX_LEN
  }

  ghost predicate Sound(c: Scheme)
  {
    Sized(c) && c.tagCount == TagCount(c.dc, c.pc) && (c.policy.Mul? ==> c.dc == 1) && IdealCode(c) && IdealTags(c)
  }

  /** preCompute: tags carried by each fragment. */
  function TagCount(dc: nat, pc: nat): nat
    requires dc > 0 && pc > 0
  {
    2 + (pc - 1) / dc
  }

  /** Enough tags: the tag rows of any `dc` fragments hold at least one tag for every chunk. */
  lemma EnoughTags(dc: nat, pc: nat)
    requires dc > 0 && pc > 0
    ensures dc * TagCount(dc, pc) >= dc + pc
  {
    var q := (pc - 1) / dc;
    assert pc - 1 < dc * q + dc;
    assert dc * (2 + q) == dc * q + dc + dc;
  }

  // ---- recoverData ----

  function Len(s: Shard): nat { if s.Some? then |s.value| else 0 }

  /** Length of the first shard that has any bytes, 0 if none has. */
  function ShardSize(s: seq<Shard>): nat
  {
    if s == [] then 0 else if Len(s[0]) > 0 then Len(s[0]) else ShardSize(s[1..])
  }

  predicate SameSizes(s: seq<Shard>, missingOk: bool)
  {
    forall i :: 0 <= i < |s| ==> Len(s[i]) == ShardSize(s) || (missingOk && Len(s[i]) == 0)
  }

  function Values(s: seq<Shard>): seq<Bytes>
  {
    seq(|s|, i requires 0 <= i < |s| => if s[i].Some? then s[i].value else [])
  }

  function Somes(w: seq<Bytes>): seq<Shard>
  {
    seq(|w|, i requires 0 <= i < |w| => Some(w[i]))
  }

  predicate ParityOk(c: Scheme, k: nat, m: nat, w: seq<Bytes>)
  {
    |w| == k + m && w[k..] == c.parity(k, m, w[..k])
  }

  function FirstPresent(s: seq<Shard>): (i: nat)
    ensures i <= |s| && (i < |s| ==> s[i].Some?)
  {
    if s == [] || s[0].Some? then 0 else 1 + FirstPresent(s[1..])
  }

  /** All shards from those present, or an error. One data shard is copied; otherwise the library
      verifies, reconstructs and verifies again. */
  function Restored(c: Scheme, k: nat, m: nat, s: seq<Shard>): (r: Result<seq<Bytes>>)
    ensures r.Ok? ==> |r.value| == |s|
  {
    if k > 1 then
      if !c.rsOk(k, m) || |s| != k + m || ShardSize(s) == 0 then Err
      else if SameSizes(s, false) && ParityOk(c, k, m, Values(s)) then Ok(Values(s))
      else if !SameSizes(s, true) || Present(s) < k || Present(s) == |s| then Err
      else
        var w := c.fill(k, m, s);
        if SameSizes(Somes(w), false) && ParityOk(c, k, m, w) then Ok(w) else Err
    else if k == 1 then
      var i := FirstPresent(s);
      if i == |s| then Err
      else Ok(seq(|s|, j requires 0 <= j < |s| => if s[j].Some? then s[j].value else s[i].value))
    else Err
  }

  lemma PresentAll(b: seq<bool>)
    ensures CountTrue(b) <= |b|
    ensures CountTrue(b) == |b| <==> forall i :: 0 <= i < |b| ==> b[i]
  {
    if b != [] {
      PresentAll(b[..|b| - 1]);
    }
  }

  lemma PresentSome(b: seq<bool>)
    ensures CountTrue(b) > 0 ==> exists i :: 0 <= i < |b| && b[i]
  {
    if b != [] && !b[|b| - 1] {
      PresentSome(b[..|b| - 1]);
    }
  }

  lemma ShardSizeIs(s: seq<Shard>, w: seq<Bytes>, len: nat)
    requires Agrees(s, w) && len > 0 && Even(w, len)
    ensures ShardSize(s) == if exists i :: 0 <= i < |s| && s[i].Some? then len else 0
  {
    if s != [] && s[0].None? {
      assert Agrees(s[1..], w[1..]);
      ShardSizeIs(s[1..], w[1..], len);
      if i :| 0 <= i < |s| && s[i].Some? {
        assert s[1..][i - 1].Some?;
      }
    }
  }

  lemma FirstPresentFinds(s: seq<Shard>, i: int)
    requires 0 <= i < |s| && s[i].Some?
    ensures FirstPresent(s) < |s|
  {
    if s[0].None? {
      FirstPresentFinds(s[1..], i - 1);
    }
  }

  lemma WordSizes(w: seq<Bytes>, len: nat)
    requires |w| > 0 && len > 0 && Even(w, len)
    ensures SameSizes(Somes(w), false) && ShardSize(Somes(w)) == len && Values(Somes(w)) == w
  {
    assert Somes(w)[0].Some?;
    ShardSizeIs(Somes(w), w, len);
  }

  /** Any k shards of a code word bring the whole word back. */
  lemma RestoresWord(c: Scheme, k: nat, m: nat, s: seq<Shard>, w: seq<Bytes>, len: nat)
    requires IdealCode(c) && c.rsOk(k, m) && k > 0 && CodeWord(c, k, m, w, len) && Agrees(s, w) && Present(s) >= k
    ensures Restored(c, k, m, s) == Ok(w)
  {
    PresentAll(Mask(s));
    if k == 1 {
      RepeatsWord(c, m, s, w, len);
    } else if Present(s) == |s| {
      AllPresent(s, w);
      WordSizes(w, len);
    } else {
      assert c.fill(k, m, s) == w;
      MissingOne(s, w, len);
      WordSizes(w, len);
    }
  }

  lemma RepeatsWord(c: Scheme, m: nat, s: seq<Shard>, w: seq<Bytes>, len: nat)
    requires IdealCode(c) && c.rsOk(1, m) && CodeWord(c, 1, m, w, len) && Agrees(s, w) && Present(s) > 0
    ensures Restored(c, 1, m, s) == Ok(w)
  {
    PresentSome(Mask(s));
    var i :| 0 <= i < |Mask(s)| && Mask(s)[i];
    FirstPresentFinds(s, i);
    RepeatedWord(c, m, w, len);
    var r := Restored(c, 1, m, s).value;
    forall j | 0 <= j < |s| ensures r[j] == w[j] {
    }
    assert r == w;
  }

  lemma RepeatedWord(c: Scheme, m: nat, w: seq<Bytes>, len: nat)
    requires IdealCode(c) && c.rsOk(1, m) && CodeWord(c, 1, m, w, len)
    ensures forall i :: 0 <= i < |w| ==> w[i] == w[0]
  {
    forall i | 0 < i < |w| ensures w[i] == w[0] {
      assert w[i] == w[1..][i - 1] == c.parity(1, m, w[..1])[i - 1];
    }
  }

  lemma AllPresent(s: seq<Shard>, w: seq<Bytes>)
    requires Agrees(s, w) && Present(s) == |s|
    ensures s == Somes(w) && Values(s) == w
  {
    PresentAll(Mask(s));
    forall i | 0 <= i < |s| ensures s[i] == Some(w[i]) {
      assert Mask(s)[i];
    }
  }

  lemma MissingOne(s: seq<Shard>, w: seq<Bytes>, len: nat)
    requires Agrees(s, w) && 0 < Present(s) < |s| && len > 0 && Even(w, len)
    ensures !SameSizes(s, false) && SameSizes(s, true) && ShardSize(s) > 0
  {
    PresentAll(Mask(s));
    PresentSome(Mask(s));
    ShardSizeIs(s, w, len);
    var i :| 0 <= i < |s| && !Mask(s)[i];
    var j :| 0 <= j < |s| && Mask(s)[j];
    assert Len(s[i]) == 0;
  }

  // ---- Layout of a stripe ----

  function Zeros(n: nat): (z: Bytes)
    ensures |z| == n && forall i :: 0 <= i < n ==> z[i] == 0
  {
    seq(n, _ => 0)
  }

  /** n pieces of the given size, in order. */
  function Pieces(d: Bytes, size: nat, n: nat): (p: seq<Bytes>)
    requires |d| >= Area(size, n)
    ensures |p| == n && forall i :: 0 <= i < n ==> |p[i]| == size
  {
    if n == 0 then []
    else
      Pieces(d, size, n - 1) + [d[Area(size, n - 1)..Area(size, n)]]
  }

  function Joined(p: seq<Bytes>): Bytes
  {
    if p == [] then [] else Joined(p[..|p| - 1]) + p[|p| - 1]
  }

  lemma {:induction false} JoinPieces(d: Bytes, size: nat, n: nat)
    requires |d| >= Area(size, n)
    ensures Joined(Pieces(d, size, n)) == d[..Area(size, n)]
  {
    if n > 0 {
      JoinPieces(d, size, n - 1);
    }
  }

  function Padded(c: Scheme, data: Bytes): Bytes
  {
    if |data| < Area(c.segSize, c.dc) then data + Zeros(Area(c.segSize, c.dc) - |data|) else data
  }

  /** The segments of a stripe: the data, then parity or copies. */
  function Segments(c: Scheme, data: Bytes): seq<Bytes>
    requires c.dc > 0 && |data| <= Area(c.segSize, c.dc)
  {
    var d := Pieces(Padded(c, data), c.segSize, c.dc);
    d + match c.policy
        case Mul => seq(c.pc, _ => d[0])
        case Rs => c.parity(c.dc, c.pc, d)
  }

  function FirstTags(c: Scheme, name: nat, segs: seq<Bytes>): seq<Bytes>
  {
    seq(|segs|, j requires 0 <= j < |segs| => c.gen(name, j, segs[j]))
  }

  /** All tags: one per chunk, then rows of parity over them. */
  function Tags(c: Scheme, name: nat, segs: seq<Bytes>): seq<Bytes>
    requires c.tagCount > 0
  {
    var first := FirstTags(c, name, segs);
    first + c.parity(ChunkCount(c), Area(ChunkCount(c), c.tagCount - 1), first)
  }

  /** Tags of one chunk, row by row. */
  function Column(t: seq<Bytes>, width: nat, j: nat, rows: nat): Bytes
    requires j < width && |t| >= Area(width, rows)
  {
    if rows == 0 then [] else Column(t, width, j, rows - 1) + t[Area(width, rows - 1) + j]
  }

  function Fragment(c: Scheme, segs: seq<Bytes>, tags: seq<Bytes>, j: nat): Bytes
    requires j < ChunkCount(c) <= |segs| && |tags| >= Area(ChunkCount(c), c.tagCount)
  {
    c.pre + segs[j] + Column(tags, ChunkCount(c), j, c.tagCount)
  }

  /** Whether Encode can make both of its codes. */
  predicate CodesExist(c: Scheme)
    requires c.tagCount > 0
  {
    c.rsOk(c.dc, c.pc) && c.rsOk(ChunkCount(c), Area(ChunkCount(c), c.tagCount - 1))
  }

  /** DataCoder.Encode: the fragments of a stripe. */
  function Encoded(c: Scheme, name: nat, data: Bytes): Result<seq<Bytes>>
    requires Sound(c)
  {
    if |data| == 0 || |data| > Area(c.segSize, c.dc) || !CodesExist(c) then Err
    else
      var segs := Segments(c, data);
      var tags := Tags(c, name, segs);
      StripeShape(c, name, data);
      Ok(seq(ChunkCount(c), j requires 0 <= j < ChunkCount(c) => Fragment(c, segs, tags, j)))
  }

  /** Segments and tags of a stripe are code words of the two codes. */
  lemma StripeShape(c: Scheme, name: nat, data: Bytes)
    requires Sound(c) && |data| <= Area(c.segSize, c.dc) && CodesExist(c)
    ensures var segs := Segments(c, data);
      && CodeWord(c, c.dc, c.pc, segs, c.segSize)
      && CodeWord(c, ChunkCount(c), Area(ChunkCount(c), c.tagCount - 1), Tags(c, name, segs), c.tagSize)
      && |Tags(c, name, segs)| == Area(ChunkCount(c), c.tagCount)
  {
    SegmentWord(c, data);
    var first := FirstTags(c, name, Segments(c, data));
    var n, m := ChunkCount(c), Area(ChunkCount(c), c.tagCount - 1);
    assert Even(first, c.tagSize);
    var tags := first + c.parity(n, m, first);
    assert tags[..n] == first && tags[n..] == c.parity(n, m, first);
    assert Even(c.parity(n, m, first), c.tagSize);
  }

  lemma SegmentWord(c: Scheme, data: Bytes)
    requires Sound(c) && |data| <= Area(c.segSize, c.dc) && c.rsOk(c.dc, c.pc)
    ensures CodeWord(c, c.dc, c.pc, Segments(c, data), c.segSize)
  {
    var d := Pieces(Padded(c, data), c.segSize, c.dc);
    var segs := Segments(c, data);
    assert Even(d, c.segSize);
    assert |c.parity(c.dc, c.pc, d)| == c.pc && Even(c.parity(c.dc, c.pc, d), c.segSize);
    if c.policy.Mul? {
      assert c.parity(1, c.pc, d) == seq(c.pc, _ => d[0]);
    }
    assert segs == d + c.parity(c.dc, c.pc, d);
    assert segs[..c.dc] == d && segs[c.dc..] == c.parity(c.dc, c.pc, d);
  }

  // ---- Reading a fragment back ----

  function SegmentOf(c: Scheme, f: Bytes): (seg: Bytes)
    requires |f| == FragmentSize(c)
    ensures |seg| == c.segSize
  {
    f[PREFIX_LEN..PREFIX_LEN + c.segSize]
  }

  /** The r-th tag of a fragment. */
  function TagOf(c: Scheme, f: Bytes, r: nat): (tag: Bytes)
    requires |f| == FragmentSize(c) && r < c.tagCount
    ensures |tag| == c.tagSize
  {
    AreaGrows(c.tagSize, r, c.tagCount);
    var from := PREFIX_LEN + c.segSize + Area(c.tagSize, r);
    f[from..from + c.tagSize]
  }

  lemma {:induction false} ColumnTag(t: seq<Bytes>, width: nat, j: nat, rows: nat, size: nat, r: nat)
    requires j < width && |t| >= Area(width, rows) && Even(t, size) && r < rows
    ensures |Column(t, width, j, rows)| == Area(size, rows)
    ensures Area(size, r) + size <= Area(size, rows) && Area(width, r) + j < |t|
    ensures Column(t, width, j, rows)[Area(size, r)..Area(size, r) + size] == t[Area(width, r) + j]
  {
    ColumnLength(t, width, j, rows, size);
    AreaGrows(size, r, rows);
    AreaGrows(width, r, rows);
    var front := Column(t, width, j, rows - 1);
    ColumnLength(t, width, j, rows - 1, size);
    if r < rows - 1 {
      ColumnTag(t, width, j, rows - 1, size, r);
      assert Column(t, width, j, rows)[Area(size, r)..Area(size, r) + size]
             == front[Area(size, r)..Area(size, r) + size];
    }
  }

  lemma {:induction false} ColumnLength(t: seq<Bytes>, width: nat, j: nat, rows: nat, size: nat)
    requires j < width && |t| >= Area(width, rows) && Even(t, size)
    ensures |Column(t, width, j, rows)| == Area(size, rows)
  {
    if rows > 0 {
      ColumnLength(t, width, j, rows - 1, size);
    }
  }

  /** A fragment gives back the segment and the tags it was laid out from. */
  lemma FragmentParts(c: Scheme, segs: seq<Bytes>, tags: seq<Bytes>, j: nat, r: nat)
    requires Sized(c) && j < ChunkCount(c) && |segs| == ChunkCount(c) && Even(segs, c.segSize)
    requires |tags| == Area(ChunkCount(c), c.tagCount) && Even(tags, c.tagSize) && r < c.tagCount
    ensures var f := Fragment(c, segs, tags, j);
      && |f| == FragmentSize(c) && f[..PREFIX_LEN] == c.pre
      && SegmentOf(c, f) == segs[j]
      && Area(ChunkCount(c), r) + j < |tags| && TagOf(c, f, r) == tags[Area(ChunkCount(c), r) + j]
  {
    ColumnTag(tags, ChunkCount(c), j, c.tagCount, c.tagSize, r);
    var col := Column(tags, ChunkCount(c), j, c.tagCount);
    var f := Fragment(c, segs, tags, j);
    var from := PREFIX_LEN + c.segSize + Area(c.tagSize, r);
    assert f[PREFIX_LEN + c.segSize..] == col;
    assert f[from..from + c.tagSize] == col[Area(c.tagSize, r)..Area(c.tagSize, r) + c.tagSize];
  }

  // ---- VerifyStripe ----

  /** First pass: length, prefix, and a tag that can be decoded. */
  predicate LooksGood(c: Scheme, s: Shard)
    requires Sized(c)
  {
    s.Some? && |s.value| == FragmentSize(c) && s.value[..PREFIX_LEN] == c.pre && c.wellFormed(TagOf(c, s.value, 0))
  }

  predicate TagFits(c: Scheme, name: nat, j: nat, f: Bytes)
    requires Sized(c) && |f| == FragmentSize(c)
  {
    c.verify(name, j, SegmentOf(c, f), TagOf(c, f, 0))
  }

  /** A fragment the stripe check keeps; without a name the tag is not compared with the segment. */
  predicate Passes(c: Scheme, name: Option<nat>, j: nat, s: Shard)
    requires Sized(c)
  {
    LooksGood(c, s) && (name.Some? ==> TagFits(c, name.value, j, s.value))
  }

  function LookedAt(c: Scheme, s: seq<Shard>): (t: seq<Shard>)
    requires Sized(c)
    ensures |t| == |s| && forall j :: 0 <= j < |t| ==> t[j] == if LooksGood(c, s[j]) then s[j] else None
  {
    seq(|s|, j requires 0 <= j < |s| => if LooksGood(c, s[j]) then s[j] else None)
  }

  function Survivors(c: Scheme, name: Option<nat>, s: seq<Shard>): (t: seq<Shard>)
    requires Sized(c)
    ensures |t| == |s| && forall j :: 0 <= j < |t| ==> t[j] == if Passes(c, name, j, s[j]) then s[j] else None
  {
    seq(|s|, j requires 0 <= j < |s| => if Passes(c, name, j, s[j]) then s[j] else None)
  }

  /** The check itself errs only on too few fragments in the first pass. */
  predicate StripeErr(c: Scheme, s: seq<Shard>)
    requires Sized(c)
  {
    |s| < c.dc || Present(LookedAt(c, s)) < c.dc
  }

  // ---- Recover and Decode ----

  /** Every fragment there has the right length. */
  predicate Fits(c: Scheme, s: seq<Shard>)
    requires Sized(c)
  {
    forall i :: 0 <= i < |s| && s[i].Some? ==> |s[i].value| == FragmentSize(c)
  }

  function SegmentShards(c: Scheme, s: seq<Shard>): (r: seq<Shard>)
    requires Sized(c) && Fits(c, s)
    ensures |r| == |s|
    ensures forall i :: 0 <= i < |r| ==> r[i] == if s[i].Some? then Some(SegmentOf(c, s[i].value)) else None
  {
    seq(|s|, i requires 0 <= i < |s| => if s[i].Some? then Some(SegmentOf(c, s[i].value)) else None)
  }

  /** One tag from every fragment there. */
  function TagRow(c: Scheme, s: seq<Shard>, r: nat): (t: seq<Shard>)
    requires Sized(c) && Fits(c, s) && r < c.tagCount
    ensures |t| == |s|
    ensures forall i :: 0 <= i < |t| ==> t[i] == if s[i].Some? then Some(TagOf(c, s[i].value, r)) else None
  {
    seq(|s|, i requires 0 <= i < |s| => if s[i].Some? then Some(TagOf(c, s[i].value, r)) else None)
  }

  /** The tags of the fragments there, row by row. */
  function TagShards(c: Scheme, s: seq<Shard>, rows: nat): (t: seq<Shard>)
    requires Sized(c) && Fits(c, s) && rows <= c.tagCount
    ensures |t| == Area(|s|, rows)
  {
    if rows == 0 then [] else TagShards(c, s, rows - 1) + TagRow(c, s, rows - 1)
  }

  /** The tag of a rebuilt chunk must decode, and fit its segment if there is a name to check with. */
  predicate RebuiltOk(c: Scheme, name: Option<nat>, j: nat, seg: Bytes, tag: Bytes)
  {
    c.wellFormed(tag) && (name.Some? ==> c.verify(name.value, j, seg, tag))
  }

  function TagWord(c: Scheme, t: seq<Shard>): Result<seq<Bytes>>
    requires Sized(c) && |t| == ChunkCount(c) && Fits(c, t)
  {
    Restored(c, ChunkCount(c), Area(ChunkCount(c), c.tagCount - 1), TagShards(c, t, c.tagCount))
  }

  /** Put the missing fragments together from rebuilt segments and tags. */
  function Completed(c: Scheme, name: Option<nat>, t: seq<Shard>, segs: seq<Bytes>,
                     tags: seq<Bytes>): Result<seq<Shard>>
    requires |t| == |segs| == ChunkCount(c) <= |tags| && |tags| == Area(ChunkCount(c), c.tagCount)
  {
    if exists j :: 0 <= j < |t| && t[j].None? && !RebuiltOk(c, name, j, segs[j], tags[j]) then Err
    else Ok(seq(|t|, j requires 0 <= j < |t| => if t[j].Some? then t[j] else Some(Fragment(c, segs, tags, j))))
  }

  /** recoverField on the fragments that survived the check. */
  function Rebuilt(c: Scheme, name: Option<nat>, t: seq<Shard>): Result<seq<Shard>>
    requires Sized(c) && |t| == ChunkCount(c) && Fits(c, t)
  {
    var segs := Restored(c, c.dc, c.pc, SegmentShards(c, t));
    var tags := TagWord(c, t);
    if segs.Err? || tags.Err? then Err else Completed(c, name, t, segs.value, tags.value)
  }

  /** DataCoder.Recover on a full-length stripe. */
  function Recovered(c: Scheme, name: Option<nat>, s: seq<Shard>): (r: Result<seq<Shard>>)
    requires Sized(c) && |s| == ChunkCount(c)
    ensures r.Ok? ==> |r.value| == |s|
  {
    var t := Survivors(c, name, s);
    if StripeErr(c, s) || Present(t) < c.dc then Err else Rebuilt(c, name, t)
  }

  // ---- Fragments of one stripe ----

  ghost predicate Shape(c: Scheme, segs: seq<Bytes>, tags: seq<Bytes>)
    requires Sized(c)
  {
    |segs| == ChunkCount(c) && Even(segs, c.segSize) && |tags| == Area(ChunkCount(c), c.tagCount)
      && Even(tags, c.tagSize)
  }

  /** Every fragment there belongs to the stripe of these segments and tags. */
  ghost predicate OfStripe(c: Scheme, t: seq<Shard>, segs: seq<Bytes>, tags: seq<Bytes>)
    requires Sized(c) && Shape(c, segs, tags)
  {
    |t| == ChunkCount(c) && forall j :: 0 <= j < |t| ==> t[j] == None || t[j] == Some(Fragment(c, segs, tags, j))
  }

  lemma OfStripeSegments(c: Scheme, t: seq<Shard>, segs: seq<Bytes>, tags: seq<Bytes>)
    requires Sized(c) && Shape(c, segs, tags) && OfStripe(c, t, segs, tags)
    ensures Fits(c, t) && Agrees(SegmentShards(c, t), segs)
  {
    forall j | 0 <= j < |t| && t[j].Some?
      ensures |t[j].value| == FragmentSize(c) && SegmentOf(c, t[j].value) == segs[j] {
      FragmentParts(c, segs, tags, j, 0);
    }
  }

  lemma {:induction false} OfStripeTags(c: Scheme, t: seq<Shard>, segs: seq<Bytes>, tags: seq<Bytes>, rows: nat)
    requires Sized(c) && Shape(c, segs, tags) && OfStripe(c, t, segs, tags) && Fits(c, t) && rows <= c.tagCount
    ensures Area(ChunkCount(c), rows) <= |tags|
    ensures Agrees(TagShards(c, t, rows), tags[..Area(ChunkCount(c), rows)])
  {
    if rows > 0 {
      OfStripeTags(c, t, segs, tags, rows - 1);
      OfStripeRow(c, t, segs, tags, rows - 1);
      var from := Area(ChunkCount(c), rows - 1);
      assert tags[..from + ChunkCount(c)] == tags[..from] + tags[from..from + ChunkCount(c)];
      AgreesAppend(TagShards(c, t, rows - 1), tags[..from], TagRow(c, t, rows - 1), tags[from..from + ChunkCount(c)]);
    }
  }

  lemma AgreesAppend(s: seq<Shard>, w: seq<Bytes>, s': seq<Shard>, w': seq<Bytes>)
    requires Agrees(s, w) && Agrees(s', w')
    ensures Agrees(s + s', w + w')
  {
  }

  lemma OfStripeRow(c: Scheme, t: seq<Shard>, segs: seq<Bytes>, tags: seq<Bytes>, r: nat)
    requires Sized(c) && Shape(c, segs, tags) && OfStripe(c, t, segs, tags) && Fits(c, t) && r < c.tagCount
    ensures var from := Area(ChunkCount(c), r);
      from + ChunkCount(c) <= |tags| && Agrees(TagRow(c, t, r), tags[from..from + ChunkCount(c)])
  {
    var from := Area(ChunkCount(c), r);
    AreaGrows(ChunkCount(c), r, c.tagCount);
    forall j | 0 <= j < |t| && t[j].Some? ensures TagOf(c, t[j].value, r) == tags[from..from + ChunkCount(c)][j] {
      FragmentParts(c, segs, tags, j, r);
    }
  }

  // ---- Counting shards ----

  lemma {:induction false} CountTrueAppend(a: seq<bool>, b: seq<bool>)
    ensures CountTrue(a + b) == CountTrue(a) + CountTrue(b)
    decreases |b|
  {
    if b == [] {
      assert a + b == a;
    } else {
      CountTrueAppend(a, b[..|b| - 1]);
      assert (a + b)[..|a + b| - 1] == a + b[..|b| - 1];
    }
  }

  /** Every fragment there brings one tag to every row. */
  lemma {:induction false} TagsPresent(c: Scheme, s: seq<Shard>, rows: nat)
    requires Sized(c) && Fits(c, s) && rows <= c.tagCount
    ensures Present(TagShards(c, s, rows)) == Area(Present(s), rows)
  {
    if rows > 0 {
      TagsPresent(c, s, rows - 1);
      PresentAppend(TagShards(c, s, rows - 1), TagRow(c, s, rows - 1));
      assert Mask(TagRow(c, s, rows - 1)) == Mask(s);
    }
  }

  lemma PresentAppend(s: seq<Shard>, t: seq<Shard>)
    ensures Present(s + t) == Present(s) + Present(t)
  {
    assert Mask(s + t) == Mask(s) + Mask(t);
    CountTrueAppend(Mask(s), Mask(t));
  }

  /** Once enough fragments survive for the data, enough tags survive for all the tags. */
  lemma TagsSuffice(c: Scheme, s: seq<Shard>)
    requires Sized(c) && c.tagCount == TagCount(c.dc, c.pc) && Fits(c, s) && Present(s) >= c.dc
    ensures Present(TagShards(c, s, c.tagCount)) >= ChunkCount(c)
  {
    TagsPresent(c, s, c.tagCount);
    EnoughTags(c.dc, c.pc);
    AreaIsProduct(c.dc, c.tagCount);
    AreaWider(c.dc, Present(s), c.tagCount);
  }

  lemma {:induction false} CountMonotone(a: seq<bool>, b: seq<bool>)
    requires |a| == |b| && forall i :: 0 <= i < |a| && a[i] ==> b[i]
    ensures CountTrue(a) <= CountTrue(b)
  {
    if a != [] {
      CountMonotone(a[..|a| - 1], b[..|b| - 1]);
    }
  }

  // ---- The theorems ----

  /** Which fragments are the encoded ones. */
  ghost function Intact(s: seq<Shard>, f: seq<Bytes>): seq<bool>
    requires |s| == |f|
  {
    seq(|s|, j requires 0 <= j < |s| => s[j] == Some(f[j]))
  }

  /** Every fragment that the check lets through is the encoded one. */
  ghost predicate Honest(c: Scheme, name: Option<nat>, s: seq<Shard>, f: seq<Bytes>)
    requires Sized(c) && |s| == |f|
  {
    forall j :: 0 <= j < |s| && Passes(c, name, j, s[j]) ==> s[j] == Some(f[j])
  }

  /** Fragments of an encoded stripe pass the check. */
  lemma EncodedPasses(c: Scheme, name: nat, key: Option<nat>, data: Bytes, j: nat)
    requires Sound(c) && Encoded(c, name, data).Ok? && j < ChunkCount(c)
    requires key == None || key == Some(name)
    ensures Passes(c, key, j, Some(Encoded(c, name, data).value[j]))
  {
    var segs := Segments(c, data);
    var tags := Tags(c, name, segs);
    StripeShape(c, name, data);
    FragmentParts(c, segs, tags, j, 0);
    assert tags[j] == c.gen(name, j, segs[j]);
  }

  /** Intact fragments survive both passes, so they are enough for either. */
  lemma IntactSurvive(c: Scheme, name: nat, key: Option<nat>, data: Bytes, s: seq<Shard>)
    requires Sound(c) && Encoded(c, name, data).Ok? && |s| == ChunkCount(c)
    requires key == None || key == Some(name)
    requires CountTrue(Intact(s, Encoded(c, name, data).value)) >= c.dc
    ensures Present(Survivors(c, key, s)) >= c.dc && !StripeErr(c, s)
  {
    var f := Encoded(c, name, data).value;
    forall j | 0 <= j < |s| && s[j] == Some(f[j]) ensures Passes(c, key, j, s[j]) {
      EncodedPasses(c, name, key, data, j);
    }
    CountMonotone(Intact(s, f), Mask(Survivors(c, key, s)));
    CountMonotone(Intact(s, f), Mask(LookedAt(c, s)));
  }

  /** Enough fragments of a stripe give back all of its tags. */
  lemma TagsComeBack(c: Scheme, t: seq<Shard>, segs: seq<Bytes>, tags: seq<Bytes>)
    requires Sized(c) && IdealCode(c) && CodesExist(c) && Shape(c, segs, tags)
    requires OfStripe(c, t, segs, tags) && Fits(c, t)
    requires Present(TagShards(c, t, c.tagCount)) >= ChunkCount(c)
    requires CodeWord(c, ChunkCount(c), Area(ChunkCount(c), c.tagCount - 1), tags, c.tagSize)
    ensures TagWord(c, t) == Ok(tags)
  {
    OfStripeTags(c, t, segs, tags, c.tagCount);
    assert tags[..|tags|] == tags;
    RestoresWord(c, ChunkCount(c), Area(ChunkCount(c), c.tagCount - 1), TagShards(c, t, c.tagCount), tags, c.tagSize);
  }

  lemma SegmentsComeBack(c: Scheme, t: seq<Shard>, segs: seq<Bytes>)
    requires Sized(c) && IdealCode(c) && CodesExist(c) && Fits(c, t) && Agrees(SegmentShards(c, t), segs)
    requires Present(t) >= c.dc && CodeWord(c, c.dc, c.pc, segs, c.segSize)
    ensures Restored(c, c.dc, c.pc, SegmentShards(c, t)) == Ok(segs)
  {
    assert Mask(SegmentShards(c, t)) == Mask(t);
    RestoresWord(c, c.dc, c.pc, SegmentShards(c, t), segs, c.segSize);
  }

  /** Enough fragments of an encoded stripe, and no others, give the whole stripe. */
  lemma RebuildsStripe(c: Scheme, name: nat, key: Option<nat>, data: Bytes, t: seq<Shard>)
    requires Sound(c) && Encoded(c, name, data).Ok?
    requires key == None || key == Some(name)
    requires Agrees(t, Encoded(c, name, data).value) && Present(t) >= c.dc
    ensures Fits(c, t) && Rebuilt(c, key, t) == Ok(Somes(Encoded(c, name, data).value))
  {
    var f, segs := Encoded(c, name, data).value, Segments(c, data);
    var tags := Tags(c, name, segs);
    StripeShape(c, name, data);
    OfStripeSegments(c, t, segs, tags);
    SegmentsComeBack(c, t, segs);
    TagsSuffice(c, t);
    TagsComeBack(c, t, segs, tags);
    RebuiltPass(c, name, key, segs);
    CompletesWord(c, key, t, segs, tags, f);
  }

  lemma CompletesWord(c: Scheme, key: Option<nat>, t: seq<Shard>, segs: seq<Bytes>, tags: seq<Bytes>, f: seq<Bytes>)
    requires |t| == |segs| == ChunkCount(c) <= |tags| && |tags| == Area(ChunkCount(c), c.tagCount)
    requires forall j :: 0 <= j < |segs| ==> RebuiltOk(c, key, j, segs[j], tags[j])
    requires Agrees(t, f) && forall j :: 0 <= j < |f| ==> f[j] == Fragment(c, segs, tags, j)
    ensures Completed(c, key, t, segs, tags) == Ok(Somes(f))
  {
    assert Completed(c, key, t, segs, tags).value == Somes(f);
  }

  lemma RebuiltPass(c: Scheme, name: nat, key: Option<nat>, segs: seq<Bytes>)
    requires Sound(c) && (key == None || key == Some(name))
    ensures |Tags(c, name, segs)| >= |segs|
    ensures forall j :: 0 <= j < |segs| ==> RebuiltOk(c, key, j, segs[j], Tags(c, name, segs)[j])
  {
    forall j | 0 <= j < |segs| ensures Tags(c, name, segs)[j] == c.gen(name, j, segs[j]) {
    }
  }

  lemma RecoverFromHonest(c: Scheme, name: nat, key: Option<nat>, data: Bytes, s: seq<Shard>)
    requires Sound(c) && Encoded(c, name, data).Ok? && |s| == ChunkCount(c)
    requires key == None || key == Some(name)
    requires CountTrue(Intact(s, Encoded(c, name, data).value)) >= c.dc
    requires Honest(c, key, s, Encoded(c, name, data).value)
    ensures Recovered(c, key, s) == Ok(Somes(Encoded(c, name, data).value))
  {
    IntactSurvive(c, name, key, data, s);
    RebuildsStripe(c, name, key, data, Survivors(c, key, s));
  }

  /** Recover rebuilds every fragment of an encoded stripe byte for byte if and only if nothing altered
      got past the check: a fragment that passes is kept as it is. */
  lemma RecoverRebuilds(c: Scheme, name: nat, key: Option<nat>, data: Bytes, s: seq<Shard>)
    requires Sound(c) && Encoded(c, name, data).Ok? && |s| == ChunkCount(c)
    requires key == None || key == Some(name)
    requires CountTrue(Intact(s, Encoded(c, name, data).value)) >= c.dc
    ensures Recovered(c, key, s) == Ok(Somes(Encoded(c, name, data).value)) <==>
            Honest(c, key, s, Encoded(c, name, data).value)
  {
    var f := Encoded(c, name, data).value;
    if Honest(c, key, s, f) {
      RecoverFromHonest(c, name, key, data, s);
    } else if Recovered(c, key, s).Ok? {
      var j :| 0 <= j < |s| && Passes(c, key, j, s[j]) && s[j] != Some(f[j]);
      assert Recovered(c, key, s).value[j] == s[j];
    }
  }

  /** Nothing past the first tag of a fragment is looked at by the check. */
  lemma TailUnchecked(c: Scheme, key: Option<nat>, j: nat, f: Bytes, g: Bytes)
    requires Sized(c) && |f| == |g| == FragmentSize(c)
    requires PREFIX_LEN + c.segSize + c.tagSize <= |f|
    requires f[..PREFIX_LEN + c.segSize + c.tagSize] == g[..PREFIX_LEN + c.segSize + c.tagSize]
    ensures Passes(c, key, j, Some(f)) <==> Passes(c, key, j, Some(g))
  {
    var n, m := PREFIX_LEN + c.segSize + c.tagSize, PREFIX_LEN + c.segSize;
    SameSlice(f, g, n, 0, PREFIX_LEN);
    SameSlice(f, g, n, PREFIX_LEN, m);
    SameSlice(f, g, n, m, n);
  }

  lemma SameSlice(f: Bytes, g: Bytes, n: nat, a: nat, b: nat)
    requires a <= b <= n <= |f| == |g| && f[..n] == g[..n]
    ensures f[a..b] == g[a..b] && (a == 0 ==> f[..b] == g[..b])
  {
    assert f[..n][a..b] == f[a..b] && g[..n][a..b] == g[a..b];
    assert a == 0 ==> f[a..b] == f[..b] && g[a..b] == g[..b];
  }

  /** The data part of a stripe whose first fragments are all there. */
  function ReadOut(c: Scheme, s: seq<Shard>, n: nat): Bytes
    requires Sized(c) && n <= |s| && forall j :: 0 <= j < n ==> s[j].Some? && |s[j].value| == FragmentSize(c)
  {
    if n == 0 then [] else ReadOut(c, s, n - 1) + SegmentOf(c, s[n - 1].value)
  }

  /** Whether the data fragments can be read without recovery. */
  predicate Direct(c: Scheme, t: seq<Shard>)
  {
    |t| >= c.dc && forall j :: 0 <= j < c.dc ==> t[j].Some?
  }

  /** The data fragments read one after the other; slicing one that is missing or short panics. */
  function Read(c: Scheme, s: seq<Shard>): Result<Bytes>
    requires Sized(c) && |s| == ChunkCount(c)
  {
    if Direct(c, s) && Fits(c, s[..c.dc]) then Ok(ReadOut(c, s, c.dc)) else Err
  }

  /** DataCoder.Decode on a full-length stripe; a recovery is done without the name. */
  function Decoded(c: Scheme, name: Option<nat>, s: seq<Shard>): Result<Bytes>
    requires Sized(c) && |s| == ChunkCount(c)
  {
    var t := Survivors(c, name, s);
    if StripeErr(c, s) || Present(t) < c.dc then Err
    else if Direct(c, t) then Read(c, t)
    else
      var r := Recovered(c, None, t);
      if r.Err? then Err else Read(c, r.value)
  }

  lemma {:induction false} ReadOutIs(c: Scheme, s: seq<Shard>, segs: seq<Bytes>, n: nat)
    requires Sized(c) && n <= |s| && n <= |segs|
    requires forall j ::
               0 <= j < n ==> s[j].Some? && |s[j].value| == FragmentSize(c) && SegmentOf(c, s[j].value) == segs[j]
    ensures ReadOut(c, s, n) == Joined(segs[..n])
  {
    if n > 0 {
      ReadOutIs(c, s, segs, n - 1);
      assert segs[..n][..n - 1] == segs[..n - 1];
    }
  }

  lemma ReadEncoded(c: Scheme, name: nat, data: Bytes, s: seq<Shard>)
    requires Sound(c) && Encoded(c, name, data).Ok? && |s| == ChunkCount(c)
    requires forall j :: 0 <= j < c.dc ==> s[j] == Some(Encoded(c, name, data).value[j])
    ensures Read(c, s) == Ok(Padded(c, data))
  {
    var segs := Segments(c, data);
    StripeShape(c, name, data);
    forall j | 0 <= j < c.dc ensures |s[j].value| == FragmentSize(c) && SegmentOf(c, s[j].value) == segs[j] {
      FragmentParts(c, segs, Tags(c, name, segs), j, 0);
    }
    ReadOutIs(c, s, segs, c.dc);
    var d := Padded(c, data);
    assert segs[..c.dc] == Pieces(d, c.segSize, c.dc);
    JoinPieces(d, c.segSize, c.dc);
    assert d[..Area(c.segSize, c.dc)] == d;
  }

  lemma PaddedIs(c: Scheme, data: Bytes)
    requires |data| <= Area(c.segSize, c.dc)
    ensures Padded(c, data) == data + Zeros(Area(c.segSize, c.dc) - |data|)
  {
  }
}
