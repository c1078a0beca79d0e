/** The coder's loops over stripes of fragments, proved against the functions of `Coder`. */
module DataCoder {
  import opened Types
  import opened Arithmetic
  import opened Coder

  /** DataCoder.Encode. */
  method Encode(c: Scheme, name: nat, data: Bytes) returns (r: Result<seq<Bytes>>)
    requires Sound(c)
    ensures r == Encoded(c, name, data)
  {
    if |data| == 0 || |data| > Area(c.segSize, c.dc) || !CodesExist(c) {
      return Err;
    }
    StripeShape(c, name, data);
    var segs := MakeSegments(c, data);
    var tags := MakeTags(c, name, segs);
    var missing := seq(ChunkCount(c), _ => None);
    var stripe := new Shard[ChunkCount(c)];
    StartFragments(c, missing, stripe, segs, tags);
    AppendTags(c, missing, stripe, segs, tags);
    r := Ok(Values(stripe[..]));
    assert Values(stripe[..]) == Encoded(c, name, data).value;
  }

  /** Prefix and segment of every chunk that is missing. */
  method StartFragments(c: Scheme, t: seq<Shard>, stripe: array<Shard>, segs: seq<Bytes>, ghost tags: seq<Bytes>)
    requires stripe.Length == |t| == |segs|
    modifies stripe
    ensures forall k :: 0 <= k < |t| ==> stripe[k] == Partial(c, t, segs, tags, 0, k)
  {
    for i := 0 to stripe.Length
      invariant forall k :: 0 <= k < i ==> stripe[k] == Partial(c, t, segs, tags, 0, k)
    {
      assert c.pre + segs[i] + [] == c.pre + segs[i];
      stripe[i] := if t[i].Some? then t[i] else Some(c.pre + segs[i]);
    }
  }

  /** The tags of every chunk that is missing, row by row. */
  method AppendTags(c: Scheme, t: seq<Shard>, stripe: array<Shard>, ghost segs: seq<Bytes>, tags: seq<Bytes>)
    requires stripe.Length == |t| == |segs| && |tags| == Area(|t|, c.tagCount)
    requires forall k :: 0 <= k < |t| ==> stripe[k] == Partial(c, t, segs, tags, 0, k)
    modifies stripe
    ensures forall k :: 0 <= k < |t| ==> stripe[k] == Partial(c, t, segs, tags, c.tagCount, k)
  {
    for row := 0 to c.tagCount
      invariant Area(|t|, row) <= |tags|
      invariant forall k :: 0 <= k < |t| ==> stripe[k] == Partial(c, t, segs, tags, row, k)
    {
      AreaGrows(|t|, row, c.tagCount);
      AppendRow(c, t, stripe, segs, tags, row);
    }
  }

  method AppendRow(c: Scheme, t: seq<Shard>, stripe: array<Shard>, ghost segs: seq<Bytes>, tags: seq<Bytes>, row: nat)
    requires stripe.Length == |t| == |segs| && |tags| >= Area(|t|, row + 1)
    requires forall k :: 0 <= k < |t| ==> stripe[k] == Partial(c, t, segs, tags, row, k)
    modifies stripe
    ensures forall k :: 0 <= k < |t| ==> stripe[k] == Partial(c, t, segs, tags, row + 1, k)
  {
    for i := 0 to |t|
      invariant forall k :: 0 <= k < i ==> stripe[k] == Partial(c, t, segs, tags, row + 1, k)
      invariant forall k :: i <= k < |t| ==> stripe[k] == Partial(c, t, segs, tags, row, k)
    {
      PartialGrows(c, t, segs, tags, row, i);
      if t[i].None? {
        stripe[i] := Some(stripe[i].value + tags[Area(|t|, row) + i]);
      }
    }
  }

  /** Chunk k after the given rows of tags have been appended to those that were missing. */
  ghost function Partial(c: Scheme, t: seq<Shard>, segs: seq<Bytes>, tags: seq<Bytes>, rows: nat, k: nat): Shard
    requires k < |t| == |segs| && |tags| >= Area(|t|, rows)
  {
    if t[k].Some? then t[k] else Some(c.pre + segs[k] + Column(tags, |t|, k, rows))
  }

  lemma PartialGrows(c: Scheme, t: seq<Shard>, segs: seq<Bytes>, tags: seq<Bytes>, row: nat, k: nat)
    requires k < |t| == |segs| && |tags| >= Area(|t|, row + 1)
    ensures Partial(c, t, segs, tags, row + 1, k) ==
      if t[k].Some? then t[k] else Some(Partial(c, t, segs, tags, row, k).value + tags[Area(|t|, row) + k])
  {
    var start, col, tag := c.pre + segs[k], Column(tags, |t|, k, row), tags[Area(|t|, row) + k];
    assert start + (col + tag) == (start + col) + tag;
  }

  method MakeSegments(c: Scheme, data: Bytes) returns (segs: seq<Bytes>)
    requires Sized(c) && |data| <= Area(c.segSize, c.dc)
    ensures segs == Segments(c, data)
  {
    var padded := data;
    if |data| < Area(c.segSize, c.dc) {
      padded := data + Zeros(Area(c.segSize, c.dc) - |data|);
    }
    segs := [];
    for i := 0 to c.dc
      invariant Area(c.segSize, i) <= |padded|
      invariant segs == Pieces(padded, c.segSize, i)
    {
      AreaGrows(c.segSize, i, c.dc);
      segs := segs + [padded[Area(c.segSize, i)..Area(c.segSize, i) + c.segSize]];
    }
    match c.policy
    case Mul =>
      var d := segs;
      for j := 0 to c.pc
        invariant segs == d + seq(j, _ => d[0])
      {
        segs := segs + [segs[0]];
      }
    case Rs =>
      segs := segs + c.parity(c.dc, c.pc, segs);
  }

  method MakeTags(c: Scheme, name: nat, segs: seq<Bytes>) returns (tags: seq<Bytes>)
    requires Sized(c) && |segs| == ChunkCount(c)
    ensures tags == Tags(c, name, segs)
  {
    tags := [];
    for j := 0 to |segs|
      invariant tags == FirstTags(c, name, segs)[..j]
    {
      tags := tags + [c.gen(name, j, segs[j])];
    }
    assert tags == FirstTags(c, name, segs);
    tags := tags + c.parity(ChunkCount(c), Area(ChunkCount(c), c.tagCount - 1), tags);
  }

  /** DataCoder.recoverData: rebuild in place the shards that are missing. */
  method RecoverData(c: Scheme, k: nat, m: nat, data: array<Shard>) returns (ok: bool)
    modifies data
    ensures ok <==> Restored(c, k, m, old(data[..])).Ok?
    ensures ok ==> data[..] == Somes(Restored(c, k, m, old(data[..])).value)
  {
    if k > 1 {
      var s := data[..];
      if !c.rsOk(k, m) || |s| != k + m || ShardSize(s) == 0 {
        return false;
      }
      if SameSizes(s, false) && ParityOk(c, k, m, Values(s)) {
        assert s == Somes(Values(s));
        return true;
      }
      if !SameSizes(s, true) || Present(s) < k || Present(s) == |s| {
        return false;
      }
      var w := c.fill(k, m, s);
      if !SameSizes(Somes(w), false) || !ParityOk(c, k, m, w) {
        return false;
      }
      for i := 0 to data.Length
        invariant forall j :: 0 <= j < i ==> data[j] == Some(w[j])
      {
        data[i] := Some(w[i]);
      }
      assert data[..] == Somes(w);
      return true;
    } else if k == 1 {
      ok := CopyFirst(data);
    } else {
      return false;
    }
  }

  /** The branch for a single data shard: copy the first one found into every gap. */
  method CopyFirst(data: array<Shard>) returns (ok: bool)
    modifies data
    ensures ok <==> FirstPresent(old(data[..])) < data.Length
    ensures ok ==> forall j :: 0 <= j < data.Length ==>
      data[j] == if old(data[j]).Some? then old(data[j]) else old(data[..])[FirstPresent(old(data[..]))]
  {
    var i := 0;
    while i < data.Length && data[i].None?
      invariant 0 <= i <= data.Length
      invariant forall j :: 0 <= j < i ==> data[j].None?
    {
      i := i + 1;
    }
    FirstPresentIs(data[..], i);
    if i == data.Length {
      return false;
    }
    var first := data[i];
    for j := 0 to data.Length
      invariant forall n :: 0 <= n < j ==> data[n] == if old(data[n]).Some? then old(data[n]) else first
      invariant forall n :: j <= n < data.Length ==> data[n] == old(data[n])
    {
      if data[j].None? {
        data[j] := first;
      }
    }
    return true;
  }

  lemma FirstPresentIs(s: seq<Shard>, i: nat)
    requires i <= |s| && (i < |s| ==> s[i].Some?) && forall j :: 0 <= j < i ==> s[j].None?
    ensures FirstPresent(s) == i
  {
    if i > 0 {
      FirstPresentIs(s[1..], i - 1);
    }
  }

  /** DataCoder.VerifyStripe: drop what does not check out, count the rest. */
  method VerifyStripe(c: Scheme, name: Option<nat>, stripe: array<Shard>) returns (direct: bool, good: nat, err: bool)
    requires Sized(c)
    modifies stripe
    ensures err <==> StripeErr(c, old(stripe[..]))
    ensures stripe.Length < c.dc ==> !direct && good == 0 && stripe[..] == old(stripe[..])
    ensures err && stripe.Length >= c.dc ==>
      stripe[..] == LookedAt(c, old(stripe[..])) && good == Present(stripe[..]) && direct == Direct(c, stripe[..])
    ensures !err ==>
            stripe[..] == Survivors(c, name, old(stripe[..])) && good == Present(stripe[..])
              && direct == Direct(c, stripe[..])
  {
    direct := true;
    if stripe.Length < c.dc {
      return false, 0, true;
    }
    good := DropMalformed(c, stripe);
    for j := 0 to c.dc
      invariant direct <==> forall i :: 0 <= i < j ==> stripe[i].Some?
    {
      if stripe[j].None? {
        direct := false;
        break;
      }
    }
    if good < c.dc {
      return direct, good, true;
    }
    err := false;
    if name.Some? {
      var batch := AllFit(c, name.value, stripe);
      if !batch {
        var lost;
        good, lost := DropUnfit(c, name.value, stripe);
        direct := direct && !lost;
      }
    }
    assert stripe[..] == Survivors(c, name, old(stripe[..]));
  }

  lemma PresentOne(s: seq<Shard>, x: Shard)
    ensures Present(s + [x]) == Present(s) + if x.Some? then 1 else 0
  {
    assert Mask(s + [x])[..|s|] == Mask(s);
  }

  /** First pass: length, prefix and a tag that decodes. */
  method DropMalformed(c: Scheme, stripe: array<Shard>) returns (good: nat)
    requires Sized(c)
    modifies stripe
    ensures stripe[..] == LookedAt(c, old(stripe[..])) && good == Present(stripe[..])
  {
    good := 0;
    for j := 0 to stripe.Length
      invariant forall i :: 0 <= i < j ==> stripe[i] == if LooksGood(c, old(stripe[i])) then old(stripe[i]) else None
      invariant forall i :: j <= i < stripe.Length ==> stripe[i] == old(stripe[i])
      invariant good == Present(stripe[..j])
    {
      ghost var before := stripe[..j];
      if LooksGood(c, stripe[j]) {
        good := good + 1;
      } else {
        stripe[j] := None;
      }
      assert stripe[..j + 1] == before + [stripe[j]];
      PresentOne(before, stripe[j]);
    }
    assert stripe[..stripe.Length] == stripe[..];
  }

  /** The batch verifier, taken as ideal: it accepts when every tag added fits its segment. */
  method AllFit(c: Scheme, name: nat, stripe: array<Shard>) returns (fit: bool)
    requires Sized(c) && Fits(c, stripe[..])
    ensures fit <==> forall j :: 0 <= j < stripe.Length && stripe[j].Some? ==> TagFits(c, name, j, stripe[..][j].value)
  {
    fit := true;
    var s := stripe[..];
    for j := 0 to stripe.Length
      invariant fit <==> forall i :: 0 <= i < j && s[i].Some? ==> TagFits(c, name, i, s[i].value)
    {
      if s[j].Some? && !TagFits(c, name, j, s[j].value) {
        fit := false;
      }
    }
  }

  /** Second pass, after a failed batch: each tag on its own. */
  method DropUnfit(c: Scheme, name: nat, stripe: array<Shard>) returns (good: nat, lost: bool)
    requires Sized(c) && c.dc <= stripe.Length && Fits(c, stripe[..])
    modifies stripe
    ensures forall i :: 0 <= i < stripe.Length ==>
      stripe[i] == if old(stripe[i]).Some? && TagFits(c, name, i, old(stripe[..])[i].value) then old(stripe[i])
        else None
    ensures good == Present(stripe[..])
    ensures lost <==> exists i :: 0 <= i < c.dc && old(stripe[i]).Some? && stripe[i].None?
  {
    good, lost := 0, false;
    ghost var s := stripe[..];
    for j := 0 to stripe.Length
      invariant forall i ::
                  0 <= i < j ==> stripe[i] == if s[i].Some? && TagFits(c, name, i, s[i].value) then s[i] else None
      invariant forall i :: j <= i < stripe.Length ==> stripe[i] == s[i]
      invariant good == Present(stripe[..j])
      invariant lost <==> exists i :: 0 <= i < j && i < c.dc && s[i].Some? && stripe[i].None?
    {
      ghost var before := stripe[..j];
      if stripe[j].Some? {
        assert |s[j].value| == FragmentSize(c);
        if TagFits(c, name, j, stripe[j].value) {
          good := good + 1;
        } else {
          stripe[j] := None;
          lost := lost || j < c.dc;
        }
      }
      assert stripe[..j + 1] == before + [stripe[j]];
      PresentOne(before, stripe[j]);
    }
    assert stripe[..stripe.Length] == stripe[..];
  }

  /** DataCoder.Recover. */
  method Recover(c: Scheme, name: Option<nat>, stripe: array<Shard>) returns (ok: bool)
    requires Sized(c) && stripe.Length == ChunkCount(c)
    modifies stripe
    ensures ok <==> Recovered(c, name, old(stripe[..])).Ok?
    ensures ok ==> stripe[..] == Recovered(c, name, old(stripe[..])).value
  {
    var direct, good, err := VerifyStripe(c, name, stripe);
    if err || good < c.dc {
      return false;
    }
    ok := RecoverField(c, name, stripe);
  }

  /** DataCoder.recoverField: both codes, the checks, then the missing fragments put together. */
  method RecoverField(c: Scheme, name: Option<nat>, stripe: array<Shard>) returns (ok: bool)
    requires Sized(c) && stripe.Length == ChunkCount(c) && Fits(c, stripe[..])
    modifies stripe
    ensures ok <==> Rebuilt(c, name, old(stripe[..])).Ok?
    ensures ok ==> stripe[..] == Rebuilt(c, name, old(stripe[..])).value
  {
    var segs := RestoreSegments(c, stripe);
    if segs.Err? {
      return false;
    }
    var tags := RestoreTags(c, stripe);
    if tags.Err? {
      return false;
    }
    ok := CheckRebuilt(c, name, stripe[..], segs.value, tags.value);
    if ok {
      Complete(c, name, stripe, segs.value, tags.value);
    }
  }

  lemma ValuesOfSomes(w: seq<Bytes>)
    ensures Values(Somes(w)) == w
  {
  }

  method RestoreSegments(c: Scheme, stripe: array<Shard>) returns (r: Result<seq<Bytes>>)
    requires Sized(c) && Fits(c, stripe[..])
    ensures r == Restored(c, c.dc, c.pc, SegmentShards(c, stripe[..]))
  {
    var dataGroup := CollectSegments(c, stripe);
    ghost var shards := dataGroup[..];
    var ok := RecoverData(c, c.dc, c.pc, dataGroup);
    if !ok {
      return Err;
    }
    ValuesOfSomes(Restored(c, c.dc, c.pc, shards).value);
    return Ok(Values(dataGroup[..]));
  }

  method RestoreTags(c: Scheme, stripe: array<Shard>) returns (r: Result<seq<Bytes>>)
    requires Sized(c) && stripe.Length == ChunkCount(c) && Fits(c, stripe[..])
    ensures r == TagWord(c, stripe[..])
  {
    var tagGroup := CollectTags(c, stripe);
    ghost var shards := tagGroup[..];
    var n, m := ChunkCount(c), Area(ChunkCount(c), c.tagCount - 1);
    var ok := RecoverData(c, n, m, tagGroup);
    if !ok {
      return Err;
    }
    ValuesOfSomes(Restored(c, n, m, shards).value);
    return Ok(Values(tagGroup[..]));
  }

  method CollectSegments(c: Scheme, stripe: array<Shard>) returns (group: array<Shard>)
    requires Sized(c) && Fits(c, stripe[..])
    ensures fresh(group) && group[..] == SegmentShards(c, stripe[..])
  {
    group := new Shard[stripe.Length];
    var s := stripe[..];
    for i := 0 to stripe.Length
      invariant forall j :: 0 <= j < i ==> group[j] == SegmentShards(c, s)[j]
    {
      group[i] := if s[i].Some? then Some(SegmentOf(c, s[i].value)) else None;
    }
  }

  method CollectTags(c: Scheme, stripe: array<Shard>) returns (group: array<Shard>)
    requires Sized(c) && Fits(c, stripe[..])
    ensures fresh(group) && group[..] == TagShards(c, stripe[..], c.tagCount)
  {
    var s := stripe[..];
    group := new Shard[Area(stripe.Length, c.tagCount)];
    for j := 0 to c.tagCount
      invariant Area(stripe.Length, j) <= group.Length
      invariant group[..Area(stripe.Length, j)] == TagShards(c, s, j)
    {
      AreaGrows(stripe.Length, j, c.tagCount);
      CollectRow(c, s, j, group, Area(stripe.Length, j));
    }
    assert group[..group.Length] == group[..];
  }

  method CollectRow(c: Scheme, s: seq<Shard>, row: nat, group: array<Shard>, from: nat)
    requires Sized(c) && Fits(c, s) && row < c.tagCount && from + |s| <= group.Length
    modifies group
    ensures group[..from + |s|] == old(group[..from]) + TagRow(c, s, row)
  {
    for i := 0 to |s|
      invariant group[..from] == old(group[..from])
      invariant forall k :: 0 <= k < i ==> group[from + k] == TagRow(c, s, row)[k]
    {
      group[from + i] := if s[i].Some? then Some(TagOf(c, s[i].value, row)) else None;
    }
  }

  method CheckRebuilt(c: Scheme, name: Option<nat>, t: seq<Shard>, segs: seq<Bytes>, tags: seq<Bytes>)
      returns (ok: bool)
    requires |t| == |segs| == ChunkCount(c) <= |tags| == Area(ChunkCount(c), c.tagCount)
    ensures ok <==> Completed(c, name, t, segs, tags).Ok?
  {
    ok := true;
    for j := 0 to |t|
      invariant ok <==> !exists i :: 0 <= i < j && t[i].None? && !RebuiltOk(c, name, i, segs[i], tags[i])
    {
      if t[j].None? && !RebuiltOk(c, name, j, segs[j], tags[j]) {
        ok := false;
      }
    }
  }

  method Complete(c: Scheme, name: Option<nat>, stripe: array<Shard>, segs: seq<Bytes>, tags: seq<Bytes>)
    requires stripe.Length == |segs| == ChunkCount(c) <= |tags| == Area(ChunkCount(c), c.tagCount)
    requires Completed(c, name, stripe[..], segs, tags).Ok?
    modifies stripe
    ensures stripe[..] == Completed(c, name, old(stripe[..]), segs, tags).value
  {
    var t := stripe[..];
    StartFragments(c, t, stripe, segs, tags);
    AppendTags(c, t, stripe, segs, tags);
    assert stripe[..] == Completed(c, name, t, segs, tags).value;
  }

  /** DataCoder.Decode. */
  method Decode(c: Scheme, name: Option<nat>, stripe: array<Shard>) returns (r: Result<Bytes>)
    requires Sized(c) && stripe.Length == ChunkCount(c)
    modifies stripe
    ensures r == Decoded(c, name, old(stripe[..]))
  {
    var direct, good, err := VerifyStripe(c, name, stripe);
    if err || good < c.dc {
      return Err;
    }
    if !direct {
      var ok := Recover(c, None, stripe);
      if !ok {
        return Err;
      }
    }
    r := ReadData(c, stripe[..]);
  }

  method ReadData(c: Scheme, s: seq<Shard>) returns (r: Result<Bytes>)
    requires Sized(c) && |s| == ChunkCount(c)
    ensures r == Read(c, s)
  {
    if !Direct(c, s) || !Fits(c, s[..c.dc]) {
      return Err;
    }
    var data := [];
    for j := 0 to c.dc
      invariant data == ReadOut(c, s, j)
    {
      data := data + SegmentOf(c, s[j].value);
    }
    return Ok(data);
  }
}
