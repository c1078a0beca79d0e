/** What recovery does with fragments that were altered but passed the check: exactly when Recover and
    Decode go right, and that with several data shards they never return wrong data. */
module Recovery {
  import opened Types
  import opened Arithmetic
  import opened Coder

  // ---- Codes detect what they cannot explain ----

  /** The shards that are those of the word. */
  ghost function Kept(s: seq<Shard>, w: seq<Bytes>): (t: seq<Shard>)
    requires |s| == |w|
    ensures |t| == |s| && forall i :: 0 <= i < |t| ==> t[i] == if s[i] == Some(w[i]) then s[i] else None
  {
    seq(|s|, i requires 0 <= i < |s| => if s[i] == Some(w[i]) then s[i] else None)
  }

  /** Two code words that agree with the same k shards are equal. */
  lemma WordsMeet(c: Scheme, k: nat, m: nat, s: seq<Shard>, w: seq<Bytes>, x: seq<Bytes>, len: nat)
    requires IdealCode(c) && c.rsOk(k, m) && CodeWord(c, k, m, w, len) && CodeWord(c, k, m, x, len)
    requires Agrees(s, x) && CountTrue(Intact(s, w)) >= k
    ensures x == w
  {
    var t := Kept(s, w);
    assert Mask(t) == Intact(s, w);
    assert Agrees(t, w) && Agrees(t, x);
    assert c.fill(k, m, t) == w;
    assert c.fill(k, m, t) == x;
  }

  /** What restoring returns is a code word that agrees with the shards there. */
  lemma RestoredIsWord(c: Scheme, k: nat, m: nat, s: seq<Shard>, i: nat, len: nat)
    requires IdealCode(c) && k > 1 && Restored(c, k, m, s).Ok?
    requires len > 0 && (forall j :: 0 <= j < |s| && s[j].Some? ==> |s[j].value| == len) && i < |s| && s[i].Some?
    ensures var x := Restored(c, k, m, s).value; CodeWord(c, k, m, x, len) && Agrees(s, x)
  {
    var x := Restored(c, k, m, s).value;
    if SameSizes(s, false) && ParityOk(c, k, m, Values(s)) {
      assert Len(s[i]) == ShardSize(s);
      forall j | 0 <= j < |s| ensures s[j] == Some(x[j]) && |x[j]| == len {
        assert Len(s[j]) == ShardSize(s);
      }
    } else {
      assert Agrees(s, x);
      assert Len(Somes(x)[i]) == ShardSize(Somes(x));
      forall j | 0 <= j < |x| ensures |x[j]| == len {
        assert Len(Somes(x)[j]) == ShardSize(Somes(x));
      }
    }
  }

  /** With k shards of a code word among them, shards of the right length are restored if and only if
      all of them belong to the word; anything else is an error. */
  lemma RestoredExact(c: Scheme, k: nat, m: nat, s: seq<Shard>, w: seq<Bytes>, len: nat)
    requires IdealCode(c) && c.rsOk(k, m) && k > 1 && CodeWord(c, k, m, w, len) && |s| == |w|
    requires forall j :: 0 <= j < |s| && s[j].Some? ==> |s[j].value| == len
    requires CountTrue(Intact(s, w)) >= k
    ensures Restored(c, k, m, s) == if Agrees(s, w) then Ok(w) else Err
  {
    CountMonotone(Intact(s, w), Mask(s));
    if Agrees(s, w) {
      RestoresWord(c, k, m, s, w, len);
    } else if Restored(c, k, m, s).Ok? {
      PresentSome(Intact(s, w));
      var i :| 0 <= i < |s| && Intact(s, w)[i];
      RestoredIsWord(c, k, m, s, i, len);
      WordsMeet(c, k, m, s, w, Restored(c, k, m, s).value, len);
    }
  }

  // ---- Segments and tags of fragments ----

  ghost predicate SegmentsRight(c: Scheme, t: seq<Shard>, segs: seq<Bytes>)
    requires Sized(c) && Fits(c, t) && |t| == |segs|
  {
    forall j :: 0 <= j < |t| && t[j].Some? ==> SegmentOf(c, t[j].value) == segs[j]
  }

  /** The r-th tag that fragment j should have. */
  ghost function Wanted(c: Scheme, tags: seq<Bytes>, j: nat, r: nat): Bytes
    requires |tags| == Area(ChunkCount(c), c.tagCount) && j < ChunkCount(c) && r < c.tagCount
  {
    AreaGrows(ChunkCount(c), r, c.tagCount);
    tags[Area(ChunkCount(c), r) + j]
  }

  /** Every tag of every fragment there is the encoded one. */
  ghost predicate TagsRight(c: Scheme, t: seq<Shard>, tags: seq<Bytes>)
    requires Sized(c) && |tags| == Area(ChunkCount(c), c.tagCount) && Fits(c, t) && |t| == ChunkCount(c)
  {
    forall r :: 0 <= r < c.tagCount ==> RowRight(c, t, tags, r)
  }

  ghost predicate RowRight(c: Scheme, t: seq<Shard>, tags: seq<Bytes>, r: nat)
    requires Sized(c) && |tags| == Area(ChunkCount(c), c.tagCount)
    requires Fits(c, t) && |t| == ChunkCount(c) && r < c.tagCount
  {
    forall j :: 0 <= j < |t| && t[j].Some? ==> TagOf(c, t[j].value, r) == Wanted(c, tags, j, r)
  }

  lemma RowAgrees(c: Scheme, t: seq<Shard>, tags: seq<Bytes>, r: nat)
    requires Sized(c) && |tags| == Area(ChunkCount(c), c.tagCount)
    requires Fits(c, t) && |t| == ChunkCount(c) && r < c.tagCount
    ensures var from := Area(ChunkCount(c), r);
      && from + ChunkCount(c) <= |tags|
      && (Agrees(TagRow(c, t, r), tags[from..from + ChunkCount(c)]) <==> RowRight(c, t, tags, r))
  {
    var from := Area(ChunkCount(c), r);
    AreaGrows(ChunkCount(c), r, c.tagCount);
    var row, want := TagRow(c, t, r), tags[from..from + ChunkCount(c)];
    forall j | 0 <= j < |t| ensures want[j] == Wanted(c, tags, j, r) {
    }
    if Agrees(row, want) {
      forall j | 0 <= j < |t| && t[j].Some? ensures TagOf(c, t[j].value, r) == Wanted(c, tags, j, r) {
        assert row[j] == Some(want[j]);
      }
    }
  }

  lemma AgreesSplit(s: seq<Shard>, w: seq<Bytes>, s': seq<Shard>, w': seq<Bytes>)
    requires |s| == |w| && |s'| == |w'|
    ensures Agrees(s + s', w + w') <==> Agrees(s, w) && Agrees(s', w')
  {
    if Agrees(s + s', w + w') {
      forall i | 0 <= i < |s| ensures s[i] == None || s[i] == Some(w[i]) {
        assert (s + s')[i] == s[i] && (w + w')[i] == w[i];
      }
      forall i | 0 <= i < |s'| ensures s'[i] == None || s'[i] == Some(w'[i]) {
        assert (s + s')[|s| + i] == s'[i] && (w + w')[|w| + i] == w'[i];
      }
    }
  }

  /** Right rows make agreeing tags. */
  lemma {:induction false} RowsMakeTags(c: Scheme, t: seq<Shard>, tags: seq<Bytes>, rows: nat)
    requires Sized(c) && |tags| == Area(ChunkCount(c), c.tagCount) && Fits(c, t)
    requires |t| == ChunkCount(c) && rows <= c.tagCount && TagsRight(c, t, tags)
    ensures Area(ChunkCount(c), rows) <= |tags| && Agrees(TagShards(c, t, rows), tags[..Area(ChunkCount(c), rows)])
  {
    if rows > 0 {
      RowsMakeTags(c, t, tags, rows - 1);
      assert RowRight(c, t, tags, rows - 1);
      RowAgrees(c, t, tags, rows - 1);
      OneMoreRow(TagShards(c, t, rows - 1), TagRow(c, t, rows - 1), tags, Area(ChunkCount(c), rows - 1));
    }
  }

  /** Where a tag is kept. */
  lemma {:induction false} TagAt(c: Scheme, t: seq<Shard>, rows: nat, r: nat, j: nat)
    requires Sized(c) && Fits(c, t) && rows <= c.tagCount && r < rows && j < |t|
    ensures Area(|t|, r) + j < Area(|t|, rows) && TagShards(c, t, rows)[Area(|t|, r) + j] == TagRow(c, t, r)[j]
  {
    AreaGrows(|t|, r, rows);
    if r < rows - 1 { TagAt(c, t, rows - 1, r, j); }
  }

  lemma TagsMakeRow(c: Scheme, t: seq<Shard>, tags: seq<Bytes>, r: nat)
    requires Sized(c) && |tags| == Area(ChunkCount(c), c.tagCount)
    requires Fits(c, t) && |t| == ChunkCount(c) && r < c.tagCount
    requires Agrees(TagShards(c, t, c.tagCount), tags)
    ensures RowRight(c, t, tags, r)
  {
    RowAgrees(c, t, tags, r);
    var from := Area(ChunkCount(c), r);
    var row, want := TagRow(c, t, r), tags[from..from + ChunkCount(c)];
    forall j | 0 <= j < |t| ensures row[j] == None || row[j] == Some(want[j]) {
      TagAt(c, t, c.tagCount, r, j);
    }
  }

  lemma OneMoreRow(above: seq<Shard>, row: seq<Shard>, tags: seq<Bytes>, from: nat)
    requires |above| == from && from + |row| <= |tags|
    ensures Agrees(above + row, tags[..from + |row|]) <==>
            Agrees(above, tags[..from]) && Agrees(row, tags[from..from + |row|])
  {
    assert tags[..from + |row|] == tags[..from] + tags[from..from + |row|];
    AgreesSplit(above, tags[..from], row, tags[from..from + |row|]);
  }

  /** Fewer fragments, fewer tags, and otherwise the same. */
  lemma {:induction false} FewerTags(c: Scheme, t: seq<Shard>, u: seq<Shard>, rows: nat)
    requires Sized(c) && Fits(c, t) && Fits(c, u) && |u| == |t| && rows <= c.tagCount
    requires forall i :: 0 <= i < |t| ==> u[i] == None || u[i] == t[i]
    ensures forall n ::
              0 <= n < Area(|t|, rows) ==>
                TagShards(c, u, rows)[n] == None || TagShards(c, u, rows)[n] == TagShards(c, t, rows)[n]
  {
    if rows > 0 {
      FewerTags(c, t, u, rows - 1);
    }
  }

  lemma {:induction false} TagLengths(c: Scheme, t: seq<Shard>, rows: nat)
    requires Sized(c) && Fits(c, t) && rows <= c.tagCount
    ensures forall n ::
              0 <= n < Area(|t|, rows) && TagShards(c, t, rows)[n].Some? ==>
                |TagShards(c, t, rows)[n].value| == c.tagSize
  {
    if rows > 0 {
      TagLengths(c, t, rows - 1);
      var above, all := Area(|t|, rows - 1), TagShards(c, t, rows);
      forall n | 0 <= n < Area(|t|, rows) && all[n].Some? ensures |all[n].value| == c.tagSize {
        if n >= above {
          assert all[n] == TagRow(c, t, rows - 1)[n - above];
        } else {
          assert all[n] == TagShards(c, t, rows - 1)[n];
        }
      }
    }
  }

  /** Enough intact fragments leave enough intact tags. */
  lemma IntactTags(c: Scheme, t: seq<Shard>, segs: seq<Bytes>, tags: seq<Bytes>, f: seq<Bytes>)
    requires Sized(c) && c.tagCount == TagCount(c.dc, c.pc)
    requires Shape(c, segs, tags) && Fits(c, t) && |t| == |f| == ChunkCount(c)
    requires forall j :: 0 <= j < |f| ==> f[j] == Fragment(c, segs, tags, j)
    requires CountTrue(Intact(t, f)) >= c.dc
    ensures CountTrue(Intact(TagShards(c, t, c.tagCount), tags)) >= ChunkCount(c)
  {
    var u := Kept(t, f);
    assert Mask(u) == Intact(t, f);
    OfStripeSegments(c, u, segs, tags);
    TagsSuffice(c, u);
    FewerTags(c, t, u, c.tagCount);
    OfStripeTags(c, u, segs, tags, c.tagCount);
    assert tags[..|tags|] == tags;
    CountMonotone(Mask(TagShards(c, u, c.tagCount)), Intact(TagShards(c, t, c.tagCount), tags));
  }

  /** The tag word comes back if and only if every tag there is right. */
  lemma TagWordExact(c: Scheme, t: seq<Shard>, tags: seq<Bytes>)
    requires Sized(c) && IdealCode(c) && CodesExist(c)
    requires |tags| == Area(ChunkCount(c), c.tagCount) && Fits(c, t) && |t| == ChunkCount(c)
    requires CodeWord(c, ChunkCount(c), Area(ChunkCount(c), c.tagCount - 1), tags, c.tagSize)
    requires CountTrue(Intact(TagShards(c, t, c.tagCount), tags)) >= ChunkCount(c)
    ensures TagWord(c, t) == if TagsRight(c, t, tags) then Ok(tags) else Err
  {
    TagShardsAgree(c, t, tags);
    RestoredTags(c, t, ChunkCount(c), Area(ChunkCount(c), c.tagCount - 1), tags);
  }

  lemma RestoredTags(c: Scheme, t: seq<Shard>, n: nat, m: nat, tags: seq<Bytes>)
    requires Sized(c) && IdealCode(c) && c.rsOk(n, m) && n > 1 && CodeWord(c, n, m, tags, c.tagSize)
    requires |tags| == Area(|t|, c.tagCount) && Fits(c, t)
    requires CountTrue(Intact(TagShards(c, t, c.tagCount), tags)) >= n
    ensures Restored(c, n, m, TagShards(c, t, c.tagCount))
            == if Agrees(TagShards(c, t, c.tagCount), tags) then Ok(tags) else Err
  {
    TagLengths(c, t, c.tagCount);
    RestoredExact(c, n, m, TagShards(c, t, c.tagCount), tags, c.tagSize);
  }

  lemma TagShardsAgree(c: Scheme, t: seq<Shard>, tags: seq<Bytes>)
    requires Sized(c) && |tags| == Area(ChunkCount(c), c.tagCount) && Fits(c, t) && |t| == ChunkCount(c)
    ensures Agrees(TagShards(c, t, c.tagCount), tags) <==> TagsRight(c, t, tags)
  {
    if TagsRight(c, t, tags) {
      RowsMakeTags(c, t, tags, c.tagCount);
      assert tags[..|tags|] == tags;
    }
    if Agrees(TagShards(c, t, c.tagCount), tags) {
      forall r | 0 <= r < c.tagCount ensures RowRight(c, t, tags, r) {
        TagsMakeRow(c, t, tags, r);
      }
    }
  }

  /** With several data shards the segments come back if and only if every segment there is right. */
  lemma SegmentWordExact(c: Scheme, t: seq<Shard>, segs: seq<Bytes>, tags: seq<Bytes>, f: seq<Bytes>)
    requires Sized(c) && IdealCode(c) && CodesExist(c) && c.dc > 1
    requires Shape(c, segs, tags) && Fits(c, t) && |t| == |f| == ChunkCount(c)
    requires CodeWord(c, c.dc, c.pc, segs, c.segSize)
    requires forall j :: 0 <= j < |f| ==> f[j] == Fragment(c, segs, tags, j)
    requires CountTrue(Intact(t, f)) >= c.dc
    ensures Restored(c, c.dc, c.pc, SegmentShards(c, t)) == if SegmentsRight(c, t, segs) then Ok(segs) else Err
  {
    var s := SegmentShards(c, t);
    forall j | 0 <= j < |t| && t[j] == Some(f[j]) ensures s[j] == Some(segs[j]) {
      FragmentParts(c, segs, tags, j, 0);
    }
    CountMonotone(Intact(t, f), Intact(s, segs));
    RestoredExact(c, c.dc, c.pc, s, segs, c.segSize);
    assert Agrees(s, segs) <==> SegmentsRight(c, t, segs);
  }

  // ---- A fragment is its prefix, its segment and its tags ----

  lemma {:induction false} ColumnFromTags(c: Scheme, g: Bytes, f: Bytes, rows: nat)
    requires Sized(c) && |g| == |f| == FragmentSize(c) && rows <= c.tagCount
    requires forall r :: 0 <= r < rows ==> TagOf(c, g, r) == TagOf(c, f, r)
    ensures var from := PREFIX_LEN + c.segSize;
            from + Area(c.tagSize, rows) <= |g|
              && g[from..from + Area(c.tagSize, rows)] == f[from..from + Area(c.tagSize, rows)]
  {
    if rows > 0 {
      ColumnFromTags(c, g, f, rows - 1);
      assert TagOf(c, g, rows - 1) == TagOf(c, f, rows - 1);
      if rows < c.tagCount { AreaGrows(c.tagSize, rows, c.tagCount); }
      var from := PREFIX_LEN + c.segSize;
      var mid, end := from + Area(c.tagSize, rows - 1), from + Area(c.tagSize, rows);
      assert g[from..end] == g[from..mid] + g[mid..end] && f[from..end] == f[from..mid] + f[mid..end];
    }
  }

  lemma SameFragment(c: Scheme, g: Bytes, f: Bytes)
    requires Sized(c) && |g| == |f| == FragmentSize(c)
    requires g[..PREFIX_LEN] == f[..PREFIX_LEN] && SegmentOf(c, g) == SegmentOf(c, f)
    requires forall r :: 0 <= r < c.tagCount ==> TagOf(c, g, r) == TagOf(c, f, r)
    ensures g == f
  {
    ColumnFromTags(c, g, f, c.tagCount);
    var from := PREFIX_LEN + c.segSize;
    assert g == g[..PREFIX_LEN] + g[PREFIX_LEN..from] + g[from..]
           && f == f[..PREFIX_LEN] + f[PREFIX_LEN..from] + f[from..];
    assert g[from..] == g[from..from + Area(c.tagSize, c.tagCount)]
           && f[from..] == f[from..from + Area(c.tagSize, c.tagCount)];
  }

  // ---- Recover ----

  /** What the check makes sure of: fragments of the right length and prefix, enough of them intact. */
  ghost predicate Checked(c: Scheme, t: seq<Shard>, f: seq<Bytes>)
    requires Sized(c)
  {
    && |t| == |f| == ChunkCount(c) && Fits(c, t)
    && (forall j :: 0 <= j < |t| && t[j].Some? ==> t[j].value[..PREFIX_LEN] == c.pre)
    && CountTrue(Intact(t, f)) >= c.dc
  }

  /** A stripe as Encode makes it, with the code words behind it. */
  ghost predicate Laid(c: Scheme, segs: seq<Bytes>, tags: seq<Bytes>, f: seq<Bytes>)
    requires Sized(c)
  {
    && c.tagCount == TagCount(c.dc, c.pc) && IdealCode(c) && CodesExist(c) && Shape(c, segs, tags)
    && CodeWord(c, c.dc, c.pc, segs, c.segSize)
    && CodeWord(c, ChunkCount(c), Area(ChunkCount(c), c.tagCount - 1), tags, c.tagSize)
    && |f| == ChunkCount(c) && forall j :: 0 <= j < |f| ==> f[j] == Fragment(c, segs, tags, j)
  }

  lemma EncodedIsLaid(c: Scheme, name: nat, data: Bytes)
    requires Sound(c) && Encoded(c, name, data).Ok?
    ensures Laid(c, Segments(c, data), Tags(c, name, Segments(c, data)), Encoded(c, name, data).value)
  {
    StripeShape(c, name, data);
  }

  /** One fragment is right if and only if its segment and all its tags are. */
  lemma PartRight(c: Scheme, g: Bytes, segs: seq<Bytes>, tags: seq<Bytes>, j: nat)
    requires Sized(c) && Shape(c, segs, tags) && j < ChunkCount(c)
    requires |g| == FragmentSize(c) && g[..PREFIX_LEN] == c.pre
    ensures g == Fragment(c, segs, tags, j) <==>
              SegmentOf(c, g) == segs[j] && forall r :: 0 <= r < c.tagCount ==> TagOf(c, g, r) == Wanted(c, tags, j, r)
  {
    var f := Fragment(c, segs, tags, j);
    FragmentParts(c, segs, tags, j, 0);
    forall r | 0 <= r < c.tagCount ensures |f| == FragmentSize(c) && TagOf(c, f, r) == Wanted(c, tags, j, r) {
      FragmentParts(c, segs, tags, j, r);
    }
    if SegmentOf(c, g) == segs[j] && forall r :: 0 <= r < c.tagCount ==> TagOf(c, g, r) == Wanted(c, tags, j, r) {
      SameFragment(c, g, f);
    }
  }

  /** Right segments and right tags make right fragments. */
  lemma PartsRight(c: Scheme, t: seq<Shard>, segs: seq<Bytes>, tags: seq<Bytes>, f: seq<Bytes>)
    requires Sized(c) && Laid(c, segs, tags, f) && Checked(c, t, f)
    ensures Agrees(t, f) <==> SegmentsRight(c, t, segs) && TagsRight(c, t, tags)
  {
    forall j | 0 <= j < |t| && t[j].Some?
      ensures t[j] == Some(f[j]) <==>
                SegmentOf(c, t[j].value) == segs[j]
                && forall r :: 0 <= r < c.tagCount ==> TagOf(c, t[j].value, r) == Wanted(c, tags, j, r)
    {
      PartRight(c, t[j].value, segs, tags, j);
    }
    if Agrees(t, f) {
      forall r | 0 <= r < c.tagCount ensures RowRight(c, t, tags, r) {
      }
    }
    if SegmentsRight(c, t, segs) && TagsRight(c, t, tags) {
      forall j, r | 0 <= j < |t| && t[j].Some? && 0 <= r < c.tagCount
        ensures TagOf(c, t[j].value, r) == Wanted(c, tags, j, r)
      {
        assert RowRight(c, t, tags, r);
      }
    }
  }

  /** Rebuilding needs every tag there to be right and, with several data shards, every segment. */
  lemma RebuiltNeeds(c: Scheme, key: Option<nat>, t: seq<Shard>, segs: seq<Bytes>, tags: seq<Bytes>, f: seq<Bytes>)
    requires Sized(c) && Laid(c, segs, tags, f) && Checked(c, t, f)
    ensures Rebuilt(c, key, t).Ok? ==> TagsRight(c, t, tags) && TagWord(c, t) == Ok(tags)
    ensures Rebuilt(c, key, t).Ok? && c.dc > 1 ==> Agrees(t, f)
  {
    IntactTags(c, t, segs, tags, f);
    TagWordExact(c, t, tags);
    if c.dc > 1 {
      SegmentWordExact(c, t, segs, tags, f);
      PartsRight(c, t, segs, tags, f);
    }
  }

  /** Survivors of the check, and which of them are intact. */
  lemma SurvivorsChecked(c: Scheme, name: nat, key: Option<nat>, data: Bytes, s: seq<Shard>)
    requires Sound(c) && Encoded(c, name, data).Ok? && |s| == ChunkCount(c)
    requires key == None || key == Some(name)
    requires CountTrue(Intact(s, Encoded(c, name, data).value)) >= c.dc
    ensures Checked(c, Survivors(c, key, s), Encoded(c, name, data).value)
    ensures !StripeErr(c, s) && Present(Survivors(c, key, s)) >= c.dc
  {
    IntactSurvive(c, name, key, data, s);
    IntactPass(c, name, key, data, s);
    KeptSurvive(c, key, s, Encoded(c, name, data).value);
  }

  lemma IntactPass(c: Scheme, name: nat, key: Option<nat>, data: Bytes, s: seq<Shard>)
    requires Sound(c) && Encoded(c, name, data).Ok? && |s| == ChunkCount(c) && (key == None || key == Some(name))
    ensures forall j :: 0 <= j < |s| && s[j] == Some(Encoded(c, name, data).value[j]) ==> Passes(c, key, j, s[j])
  {
    forall j | 0 <= j < |s| && s[j] == Some(Encoded(c, name, data).value[j]) ensures Passes(c, key, j, s[j]) {
      EncodedPasses(c, name, key, data, j);
    }
  }

  lemma KeptSurvive(c: Scheme, key: Option<nat>, s: seq<Shard>, f: seq<Bytes>)
    requires Sized(c) && |s| == |f| == ChunkCount(c) && CountTrue(Intact(s, f)) >= c.dc
    requires forall j :: 0 <= j < |s| && s[j] == Some(f[j]) ==> Passes(c, key, j, s[j])
    ensures Checked(c, Survivors(c, key, s), f)
  {
    CountMonotone(Intact(s, f), Intact(Survivors(c, key, s), f));
  }

  lemma SurvivorsHonest(c: Scheme, key: Option<nat>, s: seq<Shard>, f: seq<Bytes>)
    requires Sized(c) && |s| == |f|
    ensures Agrees(Survivors(c, key, s), f) <==> Honest(c, key, s, f)
  {
    var t := Survivors(c, key, s);
    forall j | 0 <= j < |s|
      ensures (t[j] == None || t[j] == Some(f[j])) <==> (Passes(c, key, j, s[j]) ==> s[j] == Some(f[j])) {
    }
    if Agrees(t, f) {
      forall j | 0 <= j < |s| && Passes(c, key, j, s[j]) ensures s[j] == Some(f[j]) {
        assert t[j] == s[j];
      }
    }
  }

  /** With several data shards, Recover gives back the encoded stripe if every fragment that passes the
      check is intact, and an error otherwise: never anything else. */
  lemma RecoverExact(c: Scheme, name: nat, key: Option<nat>, data: Bytes, s: seq<Shard>)
    requires Sound(c) && Encoded(c, name, data).Ok? && |s| == ChunkCount(c) && c.dc > 1
    requires key == None || key == Some(name)
    requires CountTrue(Intact(s, Encoded(c, name, data).value)) >= c.dc
    ensures var f := Encoded(c, name, data).value;
            Recovered(c, key, s) == if Honest(c, key, s, f) then Ok(Somes(f)) else Err
  {
    var f := Encoded(c, name, data).value;
    SurvivorsChecked(c, name, key, data, s);
    SurvivorsHonest(c, key, s, f);
    if Honest(c, key, s, f) {
      RecoverFromHonest(c, name, key, data, s);
    } else {
      EncodedIsLaid(c, name, data);
      RebuiltNeeds(c, key, Survivors(c, key, s), Segments(c, data), Tags(c, name, Segments(c, data)), f);
    }
  }

  /** The first failing family: a fragment altered past its first tag passes the check and makes
      recovery fail, under either policy and with or without a name. */
  lemma AlteredTailFails(c: Scheme, name: nat, key: Option<nat>, data: Bytes, s: seq<Shard>, j: nat, g: Bytes)
    requires Sound(c) && Encoded(c, name, data).Ok? && |s| == ChunkCount(c) && j < |s|
    requires key == None || key == Some(name)
    requires CountTrue(Intact(s, Encoded(c, name, data).value)) >= c.dc
    requires s[j] == Some(g) && g != Encoded(c, name, data).value[j]
    requires |g| == FragmentSize(c) && PREFIX_LEN + c.segSize + c.tagSize <= |g|
    requires var f := Encoded(c, name, data).value[j];
      |f| == |g| && f[..PREFIX_LEN + c.segSize + c.tagSize] == g[..PREFIX_LEN + c.segSize + c.tagSize]
    ensures Passes(c, key, j, s[j]) && Recovered(c, key, s).Err?
  {
    var f, segs, t := Encoded(c, name, data).value, Segments(c, data), Survivors(c, key, s);
    var tags := Tags(c, name, segs);
    EncodedPasses(c, name, key, data, j);
    TailUnchecked(c, key, j, f[j], g);
    SurvivorsChecked(c, name, key, data, s);
    EncodedIsLaid(c, name, data);
    RebuiltNeeds(c, key, t, segs, tags, f);
    AlteredTailWrong(c, t, segs, tags, f, j);
  }

  lemma AlteredTailWrong(c: Scheme, t: seq<Shard>, segs: seq<Bytes>, tags: seq<Bytes>, f: seq<Bytes>, j: nat)
    requires Sized(c) && Laid(c, segs, tags, f) && Checked(c, t, f) && j < |t|
    requires t[j].Some? && t[j].value != f[j] && |f[j]| == FragmentSize(c)
    requires var n := PREFIX_LEN + c.segSize + c.tagSize; n <= |f[j]| && f[j][..n] == t[j].value[..n]
    ensures !TagsRight(c, t, tags)
  {
    var g, n := t[j].value, PREFIX_LEN + c.segSize + c.tagSize;
    if TagsRight(c, t, tags) {
      forall r | 0 <= r < c.tagCount ensures TagOf(c, g, r) == TagOf(c, f[j], r) {
        assert RowRight(c, t, tags, r);
        FragmentParts(c, segs, tags, j, r);
      }
      SameSlice(f[j], g, n, 0, PREFIX_LEN);
      SameSlice(f[j], g, n, PREFIX_LEN, PREFIX_LEN + c.segSize);
      SameFragment(c, g, f[j]);
    }
  }

  // ---- Decode ----

  lemma {:induction false} JoinedInjective(a: seq<Bytes>, b: seq<Bytes>, len: nat)
    requires |a| == |b| && Even(a, len) && Even(b, len) && Joined(a) == Joined(b)
    ensures a == b
  {
    if a != [] {
      var n, x := |a| - 1, Joined(a);
      assert a[n] == x[|x| - len..] && b[n] == x[|x| - len..];
      assert Joined(a[..n]) == x[..|x| - len] && Joined(b[..n]) == x[..|x| - len];
      JoinedInjective(a[..n], b[..n], len);
      assert a == a[..n] + [a[n]] && b == b[..n] + [b[n]];
    }
  }

  /** The bytes of a stripe are the data segments one after the other. */
  lemma PaddedIsJoined(c: Scheme, data: Bytes)
    requires c.dc > 0 && |data| <= Area(c.segSize, c.dc)
    ensures |Segments(c, data)| >= c.dc && Padded(c, data) == Joined(Segments(c, data)[..c.dc])
  {
    var d := Padded(c, data);
    assert Segments(c, data)[..c.dc] == Pieces(d, c.segSize, c.dc);
    JoinPieces(d, c.segSize, c.dc);
    assert d[..Area(c.segSize, c.dc)] == d;
  }

  /** A direct read is right if and only if the segments read are. */
  lemma DirectExact(c: Scheme, segs: seq<Bytes>, t: seq<Shard>)
    requires Sized(c) && |t| == ChunkCount(c) && Fits(c, t) && Direct(c, t) && |segs| >= c.dc && Even(segs, c.segSize)
    ensures Read(c, t).Ok?
    ensures Read(c, t) == Ok(Joined(segs[..c.dc])) <==>
            forall j :: 0 <= j < c.dc ==> SegmentOf(c, t[j].value) == segs[j]
  {
    var mine := DataSegments(c, t);
    ReadOutIs(c, t, mine, c.dc);
    assert mine[..c.dc] == mine;
    if Joined(mine) == Joined(segs[..c.dc]) {
      JoinedInjective(mine, segs[..c.dc], c.segSize);
    } else {
      assert mine != segs[..c.dc];
      var j :| 0 <= j < c.dc && mine[j] != segs[..c.dc][j];
    }
  }

  ghost function DataSegments(c: Scheme, t: seq<Shard>): (w: seq<Bytes>)
    requires Sized(c) && Fits(c, t) && Direct(c, t)
    ensures |w| == c.dc && Even(w, c.segSize) && forall j :: 0 <= j < c.dc ==> w[j] == SegmentOf(c, t[j].value)
  {
    seq(c.dc, j requires 0 <= j < c.dc => SegmentOf(c, t[j].value))
  }

  /** Survivors of any check survive the one without a name. */
  lemma SurviveAgain(c: Scheme, key: Option<nat>, s: seq<Shard>)
    requires Sized(c)
    ensures Survivors(c, None, Survivors(c, key, s)) == Survivors(c, key, s)
  {
    var t := Survivors(c, key, s);
    forall j | 0 <= j < |t| ensures Survivors(c, None, t)[j] == t[j] {
    }
  }

  lemma IndirectMany(c: Scheme, name: nat, key: Option<nat>, data: Bytes, s: seq<Shard>)
    requires Sound(c) && Encoded(c, name, data).Ok? && |s| == ChunkCount(c) && c.dc > 1
    requires key == None || key == Some(name)
    requires CountTrue(Intact(s, Encoded(c, name, data).value)) >= c.dc && !Direct(c, Survivors(c, key, s))
    ensures Decoded(c, key, s) == if Honest(c, key, s, Encoded(c, name, data).value) then Ok(Padded(c, data)) else Err
  {
    var f, t := Encoded(c, name, data).value, Survivors(c, key, s);
    SurvivorsChecked(c, name, key, data, s);
    SurvivorsHonest(c, key, s, f);
    SurvivorsHonest(c, None, t, f);
    SurviveAgain(c, key, s);
    RecoverExact(c, name, None, data, t);
    if Honest(c, key, s, f) { ReadEncoded(c, name, data, Somes(f)); }
  }

  // ---- One data shard ----

  lemma {:induction false} SameFirst(s: seq<Shard>, t: seq<Shard>)
    requires |s| == |t| && forall i :: 0 <= i < |s| ==> (s[i].Some? <==> t[i].Some?)
    ensures FirstPresent(s) == FirstPresent(t)
  {
    if s != [] { SameFirst(s[1..], t[1..]); }
  }

  /** The segments recovery works with when there is one data shard: gaps get the first one there. */
  ghost function Copies(c: Scheme, t: seq<Shard>): (w: seq<Bytes>)
    requires Sized(c) && Fits(c, t) && FirstPresent(t) < |t|
    ensures |w| == |t| && Even(w, c.segSize)
    ensures forall j :: 0 <= j < |t| ==> w[j] == SegmentOf(c, t[if t[j].Some? then j else FirstPresent(t)].value)
  {
    seq(|t|, j requires 0 <= j < |t| => SegmentOf(c, t[if t[j].Some? then j else FirstPresent(t)].value))
  }

  lemma CopiesRestored(c: Scheme, t: seq<Shard>)
    requires Sized(c) && c.dc == 1 && Fits(c, t) && FirstPresent(t) < |t|
    ensures Restored(c, 1, c.pc, SegmentShards(c, t)) == Ok(Copies(c, t))
  {
    SameFirst(SegmentShards(c, t), t);
    assert Restored(c, 1, c.pc, SegmentShards(c, t)).value == Copies(c, t);
  }

  /** With one data shard the nameless recovery succeeds if and only if every tag there is right; the
      first segment there stands in for the missing ones, right or not. */
  lemma RebuiltFromOne(c: Scheme, segs: seq<Bytes>, tags: seq<Bytes>, f: seq<Bytes>, t: seq<Shard>)
    requires Sized(c) && c.dc == 1 && Laid(c, segs, tags, f) && Checked(c, t, f)
    ensures FirstPresent(t) < |t|
    ensures Rebuilt(c, None, t) == if TagsRight(c, t, tags) then Completed(c, None, t, Copies(c, t), tags) else Err
  {
    SomePresent(t, f);
    CopiesRestored(c, t);
    IntactTags(c, t, segs, tags, f);
    TagWordExact(c, t, tags);
  }

  lemma SomePresent(t: seq<Shard>, f: seq<Bytes>)
    requires |t| == |f| && CountTrue(Intact(t, f)) > 0
    ensures FirstPresent(t) < |t|
  {
    PresentSome(Intact(t, f));
    var i :| 0 <= i < |t| && Intact(t, f)[i];
    FirstPresentFinds(t, i);
  }

  lemma CompletedFromOne(c: Scheme, tags: seq<Bytes>, t: seq<Shard>)
    requires Sized(c) && c.dc == 1 && |t| == ChunkCount(c) && Fits(c, t) && FirstPresent(t) < |t| && t[0].None?
    requires |tags| == Area(ChunkCount(c), c.tagCount) >= ChunkCount(c) && Even(tags, c.tagSize)
    requires forall j :: 0 <= j < |t| ==> c.wellFormed(tags[j])
    ensures var r := Completed(c, None, t, Copies(c, t), tags);
      r.Ok? && Read(c, r.value) == Ok(SegmentOf(c, t[FirstPresent(t)].value))
  {
    var w := Copies(c, t);
    var r := Completed(c, None, t, w, tags).value;
    FragmentParts(c, w, tags, 0, 0);
    assert r[0] == Some(Fragment(c, w, tags, 0));
    ReadOne(c, r);
  }

  lemma ReadOne(c: Scheme, r: seq<Shard>)
    requires Sized(c) && c.dc == 1 && |r| == ChunkCount(c) && r[0].Some? && |r[0].value| == FragmentSize(c)
    ensures Read(c, r) == Ok(SegmentOf(c, r[0].value))
  {
    var seg := SegmentOf(c, r[0].value);
    assert ReadOut(c, r, 0) == [];
    assert ReadOut(c, r, 1) == [] + seg;
    assert [] + seg == seg;
    assert Direct(c, r) && Fits(c, r[..1]);
  }

  lemma TagsWellFormed(c: Scheme, name: nat, segs: seq<Bytes>)
    requires Sound(c)
    ensures |Tags(c, name, segs)| >= |segs| && forall j :: 0 <= j < |segs| ==> c.wellFormed(Tags(c, name, segs)[j])
  {
    RebuiltPass(c, name, None, segs);
    forall j | 0 <= j < |segs| ensures c.wellFormed(Tags(c, name, segs)[j]) {
      assert RebuiltOk(c, None, j, segs[j], Tags(c, name, segs)[j]);
    }
  }

  lemma IndirectOne(c: Scheme, name: nat, key: Option<nat>, data: Bytes, s: seq<Shard>)
    requires Sound(c) && Encoded(c, name, data).Ok? && |s| == ChunkCount(c) && c.dc == 1
    requires key == None || key == Some(name)
    requires CountTrue(Intact(s, Encoded(c, name, data).value)) >= c.dc && !Direct(c, Survivors(c, key, s))
    ensures var t, segs := Survivors(c, key, s), Segments(c, data);
      var tags := Tags(c, name, segs);
      && FirstPresent(t) < |t| && Shape(c, segs, tags)
      && Decoded(c, key, s) == if TagsRight(c, t, tags) then Ok(SegmentOf(c, t[FirstPresent(t)].value)) else Err
  {
    var segs := Segments(c, data);
    EncodedIsLaid(c, name, data);
    TagsWellFormed(c, name, segs);
    SurvivorsChecked(c, name, key, data, s);
    DecodedIndirect(c, key, s);
    FirstMissing(c, Survivors(c, key, s));
    RebuiltReads(c, segs, Tags(c, name, segs), Encoded(c, name, data).value, Survivors(c, key, s));
  }

  lemma FirstMissing(c: Scheme, t: seq<Shard>)
    requires c.dc == 1 && |t| == ChunkCount(c) && !Direct(c, t)
    ensures t[0].None?
  {
  }

  lemma RebuiltReads(c: Scheme, segs: seq<Bytes>, tags: seq<Bytes>, f: seq<Bytes>, t: seq<Shard>)
    requires Sized(c) && c.dc == 1 && Laid(c, segs, tags, f) && Checked(c, t, f) && t[0].None?
    requires |tags| >= ChunkCount(c) && forall j :: 0 <= j < ChunkCount(c) ==> c.wellFormed(tags[j])
    ensures FirstPresent(t) < |t|
    ensures var r := Rebuilt(c, None, t);
      && (r.Ok? <==> TagsRight(c, t, tags))
      && (r.Ok? ==> |r.value| == |t| && Read(c, r.value) == Ok(SegmentOf(c, t[FirstPresent(t)].value)))
  {
    RebuiltFromOne(c, segs, tags, f, t);
    CompletedFromOne(c, tags, t);
  }

  /** A read that is not direct: rebuild the survivors, then read. */
  lemma DecodedIndirect(c: Scheme, key: Option<nat>, s: seq<Shard>)
    requires Sized(c) && |s| == ChunkCount(c) && !Direct(c, Survivors(c, key, s))
    requires !StripeErr(c, s) && Present(Survivors(c, key, s)) >= c.dc
    ensures var r := Rebuilt(c, None, Survivors(c, key, s));
      && (r.Ok? ==> |r.value| == |s|)
      && Decoded(c, key, s) == if r.Err? then Err else Read(c, r.value)
  {
    var t := Survivors(c, key, s);
    SurviveAgain(c, key, s);
    StillEnough(c, key, s);
    assert Recovered(c, None, t) == Rebuilt(c, None, t);
  }

  lemma StillEnough(c: Scheme, key: Option<nat>, s: seq<Shard>)
    requires Sized(c) && !StripeErr(c, s) && Present(Survivors(c, key, s)) >= c.dc
    ensures !StripeErr(c, Survivors(c, key, s))
  {
    var t := Survivors(c, key, s);
    CountMonotone(Mask(t), Mask(LookedAt(c, t)));
  }

  /** Exactly when Decode returns what was encoded, followed by zeros up to the size of a stripe. If the
      data fragments all pass the check: when their segments are right, whatever happened to their
      tags. Otherwise, with several data shards: when every fragment that passes is intact, and it
      errs if one is not; with one: when every tag there is right and so is the first segment there. */
  lemma DecodeReturns(c: Scheme, name: nat, key: Option<nat>, data: Bytes, s: seq<Shard>)
    requires Sound(c) && Encoded(c, name, data).Ok? && |s| == ChunkCount(c)
    requires key == None || key == Some(name)
    requires CountTrue(Intact(s, Encoded(c, name, data).value)) >= c.dc
    ensures var t, segs := Survivors(c, key, s), Segments(c, data);
      var tags, whole := Tags(c, name, segs), data + Zeros(Area(c.segSize, c.dc) - |data|);
      && Shape(c, segs, tags)
      && (Direct(c, t) ==>
            (Decoded(c, key, s) == Ok(whole) <==> forall j :: 0 <= j < c.dc ==> SegmentOf(c, t[j].value) == segs[j]))
      && (!Direct(c, t) && c.dc > 1 ==>
            Decoded(c, key, s) == if Honest(c, key, s, Encoded(c, name, data).value) then Ok(whole) else Err)
      && (!Direct(c, t) && c.dc == 1 ==>
            && FirstPresent(t) < |t|
            && (Decoded(c, key, s) == Ok(whole) <==>
                  TagsRight(c, t, tags) && SegmentOf(c, t[FirstPresent(t)].value) == segs[0]))
  {
    var t := Survivors(c, key, s);
    SurvivorsChecked(c, name, key, data, s);
    EncodedIsLaid(c, name, data);
    PaddedIs(c, data);
    if Direct(c, t) {
      PaddedIsJoined(c, data);
      DirectExact(c, Segments(c, data), t);
    } else if c.dc > 1 {
      IndirectMany(c, name, key, data, s);
    } else {
      IndirectOne(c, name, key, data, s);
      OneSegment(c, data);
    }
  }

  lemma OneSegment(c: Scheme, data: Bytes)
    requires c.dc == 1 && |data| <= Area(c.segSize, c.dc)
    ensures |Segments(c, data)| >= 1 && Padded(c, data) == Segments(c, data)[0]
  {
    PaddedIsJoined(c, data);
    var one := Segments(c, data)[..1];
    assert one == [one[0]] && one[..0] == [];
    assert Joined(one) == [] + one[0];
  }

  // ---- The second failing family, and what a name and the tag scheme buy ----

  /** Without a name, a fragment with an altered segment passes if its tag can be decoded. Recover then
      does not give back the stripe: it errs if there are several data shards. And Decode, if it reads
      such a fragment directly, returns wrong data. */
  lemma AlteredSegmentPasses(c: Scheme, name: nat, data: Bytes, s: seq<Shard>, j: nat, g: Bytes)
    requires Sound(c) && Encoded(c, name, data).Ok? && |s| == ChunkCount(c) && j < |s|
    requires CountTrue(Intact(s, Encoded(c, name, data).value)) >= c.dc
    requires s[j] == Some(g) && |g| == FragmentSize(c) && g[..PREFIX_LEN] == c.pre && c.wellFormed(TagOf(c, g, 0))
    requires j < |Segments(c, data)| && SegmentOf(c, g) != Segments(c, data)[j]
    ensures Passes(c, None, j, s[j])
    ensures Recovered(c, None, s) != Ok(Somes(Encoded(c, name, data).value))
    ensures c.dc > 1 ==> Recovered(c, None, s).Err?
    ensures Direct(c, Survivors(c, None, s)) && j < c.dc ==>
              Decoded(c, None, s).Ok? && Decoded(c, None, s) != Ok(data + Zeros(Area(c.segSize, c.dc) - |data|))
  {
    var f, t := Encoded(c, name, data).value, Survivors(c, None, s);
    StripeShape(c, name, data);
    FragmentParts(c, Segments(c, data), Tags(c, name, Segments(c, data)), j, 0);
    assert f[j] != g;
    RecoverRebuilds(c, name, None, data, s);
    if c.dc > 1 { RecoverExact(c, name, None, data, s); }
    if Direct(c, t) && j < c.dc {
      DecodeReturns(c, name, None, data, s);
      assert t[j] == s[j];
      SurvivorsChecked(c, name, None, data, s);
      DirectExact(c, Segments(c, data), t);
    }
  }

  /** A tag that verifies is the one that is generated: nothing else can be passed off as it. */
  ghost predicate OneTag(c: Scheme)
  {
    forall name, j, seg, tag :: c.verify(name, j, seg, tag) ==> tag == c.gen(name, j, seg)
  }

  /** A fragment that is the encoded one past its first tag. */
  ghost predicate TailRight(c: Scheme, g: Bytes, f: Bytes)
    requires Sized(c) && |g| == |f| == FragmentSize(c)
  {
    forall r :: 1 <= r < c.tagCount ==> TagOf(c, g, r) == TagOf(c, f, r)
  }

  /** With one tag for each segment, what a named recovery needs is exactly that every fragment which
      passes the check has its segment and the tags past the first unaltered. */
  lemma NamedHonest(c: Scheme, name: nat, data: Bytes, s: seq<Shard>)
    requires Sound(c) && Encoded(c, name, data).Ok? && |s| == ChunkCount(c) && OneTag(c)
    ensures var f := Encoded(c, name, data).value;
      && |Segments(c, data)| == |f| && (forall j :: 0 <= j < |f| ==> |f[j]| == FragmentSize(c))
      && (Honest(c, Some(name), s, f) <==>
          forall j :: 0 <= j < |s| && Passes(c, Some(name), j, s[j]) ==>
            SegmentOf(c, s[j].value) == Segments(c, data)[j] && TailRight(c, s[j].value, f[j]))
  {
    var f, segs := Encoded(c, name, data).value, Segments(c, data);
    StripeShape(c, name, data);
    forall j | 0 <= j < |s|
      ensures |f[j]| == FragmentSize(c)
      ensures Passes(c, Some(name), j, s[j]) ==>
                (s[j] == Some(f[j]) <==> SegmentOf(c, s[j].value) == segs[j] && TailRight(c, s[j].value, f[j]))
    {
      NamedFragment(c, name, segs, Tags(c, name, segs), s[j], j);
    }
  }

  lemma NamedFragment(c: Scheme, name: nat, segs: seq<Bytes>, tags: seq<Bytes>, s: Shard, j: nat)
    requires Sized(c) && Shape(c, segs, tags) && j < ChunkCount(c)
    requires OneTag(c) && tags == Tags(c, name, segs)
    ensures var f := Fragment(c, segs, tags, j);
      && |f| == FragmentSize(c)
      && (Passes(c, Some(name), j, s) ==>
            (s == Some(f) <==> SegmentOf(c, s.value) == segs[j] && TailRight(c, s.value, f)))
  {
    var f := Fragment(c, segs, tags, j);
    FragmentParts(c, segs, tags, j, 0);
    if Passes(c, Some(name), j, s) && SegmentOf(c, s.value) == segs[j] && TailRight(c, s.value, f) {
      assert c.verify(name, j, SegmentOf(c, s.value), TagOf(c, s.value, 0));
      assert tags[j] == c.gen(name, j, segs[j]);
      forall r | 0 <= r < c.tagCount ensures TagOf(c, s.value, r) == TagOf(c, f, r) {
      }
      SameFragment(c, s.value, f);
    }
  }

  /** A tag scheme none of whose tags decodes as a group element, such as the four-byte checksum: the
      check drops every fragment, and nothing is ever recovered or decoded. */
  lemma UndecodableTags(c: Scheme, key: Option<nat>, s: seq<Shard>)
    requires Sized(c) && |s| == ChunkCount(c) && forall tag | |tag| == c.tagSize :: !c.wellFormed(tag)
    ensures Recovered(c, key, s).Err? && Decoded(c, key, s).Err?
  {
    var t := LookedAt(c, s);
    forall j | 0 <= j < |t| ensures t[j] == None {
      assert s[j].Some? && |s[j].value| == FragmentSize(c) ==> !c.wellFormed(TagOf(c, s[j].value, 0));
    }
    PresentSome(Mask(t));
  }

  /** Which fragments the check keeps, byte by byte: those of the right length that start with the prefix
      and whose first tag can be decoded and, if the stripe is named, fits segment and place. */
  lemma KeptFragment(c: Scheme, name: Option<nat>, j: nat, s: Shard)
    requires Sized(c)
    ensures Passes(c, name, j, s) <==>
              && s.Some? && |s.value| == 24 + c.segSize + c.tagSize * c.tagCount
              && s.value[..24] == c.pre
              && var tag := s.value[24 + c.segSize..24 + c.segSize + c.tagSize];
              && c.wellFormed(tag)
              && (name.Some? ==> c.verify(name.value, j, s.value[24..24 + c.segSize], tag))
  {
    AreaIsProduct(c.tagSize, c.tagCount);
    assert Area(c.tagSize, 0) == 0;
    assert c.tagSize * c.tagCount >= c.tagSize by { TimesGrows(1, c.tagCount, c.tagSize, c.tagSize); }
  }

  /** A stripe is read directly exactly when all data fragments are kept. */
  lemma DirectWhen(c: Scheme, name: Option<nat>, s: seq<Shard>)
    requires Sized(c) && |s| == ChunkCount(c)
    ensures Direct(c, Survivors(c, name, s)) <==> forall j :: 0 <= j < c.dc ==> Passes(c, name, j, s[j])
  {
    var t := Survivors(c, name, s);
    assert forall j :: 0 <= j < c.dc ==> (t[j].Some? <==> Passes(c, name, j, s[j]));
  }

  /** Too few fragments are refused, and only then does the check itself fail. */
  lemma TooFew(c: Scheme, name: Option<nat>, s: seq<Shard>)
    requires Sized(c) && |s| == ChunkCount(c)
    ensures Present(Survivors(c, name, s)) < c.dc ==> Recovered(c, name, s).Err? && Decoded(c, name, s).Err?
    ensures Present(Survivors(c, name, s)) >= c.dc ==>
              && Recovered(c, name, s) == Rebuilt(c, name, Survivors(c, name, s))
              && (Direct(c, Survivors(c, name, s)) ==> Decoded(c, name, s).Ok?)
  {
    var t, u := Survivors(c, name, s), LookedAt(c, s);
    CountMonotone(Mask(t), Mask(u));
  }

  /** Shards restored from shards of one length have that length. */
  lemma RestoredSizes(c: Scheme, k: nat, m: nat, s: seq<Shard>, len: nat)
    requires IdealCode(c) && len > 0 && (forall j :: 0 <= j < |s| && s[j].Some? ==> |s[j].value| == len)
    requires Restored(c, k, m, s).Ok?
    ensures |Restored(c, k, m, s).value| == |s| && Even(Restored(c, k, m, s).value, len)
  {
    var w := Restored(c, k, m, s).value;
    if k == 1 {
      FirstIsThere(s);
    } else {
      SizeOfShards(s, len);
      if !(SameSizes(s, false) && ParityOk(c, k, m, Values(s))) {
        assert Agrees(s, w);
        PresentSome(Mask(s));
        var j :| 0 <= j < |s| && s[j].Some?;
        assert s[j] == Some(w[j]);
        assert Len(Somes(w)[j]) == len;
        forall i | 0 <= i < |w| ensures |w[i]| == len { assert Len(Somes(w)[i]) == ShardSize(Somes(w)); }
      } else {
        forall j | 0 <= j < |s| ensures |w[j]| == len { assert Len(s[j]) == ShardSize(s); }
      }
    }
  }

  lemma FirstIsThere(s: seq<Shard>)
    ensures FirstPresent(s) < |s| ==> s[FirstPresent(s)].Some?
  {
  }

  lemma {:induction false} SizeOfShards(s: seq<Shard>, len: nat)
    requires len > 0 && forall j :: 0 <= j < |s| && s[j].Some? ==> |s[j].value| == len
    ensures ShardSize(s) > 0 ==> ShardSize(s) == len && exists j :: 0 <= j < |s| && s[j].Some?
  {
    if s != [] && Len(s[0]) == 0 {
      SizeOfShards(s[1..], len);
      if j :| 0 <= j < |s[1..]| && s[1..][j].Some? { assert s[j + 1].Some?; }
    }
  }

  lemma RebuiltSizes(c: Scheme, t: seq<Shard>)
    requires Sound(c) && |t| == ChunkCount(c) && Fits(c, t)
    ensures var segs := Restored(c, c.dc, c.pc, SegmentShards(c, t));
            segs.Ok? ==> |segs.value| == ChunkCount(c) && Even(segs.value, c.segSize)
    ensures TagWord(c, t).Ok? ==>
            |TagWord(c, t).value| == Area(ChunkCount(c), c.tagCount) && Even(TagWord(c, t).value, c.tagSize)
  {
    if Restored(c, c.dc, c.pc, SegmentShards(c, t)).Ok? {
      RestoredSizes(c, c.dc, c.pc, SegmentShards(c, t), c.segSize);
    }
    TagLengths(c, t, c.tagCount);
    if TagWord(c, t).Ok? {
      RestoredSizes(c, ChunkCount(c), Area(ChunkCount(c), c.tagCount - 1), TagShards(c, t, c.tagCount), c.tagSize);
    }
  }

  /** A fragment put together again passes the check if its segment and tag do. */
  lemma NewFragmentPasses(c: Scheme, name: Option<nat>, segs: seq<Bytes>, tags: seq<Bytes>, j: nat)
    requires Sized(c) && j < ChunkCount(c) && |segs| == ChunkCount(c) && Even(segs, c.segSize)
    requires |tags| == Area(ChunkCount(c), c.tagCount) && Even(tags, c.tagSize) && j < |tags|
    requires RebuiltOk(c, name, j, segs[j], tags[j])
    ensures Passes(c, name, j, Some(Fragment(c, segs, tags, j)))
  {
    FragmentParts(c, segs, tags, j, 0);
    assert Area(ChunkCount(c), 0) == 0;
  }

  /** Whatever Recover returns passes the check it was recovered by, rebuilt fragments included. */
  lemma RecoveredPasses(c: Scheme, name: Option<nat>, s: seq<Shard>)
    requires Sound(c) && |s| == ChunkCount(c) && Recovered(c, name, s).Ok?
    ensures forall j :: 0 <= j < |s| ==> Passes(c, name, j, Recovered(c, name, s).value[j])
  {
    var t, r := Survivors(c, name, s), Recovered(c, name, s).value;
    var segs := Restored(c, c.dc, c.pc, SegmentShards(c, t)).value;
    var tags := TagWord(c, t).value;
    RebuiltSizes(c, t);
    forall j | 0 <= j < |s| ensures Passes(c, name, j, r[j]) {
      if t[j].None? { NewFragmentPasses(c, name, segs, tags, j); }
    }
  }
}
