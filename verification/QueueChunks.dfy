/** The chunk of an entry is not part of the merge key of the AggSegs and SegJob queues: what pushing
    and merging do to it, and when looking a segment up still finds exactly the segments put in. */
module QueueChunks {
  import opened Types
  import opened SegQueues

  /** How many entries cover a stripe under a key with the given chunk. */
  function CountIn<K(==)>(q: seq<Run<K>>, key: K, stripe: nat, chunk: nat): nat
  {
    if q == [] then 0 else CountIn(q[..|q| - 1], key, stripe, chunk) + One(Last(q), key, stripe, chunk)
  }

  function One<K(==)>(x: Run<K>, key: K, stripe: nat, chunk: nat): nat
  {
    if Covers(x, key, stripe) && x.chunk == chunk then 1 else 0
  }

  lemma CountInAppend<K>(q: seq<Run<K>>, x: Run<K>, key: K, stripe: nat, chunk: nat)
    ensures CountIn(q + [x], key, stripe, chunk) == CountIn(q, key, stripe, chunk) + One(x, key, stripe, chunk)
  {
    assert (q + [x])[..|q|] == q;
  }

  ghost predicate SameIn<K>(q: seq<Run<K>>, r: seq<Run<K>>, key: K, stripe: nat, chunk: nat)
  {
    CountIn(r, key, stripe, chunk) == CountIn(q, key, stripe, chunk)
  }

  /** Every segment is covered as often in r as in q, chunk included. */
  ghost predicate SameChunks<K(!new)>(q: seq<Run<K>>, r: seq<Run<K>>)
  {
    forall key: K, stripe: nat, chunk: nat :: SameIn(q, r, key, stripe, chunk)
  }

  // ---- Push ----

  /** Pushing a run adds its segments and nothing else if and only if it is not joined, with a positive
      length, to a last entry that has another chunk. */
  lemma PushKeepsChunks<K(!new)>(q: seq<Run<K>>, x: Run<K>)
    ensures SameChunks(q + [x], Pushed(q, x)) <==>
            (q != [] && x.length > 0 && Mergeable(Last(q), x) ==> Last(q).chunk == x.chunk)
  {
    if q != [] && Mergeable(Last(q), x) {
      var init, g := q[..|q| - 1], Join(Last(q), x);
      forall key, stripe: nat, chunk: nat
        ensures CountIn(Pushed(q, x), key, stripe, chunk)
                == CountIn(init, key, stripe, chunk) + One(g, key, stripe, chunk)
        ensures CountIn(q + [x], key, stripe, chunk)
                == CountIn(init, key, stripe, chunk) + One(Last(q), key, stripe, chunk) + One(x, key, stripe, chunk)
      {
        CountInAppend(init, g, key, stripe, chunk);
        CountInAppend(q, x, key, stripe, chunk);
      }
      if x.length > 0 && Last(q).chunk != x.chunk {
        assert !SameIn(q + [x], Pushed(q, x), x.key, x.start, x.chunk);
      }
    }
  }

  // ---- Merge ----

  /** Every run of positive length that merging joins has the chunk of the run it is joined to. */
  ghost predicate JoinsAgree<K>(s: seq<Run<K>>)
  {
    forall j | 0 < j < |s| && s[j].length > 0 && Mergeable(Growing(s[..j]), s[j]) ::
      Growing(s[..j]).chunk == s[j].chunk
  }

  /** Adjacent entries of one key have the same chunk. */
  ghost predicate NeighboursAgree<K>(s: seq<Run<K>>)
  {
    forall i, j | 0 <= i < |s| - 1 && j == i + 1 && Mergeable(s[i], s[j]) :: s[i].chunk == s[j].chunk
  }

  ghost predicate Positive<K>(q: seq<Run<K>>)
  {
    forall i | 0 <= i < |q| :: q[i].length > 0
  }

  lemma PrefixAgrees<K>(s: seq<Run<K>>, n: nat)
    requires n <= |s| && JoinsAgree(s)
    ensures JoinsAgree(s[..n])
  {
    forall j | 0 < j < n && s[j].length > 0 && Mergeable(Growing(s[..n][..j]), s[j])
      ensures Growing(s[..n][..j]).chunk == s[j].chunk
    {
      assert s[..n][..j] == s[..j];
    }
  }

  /** The growing run ends where the last entry does and, as long as neighbours agree, has its chunk. */
  lemma {:induction false} GrowingEnd<K>(q: seq<Run<K>>)
    requires q != []
    ensures Growing(q).key == Last(q).key && Growing(q).start + Growing(q).length == Last(q).start + Last(q).length
    ensures NeighboursAgree(q) ==> Growing(q).chunk == Last(q).chunk
    ensures Positive(q) && JoinsAgree(q) ==> Growing(q).chunk == Last(q).chunk
  {
    var init := q[..|q| - 1];
    if init != [] {
      GrowingEnd(init);
      assert Last(init) == q[|q| - 2];
      assert Mergeable(Growing(init), Last(q)) <==> Mergeable(q[|q| - 2], q[|q| - 1]);
      if JoinsAgree(q) { PrefixAgrees(q, |q| - 1); }
    }
  }

  /** Without empty entries it is enough to compare neighbours. */
  lemma JoinsAreNeighbours<K>(s: seq<Run<K>>)
    requires Positive(s)
    ensures JoinsAgree(s) <==> NeighboursAgree(s)
  {
    forall j | 0 < j < |s|
      ensures Mergeable(Growing(s[..j]), s[j]) <==> Mergeable(s[j - 1], s[j])
      ensures JoinsAgree(s) || NeighboursAgree(s) ==> Growing(s[..j]).chunk == s[j - 1].chunk
    {
      GrowingEnd(s[..j]);
      if JoinsAgree(s) { PrefixAgrees(s, j); }
    }
  }

  /** One more entry keeps the segments passed over, if it has the chunk of the run it is joined to. */
  lemma NextChunk<K>(q: seq<Run<K>>, x: Run<K>, key: K, stripe: nat, chunk: nat)
    requires q != [] && (x.length > 0 && Mergeable(Growing(q), x) ==> Growing(q).chunk == x.chunk)
    ensures CountIn(Closed(q + [x]), key, stripe, chunk) + One(Growing(q + [x]), key, stripe, chunk)
            == CountIn(Closed(q), key, stripe, chunk) + One(Growing(q), key, stripe, chunk) + One(x, key, stripe, chunk)
  {
    PassAppend(q, x);
    CountInAppend(Closed(q), Growing(q), key, stripe, chunk);
  }

  lemma {:induction false} PassChunks<K>(q: seq<Run<K>>, key: K, stripe: nat, chunk: nat)
    requires q != [] && JoinsAgree(q)
    ensures CountIn(Closed(q), key, stripe, chunk) + One(Growing(q), key, stripe, chunk)
            == CountIn(q, key, stripe, chunk)
  {
    var n := |q| - 1;
    if n == 0 {
      assert q[..0] == [];
    } else {
      PrefixAgrees(q, n);
      PassChunks(q[..n], key, stripe, chunk);
      NextChunk(q[..n], q[n], key, stripe, chunk);
      assert q == q[..n] + [q[n]];
    }
  }

  lemma {:induction false} NonEmptyChunks<K>(q: seq<Run<K>>, key: K, stripe: nat, chunk: nat)
    ensures CountIn(NonEmpty(q), key, stripe, chunk) == CountIn(q, key, stripe, chunk)
  {
    if q != [] {
      NonEmptyChunks(q[..|q| - 1], key, stripe, chunk);
      CountInAppend(NonEmpty(q[..|q| - 1]), Last(q), key, stripe, chunk);
    }
  }

  /** If joins agree, merging any queue keeps every segment. */
  lemma AgreeingMerge<K(!new)>(s: seq<Run<K>>)
    requires JoinsAgree(s)
    ensures SameChunks(s, NonEmpty(Runs(s)))
  {
    forall key: K, stripe: nat, chunk: nat ensures SameIn(s, NonEmpty(Runs(s)), key, stripe, chunk) {
      NonEmptyChunks(Runs(s), key, stripe, chunk);
      if s != [] {
        PassChunks(s, key, stripe, chunk);
        CountInAppend(Closed(s), Growing(s), key, stripe, chunk);
      }
    }
  }

  /** Entries with one key are sorted by start. */
  ghost predicate ByStartInKey<K(!new)>(s: seq<Run<K>>)
  {
    forall i, j | 0 <= i < j < |s| && s[i].key == s[j].key :: s[i].start <= s[j].start
  }

  ghost predicate CoveredOnce<K(!new)>(q: seq<Run<K>>)
  {
    forall key: K, stripe: nat :: Count(q, key, stripe) <= 1
  }

  /** Entry j is joined, with a positive length, to a run that has another chunk. */
  ghost predicate Dispute<K>(s: seq<Run<K>>, j: nat)
  {
    && 0 < j < |s| && s[j].length > 0
    && Mergeable(Growing(s[..j]), s[j]) && Growing(s[..j]).chunk != s[j].chunk
  }

  lemma {:induction false} FirstDispute<K>(s: seq<Run<K>>) returns (j: nat)
    requires !JoinsAgree(s)
    ensures Dispute(s, j) && JoinsAgree(s[..j])
  {
    var init := s[..|s| - 1];
    if JoinsAgree(init) {
      j := |s| - 1;
      assert forall i | 0 < i < j :: s[..i] == init[..i];
    } else {
      j := FirstDispute(init);
      assert init[..j] == s[..j];
    }
  }

  /** How often a pass over q leaves the first segment of x covered. */
  function Left<K(==)>(q: seq<Run<K>>, x: Run<K>): nat
    requires q != []
  {
    CountIn(Closed(q), x.key, x.start, x.chunk) + One(Growing(q), x.key, x.start, x.chunk)
  }

  /** A pass over q leaves the first segment of x covered once too few, and cannot make up for it. */
  ghost predicate Lost<K>(q: seq<Run<K>>, x: Run<K>)
  {
    && q != []
    && Left(q, x) + 1 == CountIn(q, x.key, x.start, x.chunk)
    && (Growing(q).key == x.key ==> Growing(q).start + Growing(q).length > x.start)
  }

  lemma FirstLoss<K>(q: seq<Run<K>>, x: Run<K>)
    requires q != [] && JoinsAgree(q) && Mergeable(Growing(q), x) && Growing(q).chunk != x.chunk && x.length > 0
    ensures Lost(q + [x], x)
  {
    PassAppend(q, x);
    PassChunks(q, x.key, x.start, x.chunk);
    CountInAppend(q, x, x.key, x.start, x.chunk);
  }

  lemma LossStays<K>(q: seq<Run<K>>, y: Run<K>, x: Run<K>)
    requires Lost(q, x) && y.length > 0 && (y.key == x.key ==> y.start >= x.start)
    ensures Lost(q + [y], x)
  {
    PassAppend(q, y);
    CountInAppend(Closed(q), Growing(q), x.key, x.start, x.chunk);
    CountInAppend(q, y, x.key, x.start, x.chunk);
  }

  /** In a sorted queue without empty entries the first segment of a disputed entry is and stays lost. */
  lemma {:induction false} LostSegment<K(!new)>(s: seq<Run<K>>, j: nat, n: nat)
    requires ByStartInKey(s) && Positive(s) && j < n <= |s| && Dispute(s, j) && JoinsAgree(s[..j])
    ensures Lost(s[..n], s[j])
    decreases n
  {
    assert s[..n] == s[..n - 1] + [s[n - 1]];
    if n == j + 1 {
      FirstLoss(s[..j], s[j]);
    } else {
      LostSegment(s, j, n - 1);
      LossStays(s[..n - 1], s[n - 1], s[j]);
    }
  }

  lemma {:induction false} CountPrefix<K>(s: seq<Run<K>>, n: nat, key: K, stripe: nat)
    requires n <= |s|
    ensures Count(s[..n], key, stripe) <= Count(s, key, stripe)
    ensures forall i | n <= i < |s| && Covers(s[i], key, stripe) :: Count(s[..n], key, stripe) < Count(s, key, stripe)
  {
    if n < |s| {
      assert s[..|s| - 1][..n] == s[..n];
      CountPrefix(s[..|s| - 1], n, key, stripe);
    } else {
      assert s[..n] == s;
    }
  }

  lemma FirstGone<K>(q: seq<Run<K>>, x: Run<K>)
    requires q != [] && JoinsAgree(q) && Mergeable(Growing(q), x) && Growing(q).chunk != x.chunk
    requires Count(q, x.key, x.start) == 0
    ensures Left(q + [x], x) == 0
  {
    PassAppend(q, x);
    PassChunks(q, x.key, x.start, x.chunk);
    CountIsIn(q, x.key, x.start, x.chunk);
  }

  lemma GoneStays<K>(q: seq<Run<K>>, y: Run<K>, x: Run<K>)
    requires q != [] && Left(q, x) == 0 && !Covers(y, x.key, x.start)
    ensures Left(q + [y], x) == 0
  {
    PassAppend(q, y);
    CountInAppend(Closed(q), Growing(q), x.key, x.start, x.chunk);
  }

  /** In a queue that covers no stripe twice it is gone altogether. */
  lemma {:induction false} GoneSegment<K(!new)>(s: seq<Run<K>>, j: nat, n: nat)
    requires CoveredOnce(s) && j < n <= |s| && Dispute(s, j) && JoinsAgree(s[..j])
    ensures Left(s[..n], s[j]) == 0
    decreases n
  {
    assert s[..n] == s[..n - 1] + [s[n - 1]];
    if n == j + 1 {
      NotBefore(s, j);
      FirstGone(s[..j], s[j]);
    } else {
      GoneSegment(s, j, n - 1);
      CoveredBefore(s, j, n - 1);
      GoneStays(s[..n - 1], s[n - 1], s[j]);
    }
  }

  lemma NotBefore<K(!new)>(s: seq<Run<K>>, j: nat)
    requires CoveredOnce(s) && j < |s| && s[j].length > 0
    ensures Count(s[..j], s[j].key, s[j].start) == 0
  {
    CountPrefix(s, j, s[j].key, s[j].start);
    assert Covers(s[j], s[j].key, s[j].start) && Count(s, s[j].key, s[j].start) <= 1;
  }

  lemma CoveredBefore<K(!new)>(s: seq<Run<K>>, j: nat, n: nat)
    requires CoveredOnce(s) && j < n < |s| && Covers(s[j], s[j].key, s[j].start)
    ensures !Covers(s[n], s[j].key, s[j].start)
  {
    var x := s[j];
    assert s[..n][..j] == s[..j];
    CountPrefix(s[..n], j, x.key, x.start);
    assert Covers(s[..n][j], x.key, x.start);
    CountPrefix(s, n, x.key, x.start);
    assert Count(s, x.key, x.start) <= 1;
  }

  /** Merging a sorted queue keeps every segment if joins agree; and only then, unless empty entries
      meet stripes covered twice. Without empty entries joins agree if and only if neighbours do. */
  lemma MergeKeepsChunks<K(!new)>(s: seq<Run<K>>)
    requires ByStartInKey(s)
    ensures JoinsAgree(s) ==> SameChunks(s, NonEmpty(Runs(s)))
    ensures Positive(s) || CoveredOnce(s) ==> (SameChunks(s, NonEmpty(Runs(s))) <==> JoinsAgree(s))
    ensures Positive(s) ==> (JoinsAgree(s) <==> NeighboursAgree(s))
  {
    if Positive(s) { JoinsAreNeighbours(s); }
    if JoinsAgree(s) {
      AgreeingMerge(s);
    } else if Positive(s) || CoveredOnce(s) {
      var j := FirstDispute(s);
      var x := s[j];
      assert s[..|s|] == s;
      if Positive(s) { LostSegment(s, j, |s|); } else { GoneSegment(s, j, |s|); }
      NonEmptyChunks(Runs(s), x.key, x.start, x.chunk);
      CountInAppend(Closed(s), Growing(s), x.key, x.start, x.chunk);
      assert In(s, x.key, x.start, x.chunk) by { assert Covers(s[j], x.key, x.start); }
      CountIsIn(s, x.key, x.start, x.chunk);
      assert !SameIn(s, NonEmpty(Runs(s)), x.key, x.start, x.chunk);
    }
  }

  // ---- Looking a segment up ----

  /** A queue of sequence segments as the records stored. */
  function Segs(q: seq<Run<nat>>): (r: seq<AggSegs>)
    ensures |r| == |q| && forall i | 0 <= i < |q| :: r[i] == AggSegs(q[i].key, q[i].start, q[i].length, q[i].chunk)
  {
    seq(|q|, i requires 0 <= i < |q| => AggSegs(q[i].key, q[i].start, q[i].length, q[i].chunk))
  }

  ghost predicate In<K>(q: seq<Run<K>>, key: K, stripe: nat, chunk: nat)
  {
    exists i :: 0 <= i < |q| && Covers(q[i], key, stripe) && q[i].chunk == chunk
  }

  lemma {:induction false} CountIsIn<K>(q: seq<Run<K>>, key: K, stripe: nat, chunk: nat)
    ensures CountIn(q, key, stripe, chunk) > 0 <==> In(q, key, stripe, chunk)
    ensures CountIn(q, key, stripe, chunk) <= Count(q, key, stripe)
  {
    if q != [] {
      var init := q[..|q| - 1];
      CountIsIn(init, key, stripe, chunk);
      if In(init, key, stripe, chunk) {
        var i :| 0 <= i < |init| && Covers(init[i], key, stripe) && init[i].chunk == chunk;
        assert Covers(q[i], key, stripe);
      }
      if In(q, key, stripe, chunk) {
        var i :| 0 <= i < |q| && Covers(q[i], key, stripe) && q[i].chunk == chunk;
        if i < |init| { assert Covers(init[i], key, stripe); }
      }
    }
  }

  lemma HoldsIsIn(q: seq<Run<nat>>, bucket: nat, stripe: nat, chunk: nat)
    ensures AggHolds(Segs(q), bucket, stripe, chunk) <==> In(q, bucket, stripe, chunk)
  {
    var a := Segs(q);
    if AggHolds(a, bucket, stripe, chunk) {
      var i :| 0 <= i < |a| && a[i].bucket == bucket && a[i].chunk == chunk
        && a[i].start <= stripe < a[i].start + a[i].length;
      assert Covers(q[i], bucket, stripe);
    }
    if In(q, bucket, stripe, chunk) {
      var i :| 0 <= i < |q| && Covers(q[i], bucket, stripe) && q[i].chunk == chunk;
      assert a[i].bucket == bucket;
    }
  }

  lemma SegsSorted(q: seq<Run<nat>>)
    requires SortedBy(ByBucket(), q)
    ensures AggSorted(Segs(q))
  {
    forall i, j | 0 <= i < j < |q| ensures q[i].key < q[j].key || (q[i].key == q[j].key && q[i].start <= q[j].start) {
      assert !ByBucket()(q[j], q[i]);
    }
  }

  lemma LookUp(q: seq<Run<nat>>, bucket: nat, stripe: nat, chunk: nat)
    requires SortedBy(ByBucket(), q)
    ensures AggHas(Segs(q), bucket, stripe, chunk) <==> CountIn(q, bucket, stripe, chunk) > 0
  {
    SegsSorted(q);
    AggHasIsHolds(Segs(q), bucket, stripe, chunk);
    HoldsIsIn(q, bucket, stripe, chunk);
    CountIsIn(q, bucket, stripe, chunk);
  }

  ghost predicate SameAnswer(q: seq<Run<nat>>, r: seq<Run<nat>>, bucket: nat, stripe: nat, chunk: nat)
  {
    AggHas(Segs(q), bucket, stripe, chunk) <==> AggHas(Segs(r), bucket, stripe, chunk)
  }

  ghost predicate SameAnswers(q: seq<Run<nat>>, r: seq<Run<nat>>)
  {
    forall bucket: nat, stripe: nat, chunk: nat :: SameAnswer(q, r, bucket, stripe, chunk)
  }

  /** AggSegsQueue.Has after AggSegsQueue.Merge: the same answers if joins agree and, for queues that
      cover no stripe twice, only then. */
  lemma MergeKeepsAnswers(s: seq<Run<nat>>)
    requires SortedBy(ByBucket(), s)
    ensures JoinsAgree(s) ==> SameAnswers(s, NonEmpty(Runs(s)))
    ensures CoveredOnce(s) ==> (SameAnswers(s, NonEmpty(Runs(s))) <==> JoinsAgree(s))
    ensures Positive(s) ==> (JoinsAgree(s) <==> NeighboursAgree(s))
  {
    var r := NonEmpty(Runs(s));
    QueueOrders();
    RunsSorted(ByBucket(), s);
    NonEmptySorted(ByBucket(), Runs(s));
    AnswersAreCounts(s, r);
    SortedInKey(s);
    MergeKeepsChunks(s);
    if CoveredOnce(s) && SameAnswers(s, r) {
      forall b: nat, stripe: nat, chunk: nat ensures SameIn(s, r, b, stripe, chunk) {
        AtMostOnce(s, r, b, stripe, chunk);
      }
    }
  }

  lemma AnswersAreCounts(s: seq<Run<nat>>, r: seq<Run<nat>>)
    requires SortedBy(ByBucket(), s) && SortedBy(ByBucket(), r)
    ensures SameChunks(s, r) ==> SameAnswers(s, r)
  {
    if SameChunks(s, r) {
      forall b: nat, stripe: nat, chunk: nat ensures SameAnswer(s, r, b, stripe, chunk) {
        LookUp(s, b, stripe, chunk);
        LookUp(r, b, stripe, chunk);
        assert SameIn(s, r, b, stripe, chunk);
      }
    }
  }

  lemma AtMostOnce(s: seq<Run<nat>>, r: seq<Run<nat>>, bucket: nat, stripe: nat, chunk: nat)
    requires SortedBy(ByBucket(), s) && SortedBy(ByBucket(), r) && r == NonEmpty(Runs(s)) && CoveredOnce(s)
    requires SameAnswers(s, r)
    ensures SameIn(s, r, bucket, stripe, chunk)
  {
    LookUp(s, bucket, stripe, chunk);
    LookUp(r, bucket, stripe, chunk);
    assert SameAnswer(s, r, bucket, stripe, chunk);
    RunsKeepCount(s, bucket, stripe);
    assert Count(s, bucket, stripe) <= 1;
    CountIsIn(s, bucket, stripe, chunk);
    CountIsIn(r, bucket, stripe, chunk);
  }

  lemma SortedInKey(s: seq<Run<nat>>)
    requires SortedBy(ByBucket(), s)
    ensures ByStartInKey(s)
  {
    forall i, j | 0 <= i < j < |s| && s[i].key == s[j].key ensures s[i].start <= s[j].start {
      assert !ByBucket()(s[j], s[i]);
    }
  }

  lemma PairMerged(x: Run<nat>, y: Run<nat>)
    requires Mergeable(x, y) && x.length + y.length > 0
    ensures NonEmpty(Runs([x, y])) == [Join(x, y)]
  {
    assert [x, y] == [x] + [y];
    assert Growing([x]) == x && Closed([x]) == [];
    PassAppend([x], y);
    NonEmptyAppend([], Join(x, y));
    assert [] + [Join(x, y)] == [Join(x, y)];
  }

  lemma InShort(q: seq<Run<nat>>, bucket: nat, stripe: nat, chunk: nat)
    requires |q| <= 2 && SortedBy(ByBucket(), q)
    ensures AggHas(Segs(q), bucket, stripe, chunk) <==>
            (|q| > 0 && Covers(q[0], bucket, stripe) && q[0].chunk == chunk)
            || (|q| > 1 && Covers(q[1], bucket, stripe) && q[1].chunk == chunk)
  {
    LookUp(q, bucket, stripe, chunk);
    CountIsIn(q, bucket, stripe, chunk);
  }

  /** Two runs of one bucket next to each other with different chunks, for instance (0, 0, 1, 0) and
      (0, 1, 1, 1): once merged the queue denies a segment of the second and claims one that was never
      put in. */
  lemma NeighboursLoseChunk(x: Run<nat>, y: Run<nat>)
    requires Mergeable(x, y) && x.length > 0 && y.length > 0 && x.chunk != y.chunk
    ensures var s := [x, y];
            var r := NonEmpty(Runs(s));
            && r == [Join(x, y)]
            && AggHas(Segs(s), y.key, y.start, y.chunk) && !AggHas(Segs(r), y.key, y.start, y.chunk)
            && !AggHas(Segs(s), y.key, y.start, x.chunk) && AggHas(Segs(r), y.key, y.start, x.chunk)
  {
    PairMerged(x, y);
    InShort([x, y], y.key, y.start, x.chunk);
    InShort([x, y], y.key, y.start, y.chunk);
    InShort([Join(x, y)], y.key, y.start, x.chunk);
    InShort([Join(x, y)], y.key, y.start, y.chunk);
  }

  // ---- SegJobsQueue.Has ----

  /** The scan of a job queue, with its early exits: it never invents a segment, and on a sorted queue
      finds every one. */
  method JobHas(q: seq<Run<(nat, nat)>>, bucket: nat, job: nat, stripe: nat, chunk: nat) returns (found: bool)
    ensures found ==> In(q, (bucket, job), stripe, chunk)
    ensures SortedBy(ByJob(), q) ==> (found <==> In(q, (bucket, job), stripe, chunk))
  {
    for i := 0 to |q|
      invariant forall k | 0 <= k < i :: !(Covers(q[k], (bucket, job), stripe) && q[k].chunk == chunk)
    {
      if q[i].key.0 < bucket { continue; }
      if q[i].key.0 > bucket { NothingFurther(q, i, bucket, job, stripe, chunk); return false; }
      if q[i].key.1 < job { continue; }
      if q[i].key.1 > job || q[i].start > stripe { NothingFurther(q, i, bucket, job, stripe, chunk); return false; }
      if q[i].start <= stripe && q[i].start + q[i].length > stripe && q[i].chunk == chunk {
        assert Covers(q[i], (bucket, job), stripe);
        return true;
      }
    }
    return false;
  }

  /** Past an entry beyond the wanted one, a sorted job queue holds nothing that is wanted. */
  lemma NothingFurther(q: seq<Run<(nat, nat)>>, i: nat, bucket: nat, job: nat, stripe: nat, chunk: nat)
    requires i < |q| && forall k | 0 <= k < i :: !(Covers(q[k], (bucket, job), stripe) && q[k].chunk == chunk)
    requires q[i].key.0 > bucket
             || (q[i].key.0 == bucket && (q[i].key.1 > job || (q[i].key.1 == job && q[i].start > stripe)))
    ensures SortedBy(ByJob(), q) ==> !In(q, (bucket, job), stripe, chunk)
  {
    if SortedBy(ByJob(), q) {
      forall k | i < k < |q| ensures !Covers(q[k], (bucket, job), stripe) {
        assert !ByJob()(q[k], q[i]);
      }
    }
  }
}
