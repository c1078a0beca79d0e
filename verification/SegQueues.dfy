/** Interval queues: sort, merge neighbouring runs, look up with an early exit. One element type
    covers the three queues: `key` is the chunk of a Stripe, the bucket of an AggSegs, the bucket and
    job of a SegJob. */
module SegQueues {
  import opened Types

  /** AggSegsQueue.Has: a scan that stops at the first entry past the wanted stripe. */
  function AggHas(q: seq<AggSegs>, bucket: nat, stripe: nat, chunk: nat): bool
  {
    if q == [] then false
    else if q[0].bucket > bucket then false
    else if q[0].bucket == bucket && q[0].start > stripe then false
    else if q[0].bucket == bucket && q[0].start + q[0].length > stripe && q[0].chunk == chunk then true
    else AggHas(q[1..], bucket, stripe, chunk)
  }

  ghost predicate AggHolds(q: seq<AggSegs>, bucket: nat, stripe: nat, chunk: nat)
  {
    exists i :: 0 <= i < |q| && q[i].bucket == bucket && q[i].chunk == chunk
      && q[i].start <= stripe < q[i].start + q[i].length
  }

  ghost predicate AggSorted(q: seq<AggSegs>)
  {
    forall i, j | 0 <= i < j < |q| ::
      q[i].bucket < q[j].bucket || (q[i].bucket == q[j].bucket && q[i].start <= q[j].start)
  }

  /** The scan never invents a segment, and on a sorted queue finds every one. */
  lemma {:induction false} AggHasIsHolds(q: seq<AggSegs>, bucket: nat, stripe: nat, chunk: nat)
    ensures AggHas(q, bucket, stripe, chunk) ==> AggHolds(q, bucket, stripe, chunk)
    ensures AggSorted(q) ==> (AggHas(q, bucket, stripe, chunk) <==> AggHolds(q, bucket, stripe, chunk))
  {
    if q != [] {
      var rest := q[1..];
      AggHasIsHolds(rest, bucket, stripe, chunk);
      assert forall i | 0 <= i < |rest| :: rest[i] == q[i + 1];
      if AggHolds(rest, bucket, stripe, chunk) {
        var i :| 0 <= i < |rest| && rest[i].bucket == bucket && rest[i].chunk == chunk
          && rest[i].start <= stripe < rest[i].start + rest[i].length;
        assert q[i + 1] == rest[i];
      }
    }
  }

  // ---- Runs ----

  datatype Run<K> = Run(key: K, start: nat, length: nat, chunk: nat)

  predicate Mergeable<K(==)>(x: Run<K>, y: Run<K>)
  {
    x.key == y.key && x.start + x.length == y.start
  }

  function Join<K>(x: Run<K>, y: Run<K>): Run<K>
  {
    x.(length := x.length + y.length)
  }

  function Last<T>(q: seq<T>): T
    requires q != []
  {
    q[|q| - 1]
  }

  /** One pass over a queue: the run still growing after the last entry .. */
  function Growing<K(==)>(q: seq<Run<K>>): Run<K>
    requires q != []
  {
    var init := q[..|q| - 1];
    if init != [] && Mergeable(Growing(init), Last(q)) then Join(Growing(init), Last(q)) else Last(q)
  }

  /** .. and the runs closed before it. */
  function Closed<K(==)>(q: seq<Run<K>>): seq<Run<K>>
    requires q != []
  {
    var init := q[..|q| - 1];
    if init == [] then []
    else if Mergeable(Growing(init), Last(q)) then Closed(init)
    else Closed(init) + [Growing(init)]
  }

  function Runs<K(==)>(q: seq<Run<K>>): seq<Run<K>>
  {
    if q == [] then [] else Closed(q) + [Growing(q)]
  }

  function NonEmpty<K>(q: seq<Run<K>>): seq<Run<K>>
  {
    if q == [] then []
    else if Last(q).length == 0 then NonEmpty(q[..|q| - 1])
    else NonEmpty(q[..|q| - 1]) + [Last(q)]
  }

  lemma NonEmptyAppend<K>(q: seq<Run<K>>, x: Run<K>)
    ensures NonEmpty(q + [x]) == if x.length == 0 then NonEmpty(q) else NonEmpty(q) + [x]
  {
    assert (q + [x])[..|q|] == q;
  }

  lemma PassAppend<K>(q: seq<Run<K>>, x: Run<K>)
    requires q != []
    ensures Growing(q + [x]) == if Mergeable(Growing(q), x) then Join(Growing(q), x) else x
    ensures Closed(q + [x]) == if Mergeable(Growing(q), x) then Closed(q) else Closed(q) + [Growing(q)]
  {
    assert (q + [x])[..|q|] == q;
  }

  // ---- What merging keeps ----

  function Total<K>(q: seq<Run<K>>): nat
  {
    if q == [] then 0 else Total(q[..|q| - 1]) + Last(q).length
  }

  /** How many entries cover a stripe under a key. */
  function Count<K(==)>(q: seq<Run<K>>, key: K, stripe: nat): nat
  {
    if q == [] then 0
    else Count(q[..|q| - 1], key, stripe) + (if Covers(Last(q), key, stripe) then 1 else 0)
  }

  predicate Covers<K(==)>(x: Run<K>, key: K, stripe: nat)
  {
    x.key == key && x.start <= stripe < x.start + x.length
  }

  lemma TotalAppend<K>(q: seq<Run<K>>, x: Run<K>)
    ensures Total(q + [x]) == Total(q) + x.length
  {
    assert (q + [x])[..|q|] == q;
  }

  lemma CountAppend<K>(q: seq<Run<K>>, x: Run<K>, key: K, stripe: nat)
    ensures Count(q + [x], key, stripe) == Count(q, key, stripe) + (if Covers(x, key, stripe) then 1 else 0)
  {
    assert (q + [x])[..|q|] == q;
  }

  lemma {:induction false} PassTotal<K>(q: seq<Run<K>>)
    requires q != []
    ensures Total(Closed(q)) + Growing(q).length == Total(q)
  {
    var init := q[..|q| - 1];
    if init != [] {
      PassTotal(init);
      TotalAppend(Closed(init), Growing(init));
    }
  }

  /** Merging keeps the total length. */
  lemma RunsKeepTotal<K>(q: seq<Run<K>>)
    ensures Total(NonEmpty(Runs(q))) == Total(q)
  {
    NonEmptyTotal(Runs(q));
    if q != [] {
      PassTotal(q);
      TotalAppend(Closed(q), Growing(q));
    }
  }

  lemma {:induction false} NonEmptyTotal<K>(q: seq<Run<K>>)
    ensures Total(NonEmpty(q)) == Total(q)
  {
    if q != [] {
      NonEmptyTotal(q[..|q| - 1]);
      TotalAppend(NonEmpty(q[..|q| - 1]), Last(q));
    }
  }

  lemma {:induction false} PassCount<K>(q: seq<Run<K>>, key: K, stripe: nat)
    requires q != []
    ensures Count(Closed(q), key, stripe) + (if Covers(Growing(q), key, stripe) then 1 else 0) == Count(q, key, stripe)
  {
    var init := q[..|q| - 1];
    if init != [] {
      PassCount(init, key, stripe);
      CountAppend(Closed(init), Growing(init), key, stripe);
    }
  }

  /** Merging keeps, for every key and stripe, the number of covering entries. */
  lemma RunsKeepCount<K>(q: seq<Run<K>>, key: K, stripe: nat)
    ensures Count(NonEmpty(Runs(q)), key, stripe) == Count(q, key, stripe)
  {
    NonEmptyCount(Runs(q), key, stripe);
    if q != [] {
      PassCount(q, key, stripe);
      CountAppend(Closed(q), Growing(q), key, stripe);
    }
  }

  lemma {:induction false} NonEmptyCount<K>(q: seq<Run<K>>, key: K, stripe: nat)
    ensures Count(NonEmpty(q), key, stripe) == Count(q, key, stripe)
  {
    if q != [] {
      NonEmptyCount(q[..|q| - 1], key, stripe);
      CountAppend(NonEmpty(q[..|q| - 1]), Last(q), key, stripe);
    }
  }

  lemma {:induction false} Without<K>(q: seq<Run<K>>, i: nat, key: K, stripe: nat)
    requires i < |q|
    ensures Count(q[..i] + q[i + 1..], key, stripe) + (if Covers(q[i], key, stripe) then 1 else 0)
            == Count(q, key, stripe)
    ensures Total(q[..i] + q[i + 1..]) + q[i].length == Total(q)
  {
    var n := |q| - 1;
    if i == n {
      assert q[..i] + q[i + 1..] == q[..n];
    } else {
      var init := q[..n];
      Without(init, i, key, stripe);
      assert q[..i] + q[i + 1..] == (init[..i] + init[i + 1..]) + [q[n]];
      CountAppend(init[..i] + init[i + 1..], q[n], key, stripe);
      TotalAppend(init[..i] + init[i + 1..], q[n]);
    }
  }

  /** Rearranging a queue changes neither. */
  lemma {:induction false} SamePieces<K>(s: seq<Run<K>>, q: seq<Run<K>>, key: K, stripe: nat)
    requires multiset(s) == multiset(q)
    ensures Count(s, key, stripe) == Count(q, key, stripe) && Total(s) == Total(q)
    decreases |s|
  {
    if s == [] {
      assert |multiset(q)| == 0;
      assert q == [];
    } else {
      var x, init := Last(s), s[..|s| - 1];
      assert s == init + [x];
      assert x in multiset(q);
      var i :| 0 <= i < |q| && q[i] == x;
      var rest := q[..i] + q[i + 1..];
      TakenOut(q, i);
      TakenOut(s, |s| - 1);
      assert init + s[|s|..] == init;
      SamePieces(init, rest, key, stripe);
      Without(q, i, key, stripe);
    }
  }

  lemma TakenOut<T>(q: seq<T>, i: nat)
    requires i < |q|
    ensures multiset(q[..i] + q[i + 1..]) == multiset(q) - multiset{q[i]}
  {
    assert q == q[..i] + [q[i]] + q[i + 1..];
  }

  ghost predicate Apart<K>(q: seq<Run<K>>)
  {
    && (forall i | 0 <= i < |q| :: q[i].length > 0)
    && (forall i, j | 0 <= i < |q| - 1 && j == i + 1 :: !Mergeable(q[i], q[j]))
  }

  lemma ApartAppend<K>(q: seq<Run<K>>, x: Run<K>)
    requires Apart(q) && x.length > 0 && (q != [] ==> !Mergeable(Last(q), x))
    ensures Apart(q + [x])
  {
  }

  lemma {:induction false} PassApart<K>(q: seq<Run<K>>)
    requires q != [] && forall i | 0 <= i < |q| :: q[i].length > 0
    ensures Apart(Closed(q)) && Growing(q).length > 0
    ensures Closed(q) != [] ==> !Mergeable(Last(Closed(q)), Growing(q))
  {
    var init := q[..|q| - 1];
    assert Last(q).length > 0;
    if init != [] {
      PassApart(init);
      ApartAppend(Closed(init), Growing(init));
    }
  }

  /** Without empty input no two neighbours of the result can be merged. */
  lemma RunsSeparate<K>(q: seq<Run<K>>)
    requires forall i | 0 <= i < |q| :: q[i].length > 0
    ensures Apart(Runs(q)) && NonEmpty(Runs(q)) == Runs(q)
  {
    if q != [] {
      PassApart(q);
      ApartAppend(Closed(q), Growing(q));
    }
    NonEmptyOfPositive(Runs(q));
  }

  lemma {:induction false} NonEmptyOfPositive<K>(q: seq<Run<K>>)
    requires forall i | 0 <= i < |q| :: q[i].length > 0
    ensures NonEmpty(q) == q
  {
    if q != [] { NonEmptyOfPositive(q[..|q| - 1]); }
  }

  // ---- Order ----

  ghost predicate SortedBy<K(!new)>(less: (Run<K>, Run<K>) -> bool, q: seq<Run<K>>)
  {
    forall i, j | 0 <= i < j < |q| :: !less(q[j], q[i])
  }

  /** A strict order that only looks at key and start. */
  ghost predicate Order<K(!new)>(less: (Run<K>, Run<K>) -> bool)
  {
    && (forall x: Run<K>, y: Run<K>, z: Run<K> :: !less(y, x) && !less(z, y) ==> !less(z, x))
    && (forall x: Run<K>, y: Run<K> :: less(x, y) ==> !less(y, x))
    && (forall x: Run<K>, y: Run<K>, n: nat ::
          less(x.(length := n), y) == less(x, y) && less(x, y.(length := n)) == less(x, y))
  }

  lemma {:induction false} PassSorted<K(!new)>(less: (Run<K>, Run<K>) -> bool, q: seq<Run<K>>)
    requires Order(less) && SortedBy(less, q) && q != []
    ensures SortedBy(less, Closed(q)) && !less(Last(q), Growing(q)) && forall y | y in Closed(q) :: !less(Growing(q), y)
  {
    var init, x := q[..|q| - 1], Last(q);
    if init != [] {
      PassSorted(less, init);
      var g := Growing(init);
      assert !less(x, Last(init));
      assert !less(x, g);
      SortedAppend(less, Closed(init), g);
      forall y | y in Closed(init) ensures !less(x, y) && !less(Join(g, x), y) {
        assert less(Join(g, x), y) == less(g, y);
      }
      assert less(x, Join(g, x)) == less(x, g);
    }
  }

  lemma RunsSorted<K(!new)>(less: (Run<K>, Run<K>) -> bool, q: seq<Run<K>>)
    requires Order(less) && SortedBy(less, q)
    ensures SortedBy(less, Runs(q))
  {
    if q != [] {
      PassSorted(less, q);
      SortedAppend(less, Closed(q), Growing(q));
    }
  }

  lemma SortedAppend<K(!new)>(less: (Run<K>, Run<K>) -> bool, q: seq<Run<K>>, x: Run<K>)
    requires SortedBy(less, q) && forall y | y in q :: !less(x, y)
    ensures SortedBy(less, q + [x])
  {
  }

  lemma {:induction false} NonEmptySorted<K(!new)>(less: (Run<K>, Run<K>) -> bool, q: seq<Run<K>>)
    requires SortedBy(less, q)
    ensures SortedBy(less, NonEmpty(q))
    ensures forall x | x in NonEmpty(q) :: x in q && x.length > 0
  {
    if q != [] {
      NonEmptySorted(less, q[..|q| - 1]);
      assert forall x | x in q[..|q| - 1] :: x in q && !less(Last(q), x);
    }
  }

  /** sort.Sort, as an insertion sort: any sorted rearrangement would do. */
  method Sort<K(!new)>(q: seq<Run<K>>, less: (Run<K>, Run<K>) -> bool) returns (r: seq<Run<K>>)
    requires Order(less)
    ensures SortedBy(less, r) && multiset(r) == multiset(q)
  {
    r := [];
    for i := 0 to |q|
      invariant SortedBy(less, r) && multiset(r) == multiset(q[..i])
    {
      var k := |r|;
      while k > 0 && less(q[i], r[k - 1])
        invariant 0 <= k <= |r| && forall j | k <= j < |r| :: less(q[i], r[j])
      {
        k := k - 1;
      }
      r := InsertAt(less, r, k, q[i]);
      assert q[..i + 1] == q[..i] + [q[i]];
    }
    assert q[..|q|] == q;
  }

  method InsertAt<K(!new)>(less: (Run<K>, Run<K>) -> bool, r: seq<Run<K>>, k: nat, x: Run<K>) returns (out: seq<Run<K>>)
    requires Order(less) && SortedBy(less, r) && k <= |r| && (k > 0 ==> !less(x, r[k - 1]))
    requires forall j | k <= j < |r| :: less(x, r[j])
    ensures SortedBy(less, out) && multiset(out) == multiset(r) + multiset{x}
  {
    out := r[..k] + [x] + r[k..];
    assert r == r[..k] + r[k..];
    NotBelow(less, r, k, x);
    InsertSorted(less, r, k, x);
  }

  lemma NotBelow<K(!new)>(less: (Run<K>, Run<K>) -> bool, r: seq<Run<K>>, k: nat, x: Run<K>)
    requires Order(less) && SortedBy(less, r) && k <= |r| && (k > 0 ==> !less(x, r[k - 1]))
    requires forall j | k <= j < |r| :: less(x, r[j])
    ensures forall j | 0 <= j < k :: !less(x, r[j])
    ensures forall j | k <= j < |r| :: !less(r[j], x)
  {
    forall j | 0 <= j < k ensures !less(x, r[j]) {
      if j < k - 1 { assert !less(r[k - 1], r[j]); }
    }
  }

  lemma InsertSorted<K(!new)>(less: (Run<K>, Run<K>) -> bool, r: seq<Run<K>>, k: nat, x: Run<K>)
    requires SortedBy(less, r) && k <= |r|
    requires forall j | 0 <= j < k :: !less(x, r[j])
    requires forall j | k <= j < |r| :: !less(r[j], x)
    ensures SortedBy(less, r[..k] + [x] + r[k..])
  {
    var out := r[..k] + [x] + r[k..];
    forall i, j | 0 <= i < j < |out| ensures !less(out[j], out[i]) {
      var a, b := if i < k then i else i - 1, if j < k then j else j - 1;
      if i == k {
        assert out[j] == r[b];
      } else if j == k {
        assert out[i] == r[a];
      } else {
        assert out[i] == r[a] && out[j] == r[b];
      }
    }
  }

  // ---- Merge ----

  /** Let the head at i take over its successors; j is where the next run starts. */
  method MergeHead<K(==)>(s: seq<Run<K>>, b: seq<Run<K>>, i: nat) returns (a: seq<Run<K>>, j: nat)
    requires i < |b| == |s| && (forall p | i <= p < |s| :: b[p] == s[p]) && Growing(s[..i + 1]) == s[i]
    ensures i < j <= |a| == |s|
    ensures (forall p | 0 <= p < i :: a[p] == b[p]) && (forall p | i < p < j :: a[p].length == 0)
    ensures forall p | j <= p < |s| :: a[p] == s[p]
    ensures Growing(s[..j]) == a[i] && Closed(s[..j]) == Closed(s[..i + 1])
    ensures j < |s| ==> !Mergeable(a[i], s[j])
  {
    a, j := b, i + 1;
    while j < |a|
      invariant i < j <= |a| == |s|
      invariant (forall p | 0 <= p < i :: a[p] == b[p]) && (forall p | i < p < j :: a[p].length == 0)
      invariant forall p | j <= p < |s| :: a[p] == s[p]
      invariant Growing(s[..j]) == a[i] && Closed(s[..j]) == Closed(s[..i + 1])
    {
      if !Mergeable(a[i], a[j]) { return; }
      Taken(s, j);
      a := a[i := Join(a[i], a[j])];
      a := a[j := a[j].(length := 0)];
      j := j + 1;
    }
  }

  lemma Taken<K>(s: seq<Run<K>>, j: nat)
    requires 0 < j < |s|
    ensures var g := Growing(s[..j]);
            && Growing(s[..j + 1]) == (if Mergeable(g, s[j]) then Join(g, s[j]) else s[j])
            && Closed(s[..j + 1]) == (if Mergeable(g, s[j]) then Closed(s[..j]) else Closed(s[..j]) + [g])
  {
    assert s[..j + 1] == s[..j] + [s[j]];
    PassAppend(s[..j], s[j]);
  }

  /** The merging pass, in place: the head of a run takes over the lengths of its successors. */
  method MergePass<K(==)>(s: seq<Run<K>>) returns (a: seq<Run<K>>)
    ensures |a| == |s| && NonEmpty(a) == NonEmpty(Runs(s))
  {
    a := s;
    var i := 0;
    while i < |a|
      invariant 0 <= i <= |a| == |s| && forall p | i <= p < |s| :: a[p] == s[p]
      invariant NonEmpty(a[..i]) == NonEmpty(Runs(s[..i]))
      invariant i < |s| ==> Growing(s[..i + 1]) == s[i] && Closed(s[..i + 1]) == Runs(s[..i])
    {
      ghost var prefix := a[..i];
      var j;
      a, j := MergeHead(s, a, i);
      OneMoreRun(a, prefix, i, j, Runs(s[..i]));
      if j < |s| { Taken(s, j); }
      i := j;
    }
    assert a[..|a|] == a && s[..|s|] == s;
  }

  /** Entries i + 1 .. j are empty, so the prefix shows just one more run. */
  lemma {:induction false} OneMoreRun<K>(a: seq<Run<K>>, prefix: seq<Run<K>>, i: nat, j: nat, runs: seq<Run<K>>)
    requires i < j <= |a| && |prefix| == i && (forall p | 0 <= p < i :: a[p] == prefix[p])
    requires forall p | i < p < j :: a[p].length == 0
    requires NonEmpty(prefix) == NonEmpty(runs)
    ensures NonEmpty(a[..j]) == NonEmpty(runs + [a[i]])
  {
    if j == i + 1 {
      assert a[..j] == prefix + [a[i]];
      NonEmptyAppend(prefix, a[i]);
      NonEmptyAppend(runs, a[i]);
    } else {
      OneMoreRun(a, prefix, i, j - 1, runs);
      assert a[..j] == a[..j - 1] + [a[j - 1]];
      NonEmptyAppend(a[..j - 1], a[j - 1]);
    }
  }

  /** The compacting pass: non-empty entries move to the front, then the slice is cut. */
  method Compact<K>(s: seq<Run<K>>) returns (r: seq<Run<K>>)
    ensures r == NonEmpty(s)
  {
    var a := s;
    var j := 0;
    for i := 0 to |s|
      invariant 0 <= j <= i && |a| == |s| && a[i..] == s[i..] && a[..j] == NonEmpty(s[..i])
    {
      assert s[..i + 1] == s[..i] + [s[i]];
      NonEmptyAppend(s[..i], s[i]);
      assert a[i] == s[i];
      if a[i].length == 0 { continue; }
      a := a[j := a[i]];
      j := j + 1;
    }
    assert s[..|s|] == s;
    return a[..j];
  }

  /** Merge of all three queues. */
  method Merge<K(==, !new)>(q: seq<Run<K>>, less: (Run<K>, Run<K>) -> bool) returns (r: seq<Run<K>>)
    requires Order(less)
    ensures SortedBy(less, r) && forall x | x in r :: x.length > 0
    ensures Total(r) == Total(q)
    ensures forall key, stripe: nat :: Count(r, key, stripe) == Count(q, key, stripe)
    ensures (forall x | x in q :: x.length > 0) ==> Apart(r)
    ensures exists s :: MergeOf(less, q, s, r)
  {
    var s := Sort(q, less);
    var a := MergePass(s);
    r := Compact(a);
    MergeIsRight(less, q, s, r);
    assert MergeOf(less, q, s, r);
  }

  /** r is what merging makes of q, which sorting has turned into s. */
  ghost predicate MergeOf<K(!new)>(less: (Run<K>, Run<K>) -> bool, q: seq<Run<K>>, s: seq<Run<K>>, r: seq<Run<K>>)
  {
    SortedBy(less, s) && multiset(s) == multiset(q) && r == NonEmpty(Runs(s))
  }

  lemma MergeIsRight<K(!new)>(less: (Run<K>, Run<K>) -> bool, q: seq<Run<K>>, s: seq<Run<K>>, r: seq<Run<K>>)
    requires Order(less) && SortedBy(less, s) && multiset(s) == multiset(q) && r == NonEmpty(Runs(s))
    ensures SortedBy(less, r) && forall x | x in r :: x.length > 0
    ensures Total(r) == Total(q)
    ensures forall key, stripe: nat :: Count(r, key, stripe) == Count(q, key, stripe)
    ensures (forall x | x in q :: x.length > 0) ==> Apart(r)
  {
    RunsSorted(less, s);
    NonEmptySorted(less, Runs(s));
    RunsKeepTotal(s);
    if s != [] {
      SamePieces(s, q, s[0].key, 0);
    } else {
      assert |multiset(q)| == 0;
    }
    forall key, stripe: nat ensures Count(r, key, stripe) == Count(q, key, stripe) {
      RunsKeepCount(s, key, stripe);
      SamePieces(s, q, key, stripe);
    }
    if forall x | x in q :: x.length > 0 {
      forall i | 0 <= i < |s| ensures s[i].length > 0 {
        assert s[i] in multiset(s);
        assert s[i] in q;
      }
      RunsSeparate(s);
    }
  }

  // ---- The stripe queue of a provider ----

  /** StripeQueue is sorted by start alone; its merge key is the chunk. */
  function ByStart(): (Run<nat>, Run<nat>) -> bool
  {
    (x: Run<nat>, y: Run<nat>) => x.start < y.start
  }

  /** StripeQueue.Has */
  method Has(q: seq<Run<nat>>, stripe: nat, chunk: nat) returns (found: bool)
    requires SortedBy(ByStart(), q)
    ensures found <==> Count(q, chunk, stripe) > 0
  {
    for i := 0 to |q|
      invariant Count(q[..i], chunk, stripe) == 0
    {
      assert q[..i + 1] == q[..i] + [q[i]];
      CountAppend(q[..i], q[i], chunk, stripe);
      if q[i].start > stripe {
        NothingAfter(q, i, stripe, chunk, |q|);
        assert q[..|q|] == q;
        return false;
      }
      if q[i].start + q[i].length > stripe && q[i].key == chunk {
        CountGrows(q, i + 1, chunk, stripe);
        return true;
      }
    }
    assert q[..|q|] == q;
    return false;
  }

  lemma {:induction false} NothingAfter(q: seq<Run<nat>>, i: nat, stripe: nat, chunk: nat, n: nat)
    requires SortedBy(ByStart(), q) && i <= n <= |q| && i < |q|
    requires q[i].start > stripe && Count(q[..i], chunk, stripe) == 0
    ensures Count(q[..n], chunk, stripe) == 0
  {
    if n > i {
      NothingAfter(q, i, stripe, chunk, n - 1);
      assert q[..n] == q[..n - 1] + [q[n - 1]];
      CountAppend(q[..n - 1], q[n - 1], chunk, stripe);
      if i < n - 1 { assert !ByStart()(q[n - 1], q[i]); }
    }
  }

  lemma {:induction false} CountGrows(q: seq<Run<nat>>, i: nat, chunk: nat, stripe: nat)
    requires i <= |q|
    ensures Count(q[..i], chunk, stripe) <= Count(q, chunk, stripe)
  {
    if i < |q| {
      assert q[..|q| - 1][..i] == q[..i];
      CountGrows(q[..|q| - 1], i, chunk, stripe);
    } else {
      assert q[..i] == q;
    }
  }

  /** A run of the original queue covers the stripe under the chunk. */
  ghost predicate Holds(q: seq<Run<nat>>, stripe: nat, chunk: nat)
  {
    exists i :: 0 <= i < |q| && Covers(q[i], chunk, stripe)
  }

  lemma {:induction false} CountIsHolds(q: seq<Run<nat>>, stripe: nat, chunk: nat)
    ensures Count(q, chunk, stripe) > 0 <==> Holds(q, stripe, chunk)
  {
    if q != [] {
      var init := q[..|q| - 1];
      CountIsHolds(init, stripe, chunk);
      if Holds(init, stripe, chunk) {
        var i :| 0 <= i < |init| && Covers(init[i], chunk, stripe);
        assert Covers(q[i], chunk, stripe);
      }
      if Holds(q, stripe, chunk) {
        var i :| 0 <= i < |q| && Covers(q[i], chunk, stripe);
        if i < |init| { assert Covers(init[i], chunk, stripe); }
      }
    }
  }

  /** Merge, then look up: the answer is whether the original, unsorted queue covers the stripe. */
  method MergedHas(q: seq<Run<nat>>, stripe: nat, chunk: nat) returns (found: bool)
    ensures found <==> Holds(q, stripe, chunk)
  {
    var r := Merge(q, ByStart());
    found := Has(r, stripe, chunk);
    CountIsHolds(q, stripe, chunk);
  }

  /** AggSegsQueue.Less: by bucket, then by start. */
  function ByBucket(): (Run<nat>, Run<nat>) -> bool
  {
    (x: Run<nat>, y: Run<nat>) => if x.key != y.key then x.key < y.key else x.start < y.start
  }

  /** SegJobsQueue.Less: by bucket, then by job, then by start. */
  function ByJob(): (Run<(nat, nat)>, Run<(nat, nat)>) -> bool
  {
    (x: Run<(nat, nat)>, y: Run<(nat, nat)>) =>
      if x.key.0 != y.key.0 then x.key.0 < y.key.0
      else if x.key.1 != y.key.1 then x.key.1 < y.key.1
      else x.start < y.start
  }

  /** The comparisons of the three queues are weak orders that ignore lengths, as Merge needs. */
  lemma QueueOrders()
    ensures Order(ByStart()) && Order(ByBucket()) && Order(ByJob())
  {
    JobOrder();
  }

  lemma JobOrder()
    ensures Order(ByJob())
  {
  }

  /** A queue with one more run: the last entry extended, or a new one. */
  function Pushed<K(==)>(q: seq<Run<K>>, x: Run<K>): seq<Run<K>>
  {
    if q == [] || !Mergeable(Last(q), x) then q + [x] else q[..|q| - 1] + [Join(Last(q), x)]
  }

  /** Push of all three queues: extend the last entry or append a new one. */
  method Push<K(==)>(q: seq<Run<K>>, x: Run<K>) returns (r: seq<Run<K>>)
    ensures r == Pushed(q, x)
    ensures Total(r) == Total(q) + x.length
    ensures forall key, stripe: nat ::
              Count(r, key, stripe) == Count(q, key, stripe) + (if Covers(x, key, stripe) then 1 else 0)
    ensures Apart(q) && x.length > 0 ==> Apart(r)
  {
    TotalAppend(q, x);
    forall key, stripe: nat
      ensures Count(q + [x], key, stripe) == Count(q, key, stripe) + (if Covers(x, key, stripe) then 1 else 0) {
      CountAppend(q, x, key, stripe);
    }
    if |q| == 0 || !Mergeable(q[|q| - 1], x) {
      return q + [x];
    }
    var init, last := q[..|q| - 1], q[|q| - 1];
    r := init + [Join(last, x)];
    TotalAppend(init, Join(last, x));
    forall key, stripe: nat
      ensures Count(r, key, stripe) == Count(q, key, stripe) + (if Covers(x, key, stripe) then 1 else 0) {
      CountAppend(init, Join(last, x), key, stripe);
    }
    if Apart(q) && x.length > 0 {
      ApartAppend(init, Join(last, x));
    }
  }
}
