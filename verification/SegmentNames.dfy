/** The field element of a list of segments is the sum over the names of its segments, one for each
    stripe of each run. */
module SegmentNames {
  import opened Types
  import opened Chain
  import Q = SegQueues

  /** What the hash of a segment covers besides the id of the file system. */
  datatype Name = Name(bucket: nat, stripe: nat, chunk: nat)

  /** The names of a run, by position. */
  function RunNames(seg: AggSegs): (r: seq<Name>)
    ensures |r| == seg.length
    ensures forall i :: 0 <= i < seg.length ==> r[i] == Name(seg.bucket, seg.start + i, seg.chunk)
  {
    seq(seg.length, i requires 0 <= i < seg.length => Name(seg.bucket, seg.start + i, seg.chunk))
  }

  function Names(segs: seq<AggSegs>): seq<Name>
  {
    if segs == [] then [] else RunNames(segs[0]) + Names(segs[1..])
  }

  function Hash(c: Crypto, fsId: nat, name: Name): Fr
  {
    c.segFr(fsId, name.bucket, name.stripe, name.chunk)
  }

  /** The sum of the hashes of some names. */
  function Sum(c: Crypto, fsId: nat, names: seq<Name>): Fr
  {
    if names == [] then 0 else FrAdd(Hash(c, fsId, names[0]), Sum(c, fsId, names[1..]))
  }

  lemma {:induction false} SumOfTwo(c: Crypto, fsId: nat, a: seq<Name>, b: seq<Name>)
    ensures Sum(c, fsId, a + b) == FrAdd(Sum(c, fsId, a), Sum(c, fsId, b))
  {
    if a == [] {
      assert a + b == b;
    } else {
      assert (a + b)[1..] == a[1..] + b && (a + b)[0] == a[0];
      SumOfTwo(c, fsId, a[1..], b);
      FrAddAssoc(Hash(c, fsId, a[0]), Sum(c, fsId, a[1..]), Sum(c, fsId, b));
    }
  }

  lemma {:induction false} NamesOfTwo(a: seq<AggSegs>, b: seq<AggSegs>)
    ensures Names(a + b) == Names(a) + Names(b)
  {
    if a == [] {
      assert a + b == b;
    } else {
      assert (a + b)[1..] == a[1..] + b && (a + b)[0] == a[0];
      NamesOfTwo(a[1..], b);
    }
  }

  /** The names of a list are exactly the stripes of its runs, each run in its place. */
  lemma {:induction false} NameAt(segs: seq<AggSegs>, j: nat, i: nat)
    requires j < |segs| && i < segs[j].length
    ensures |Names(segs)| == CountSegs(segs) && CountSegs(segs[..j]) + i < CountSegs(segs)
    ensures Names(segs)[CountSegs(segs[..j]) + i] == Name(segs[j].bucket, segs[j].start + i, segs[j].chunk)
  {
    NamesCount(segs);
    NamesCount(segs[..j]);
    assert segs == segs[..j] + (segs[j..j + 1] + segs[j + 1..]);
    NamesOfTwo(segs[..j], segs[j..j + 1] + segs[j + 1..]);
    NamesOfTwo(segs[j..j + 1], segs[j + 1..]);
    assert Names(segs[j..j + 1]) == RunNames(segs[j]) + Names(segs[j..j + 1][1..]);
  }

  lemma {:induction false} NamesCount(segs: seq<AggSegs>)
    ensures |Names(segs)| == CountSegs(segs)
  {
    if segs != [] {
      var n := |segs| - 1;
      NamesCount(segs[..n]);
      assert segs == segs[..n] + [segs[n]];
      NamesOfTwo(segs[..n], [segs[n]]);
      OneRun(segs[n]);
    }
  }

  lemma OneRun(seg: AggSegs)
    ensures Names([seg]) == RunNames(seg)
  {
    assert [seg][1..] == [];
  }

  lemma {:induction false} RunFrIsSum(c: Crypto, fsId: nat, seg: AggSegs, n: nat, acc: Fr)
    requires n <= seg.length
    ensures RunFr(c, fsId, seg, n, acc) == FrAdd(acc, Sum(c, fsId, RunNames(seg)[..n]))
  {
    if n > 0 {
      RunFrIsSum(c, fsId, seg, n - 1, acc);
      var names, last := RunNames(seg)[..n - 1], RunNames(seg)[n - 1];
      assert RunNames(seg)[..n] == names + [last];
      SumOfTwo(c, fsId, names, [last]);
      assert [last][1..] == [];
      assert Sum(c, fsId, [last]) == Hash(c, fsId, last);
      FrAddAssoc(acc, Sum(c, fsId, names), Hash(c, fsId, last));
    }
  }

  /** The element computed for a list is the sum over its names. */
  lemma {:induction false} SegsFrIsSum(c: Crypto, fsId: nat, segs: seq<AggSegs>)
    ensures SegsFr(c, fsId, segs) == Sum(c, fsId, Names(segs))
  {
    if segs != [] {
      var n := |segs| - 1;
      SegsFrIsSum(c, fsId, segs[..n]);
      RunFrIsSum(c, fsId, segs[n], segs[n].length, SegsFr(c, fsId, segs[..n]));
      assert RunNames(segs[n])[..segs[n].length] == RunNames(segs[n]);
      assert segs == segs[..n] + [segs[n]];
      NamesOfTwo(segs[..n], [segs[n]]);
      OneRun(segs[n]);
      SumOfTwo(c, fsId, Names(segs[..n]), RunNames(segs[n]));
    }
  }

  /** Lists just add. */
  lemma SegsFrOfTwo(c: Crypto, fsId: nat, a: seq<AggSegs>, b: seq<AggSegs>)
    ensures SegsFr(c, fsId, a + b) == FrAdd(SegsFr(c, fsId, a), SegsFr(c, fsId, b))
  {
    SegsFrIsSum(c, fsId, a + b);
    SegsFrIsSum(c, fsId, a);
    SegsFrIsSum(c, fsId, b);
    NamesOfTwo(a, b);
    SumOfTwo(c, fsId, Names(a), Names(b));
  }

  /** Splitting a run in two changes nothing. */
  lemma SplitRun(c: Crypto, fsId: nat, seg: AggSegs, n: nat)
    requires n <= seg.length
    ensures var halves := [seg.(length := n), seg.(start := seg.start + n, length := seg.length - n)];
            Names(halves) == Names([seg]) && SegsFr(c, fsId, halves) == SegsFr(c, fsId, [seg])
  {
    var a, b := seg.(length := n), seg.(start := seg.start + n, length := seg.length - n);
    assert [a, b] == [a] + [b];
    NamesOfTwo([a], [b]);
    OneRun(a);
    OneRun(b);
    OneRun(seg);
    assert RunNames(a) + RunNames(b) == RunNames(seg);
    SegsFrIsSum(c, fsId, [a, b]);
    SegsFrIsSum(c, fsId, [seg]);
  }

  lemma TakeOut(c: Crypto, fsId: nat, b: seq<Name>, i: nat)
    requires i < |b|
    ensures Sum(c, fsId, b) == FrAdd(Hash(c, fsId, b[i]), Sum(c, fsId, b[..i] + b[i + 1..]))
  {
    var x, y, z := b[..i], [b[i]], b[i + 1..];
    assert b == x + (y + z) && y[1..] == [];
    SumOfTwo(c, fsId, x, y + z);
    SumOfTwo(c, fsId, y, z);
    SumOfTwo(c, fsId, x, z);
    FrAddAssoc(Sum(c, fsId, x), Hash(c, fsId, b[i]), Sum(c, fsId, z));
    FrAddAssoc(Hash(c, fsId, b[i]), Sum(c, fsId, x), Sum(c, fsId, z));
  }

  /** The order of the names does not matter. */
  lemma {:induction false} SumOfSame(c: Crypto, fsId: nat, a: seq<Name>, b: seq<Name>)
    requires multiset(a) == multiset(b)
    ensures Sum(c, fsId, a) == Sum(c, fsId, b)
    decreases |a|
  {
    if a == [] {
      assert |multiset(b)| == 0;
    } else {
      assert a[0] in multiset(b);
      var i :| 0 <= i < |b| && b[i] == a[0];
      Q.TakenOut(a, 0);
      Q.TakenOut(b, i);
      assert a[..0] + a[1..] == a[1..];
      SumOfSame(c, fsId, a[1..], b[..i] + b[i + 1..]);
      TakeOut(c, fsId, b, i);
    }
  }
}
