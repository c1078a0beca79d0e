/** The keeper quorum that a block needs. */
module Quorum {
  import opened Types
  import opened Chain
  import opened Confirmations

  /** The keeper list holds exactly the registered keepers, once each. */
  ghost predicate KeepersOk(s: State)
  {
    && Distinct(s.roles.keepers)
    && forall k :: k in s.roles.keepers <==> k in s.roles.base && s.roles.base[k].typ == Keeper
  }

  lemma KeepersStep(c: Crypto, s: State, from: nat, body: Payload, t: State)
    requires KeepersOk(s) && Step(c, s, from, body) == Ok(t)
    ensures KeepersOk(t)
  {
    match body
    case AddRole(role) =>
      assert from !in s.roles.keepers;
    case Malformed(_) =>
    case _ => assert t.roles == s.roles;
  }

  ghost function Members(xs: seq<nat>): set<nat>
  {
    set x | x in xs
  }

  lemma {:induction false} DistinctCount(xs: seq<nat>)
    requires Distinct(xs)
    ensures |Members(xs)| == |xs|
  {
    if xs == [] {
      assert Members(xs) == {};
    } else {
      var n := |xs| - 1;
      DistinctCount(xs[..n]);
      assert Members(xs) == Members(xs[..n]) + {xs[n]};
      assert xs[n] !in xs[..n];
    }
  }

  lemma UnionCount(a: set<nat>, b: set<nat>, all: set<nat>)
    requires a <= all && b <= all
    ensures |a| + |b| <= |all| + |a * b|
  {
    assert |a + b| + |a * b| == |a| + |b|;
    assert a + b <= all;
    SubsetCount(a + b, all);
  }

  lemma SubsetCount(a: set<nat>, b: set<nat>)
    requires a <= b
    ensures |a| <= |b|
  {
    assert b == a + (b - a);
  }

  /** Any two signer lists that pass the block check share more keepers than may be faulty. */
  lemma QuorumsIntersect(s: State, x: seq<nat>, y: seq<nat>)
    requires KeepersOk(s) && |s.roles.keepers| > 0 && EnoughSigners(s, x) && EnoughSigners(s, y)
    ensures var common := ValidSigners(s.roles.keepers, x) * ValidSigners(s.roles.keepers, y);
            |common| > (|s.roles.keepers| - 1) / 3
  {
    var ks := s.roles.keepers;
    DistinctCount(ks);
    UnionCount(ValidSigners(ks, x), ValidSigners(ks, y), Members(ks));
  }

  /** The computed bound, when it is the one in force, is met by the keepers left when (n - 1) / 3
      of them are silent. */
  lemma QuorumReachable(s: State, silent: set<nat>, x: seq<nat>)
    requires KeepersOk(s) && |s.roles.keepers| > 0 && s.threshold <= 2 * (|s.roles.keepers| + 1) / 3
    requires silent <= Members(s.roles.keepers) && |silent| <= (|s.roles.keepers| - 1) / 3
    requires Distinct(x) && Members(x) == Members(s.roles.keepers) - silent
    ensures EnoughSigners(s, x)
  {
    var ks := s.roles.keepers;
    DistinctCount(ks);
    DistinctCount(x);
    assert ValidSigners(ks, x) == Members(x);
    assert Members(ks) == silent + Members(x);
  }
}
