/**
 The MPI communicators made by a chain of team splits. All PEs in the parent's
 communicator call `MPI_Comm_split`; section 6.4.2 of MPI 3.1 orders the new ranks
 by key. The key is the caller's world PE, so keys are distinct and no tie has to
 be broken. Splits do not check that a team's members exist or lie in the parent,
 so a communicator can be smaller than the team it belongs to.
 */
module Communicator {
  import opened Arith
  import opened Teams

  ghost function First(t: Team, n: int): set<int> {
    set i | 0 <= i < n :: PeInWorld(t, i)
  }

  /** Color 1 iff the caller computed a non-negative PE in the new team. */
  predicate ColorOne(t: Team, w: int)
    requires t.stride > 0
  {
    PeInActiveSet(t.start, t.stride, t.size, w) >= 0
  }

  /** The PEs in the communicator of the team that a chain of splits makes: those
      that were in the parent's communicator and got color 1. */
  ghost function Comm(numPes: int, chain: seq<Args>): set<int>
    requires numPes >= 1 && Chain(numPes, chain).Some?
  {
    if chain == [] then First(World(numPes), numPes)
    else
      ChainWellFormed(numPes, chain);
      set w | w in Comm(numPes, chain[..|chain| - 1]) && ColorOne(Chain(numPes, chain).value, w)
  }

  /** Rank by key order: how many PEs in the communicator have a smaller key. */
  ghost function CommRank(numPes: int, chain: seq<Args>, w: int): nat
    requires numPes >= 1 && Chain(numPes, chain).Some?
  {
    |set q | q in Comm(numPes, chain) && q < w|
  }

  function LastPe(t: Team): int {
    PeInWorld(t, t.size - 1)
  }

  /** The smallest last member along the chain, the world's included. */
  function Reach(numPes: int, chain: seq<Args>): int
    requires numPes >= 1 && Chain(numPes, chain).Some?
  {
    var last := LastPe(Chain(numPes, chain).value);
    if chain == [] then last
    else var up := Reach(numPes, chain[..|chain| - 1]); if last < up then last else up
  }

  /** Member i of the team, at a PE that no ancestor excludes. */
  predicate Reached(numPes: int, chain: seq<Args>, i: int)
    requires numPes >= 1 && Chain(numPes, chain).Some?
  {
    0 <= i < Chain(numPes, chain).value.size && PeInWorld(Chain(numPes, chain).value, i) <= Reach(numPes, chain)
  }

  lemma MemberOrder(t: Team, i: int, k: int)
    requires t.stride > 0
    ensures i <= k <==> PeInWorld(t, i) <= PeInWorld(t, k)
  {
    if i <= k {
      MulMonotone(t.stride, i, k);
    } else {
      MulStep(t.stride, k, i);
    }
  }

  lemma ColorIsMember(t: Team, w: int, i: int)
    requires WellFormed(t)
    ensures PeInActiveSet(t.start, t.stride, t.size, w) == i && i >= 0 <==> IsMember(t, i, w)
    ensures ColorOne(t, w) ==> IsMember(t, PeInActiveSet(t.start, t.stride, t.size, w), w)
  {
    ActiveSetAgrees(t, w);
    PeInTeamIff(t, w, i);
    PeInTeamIff(t, w, PeInTeam(t, w));
  }

  lemma {:induction false} ReachBelowLast(numPes: int, chain: seq<Args>)
    requires numPes >= 1 && Chain(numPes, chain).Some?
    ensures Reach(numPes, chain) <= LastPe(Chain(numPes, chain).value)
    ensures chain != [] ==> Reach(numPes, chain) <= Reach(numPes, chain[..|chain| - 1])
  {
  }

  /** One split: a reached member of the team is a reached member of the parent. */
  lemma ReachedInParent(numPes: int, chain: seq<Args>, i: int)
    requires numPes >= 1 && chain != [] && Chain(numPes, chain).Some? && Reached(numPes, chain, i)
    ensures var up, a := chain[..|chain| - 1], chain[|chain| - 1];
      && Reached(numPes, up, a.start + a.stride * i)
      && PeInWorld(Chain(numPes, chain).value, i) == PeInWorld(Chain(numPes, up).value, a.start + a.stride * i)
  {
    var up, a := chain[..|chain| - 1], chain[|chain| - 1];
    var parent := Chain(numPes, up).value;
    ChainWellFormed(numPes, up);
    SplitMember(numPes, parent, a, i);
    MulMonotone(a.stride, 0, i);
    ReachBelowLast(numPes, up);
    MemberOrder(parent, a.start + a.stride * i, parent.size - 1);
  }

  /** Exactly the members that lie within every ancestor are in the communicator. */
  lemma {:induction false} CommIff(numPes: int, chain: seq<Args>, w: int)
    requires numPes >= 1 && Chain(numPes, chain).Some?
    ensures w in Comm(numPes, chain) <==>
            exists i :: Reached(numPes, chain, i) && w == PeInWorld(Chain(numPes, chain).value, i)
    decreases |chain|
  {
    if chain == [] {
      assert w in Comm(numPes, chain) ==> Reached(numPes, chain, w);
      assert 0 <= w < numPes ==> PeInWorld(World(numPes), w) in Comm(numPes, chain);
    } else {
      var up, t := chain[..|chain| - 1], Chain(numPes, chain).value;
      ChainWellFormed(numPes, chain);
      CommIff(numPes, up, w);
      if w in Comm(numPes, chain) {
        var k :| Reached(numPes, up, k) && w == PeInWorld(Chain(numPes, up).value, k);
        ColoredIsReached(numPes, chain, w);
      }
      if i :| Reached(numPes, chain, i) && w == PeInWorld(t, i) {
        ReachedInParent(numPes, chain, i);
        ColorIsMember(t, w, i);
      }
    }
  }

  lemma {:induction false} ColoredIsReached(numPes: int, chain: seq<Args>, w: int)
    requires numPes >= 1 && chain != [] && Chain(numPes, chain).Some? && WellFormed(Chain(numPes, chain).value)
    requires w <= Reach(numPes, chain[..|chain| - 1]) && ColorOne(Chain(numPes, chain).value, w)
    ensures exists i :: Reached(numPes, chain, i) && w == PeInWorld(Chain(numPes, chain).value, i)
  {
    var t := Chain(numPes, chain).value;
    var i := PeInActiveSet(t.start, t.stride, t.size, w);
    ColorIsMember(t, w, i);
    MemberOrder(t, i, t.size - 1);
    assert Reached(numPes, chain, i);
  }

  lemma {:induction false} FirstSize(t: Team, n: nat)
    requires t.stride > 0
    ensures |First(t, n)| == n
  {
    if n == 0 {
      assert First(t, 0) == {};
    } else {
      FirstSize(t, n - 1);
      var last := PeInWorld(t, n - 1);
      forall i | 0 <= i < n - 1 ensures PeInWorld(t, i) < last {
        MulStep(t.stride, i, n - 1);
      }
      assert last !in First(t, n - 1);
      assert First(t, n) == First(t, n - 1) + {last};
    }
  }

  /** The PEs of the communicator below a reached member m are the members 0..m-1. */
  lemma {:induction false} CommBelow(numPes: int, chain: seq<Args>, m: int)
    requires numPes >= 1 && Chain(numPes, chain).Some? && Reached(numPes, chain, m)
    ensures var t := Chain(numPes, chain).value;
      (set q | q in Comm(numPes, chain) && q < PeInWorld(t, m)) == First(t, m)
  {
    var t := Chain(numPes, chain).value;
    ChainWellFormed(numPes, chain);
    var below := set q | q in Comm(numPes, chain) && q < PeInWorld(t, m);
    forall q | q in below ensures q in First(t, m) {
      CommIff(numPes, chain, q);
      var i :| Reached(numPes, chain, i) && q == PeInWorld(t, i);
      MemberOrder(t, m, i);
    }
    forall q | q in First(t, m) ensures q in below {
      var i :| 0 <= i < m && q == PeInWorld(t, i);
      MulStep(t.stride, i, m);
      assert Reached(numPes, chain, i);
      CommIff(numPes, chain, q);
    }
  }

  /** Communicator agreement: on every PE that joins the team, the MPI rank is the
      PE number the library computed for it. */
  lemma {:induction false} RankAgrees(numPes: int, chain: seq<Args>, w: int)
    requires numPes >= 1 && Chain(numPes, chain).Some? && w in Comm(numPes, chain)
    ensures var t := Chain(numPes, chain).value;
      t.stride > 0 && CommRank(numPes, chain, w) == PeInActiveSet(t.start, t.stride, t.size, w)
  {
    var t := Chain(numPes, chain).value;
    ChainWellFormed(numPes, chain);
    CommIff(numPes, chain, w);
    var i :| Reached(numPes, chain, i) && w == PeInWorld(t, i);
    CommBelow(numPes, chain, i);
    FirstSize(t, i);
    ColorIsMember(t, w, i);
  }

  lemma {:induction false} SubsetSize(a: set<int>, b: set<int>)
    requires a <= b
    ensures |a| <= |b|
  {
    assert b == a + (b - a);
  }

  lemma {:induction false} SizeIsReach(numPes: int, chain: seq<Args>)
    requires numPes >= 1 && Chain(numPes, chain).Some?
    ensures |Comm(numPes, chain)| == Chain(numPes, chain).value.size <==>
            LastPe(Chain(numPes, chain).value) <= Reach(numPes, chain)
  {
    var t, comm := Chain(numPes, chain).value, Comm(numPes, chain);
    ChainWellFormed(numPes, chain);
    if LastPe(t) <= Reach(numPes, chain) {
      forall w ensures w in comm <==> w in First(t, t.size) {
        CommIff(numPes, chain, w);
        if i :| 0 <= i < t.size && w == PeInWorld(t, i) {
          MemberOrder(t, i, t.size - 1);
          assert Reached(numPes, chain, i);
        }
      }
      assert comm == First(t, t.size);
      FirstSize(t, t.size);
    } else {
      forall w | w in comm ensures w in First(t, t.size - 1) {
        CommIff(numPes, chain, w);
        var i :| Reached(numPes, chain, i) && w == PeInWorld(t, i);
      }
      FirstSize(t, t.size - 1);
      SubsetSize(comm, First(t, t.size - 1));
    }
  }

  /** Ancestor number n, the world being number 0, has a member at or after `pe`. */
  ghost predicate AncestorReaches(numPes: int, chain: seq<Args>, n: int, pe: int)
    requires 0 <= n <= |chain|
  {
    Chain(numPes, chain[..n]).Some? && pe <= LastPe(Chain(numPes, chain[..n]).value)
  }

  lemma {:induction false} ReachIsLeast(numPes: int, chain: seq<Args>, pe: int)
    requires numPes >= 1 && Chain(numPes, chain).Some?
    ensures pe <= Reach(numPes, chain) <==> forall n :: 0 <= n <= |chain| ==> AncestorReaches(numPes, chain, n, pe)
    decreases |chain|
  {
    assert chain[..|chain|] == chain;
    if chain == [] {
      assert AncestorReaches(numPes, chain, 0, pe) <==> pe <= Reach(numPes, chain);
    } else {
      var up := chain[..|chain| - 1];
      ReachIsLeast(numPes, up, pe);
      forall n | 0 <= n <= |up| ensures AncestorReaches(numPes, up, n, pe) == AncestorReaches(numPes, chain, n, pe) {
        assert up[..n] == chain[..n];
      }
      assert AncestorReaches(numPes, chain, |chain|, pe) <==> pe <= LastPe(Chain(numPes, chain).value);
    }
  }

  /** The communicator has as many ranks as the team has PEs exactly when the
      team's last member is not past the last member of any ancestor; for the
      world that means that it exists. */
  lemma {:induction false} SizeAgreesIff(numPes: int, chain: seq<Args>)
    requires numPes >= 1 && Chain(numPes, chain).Some?
    ensures |Comm(numPes, chain)| == Chain(numPes, chain).value.size <==>
            forall n :: 0 <= n <= |chain| ==> AncestorReaches(numPes, chain, n, LastPe(Chain(numPes, chain).value))
  {
    SizeIsReach(numPes, chain);
    ReachIsLeast(numPes, chain, LastPe(Chain(numPes, chain).value));
  }

  /** When the parent's communicator is complete, the caller's part is exactly the
      precondition OpenSHMEM states: the triplet lies in the parent. */
  lemma SizeAgreesFromParent(numPes: int, chain: seq<Args>)
    requires numPes >= 1 && chain != [] && Chain(numPes, chain).Some?
    requires var up := chain[..|chain| - 1]; |Comm(numPes, up)| == Chain(numPes, up).value.size
    ensures |Comm(numPes, chain)| == Chain(numPes, chain).value.size <==>
            LiesInParent(Chain(numPes, chain[..|chain| - 1]).value, chain[|chain| - 1])
  {
    var up, a := chain[..|chain| - 1], chain[|chain| - 1];
    var parent := Chain(numPes, up).value;
    ChainWellFormed(numPes, up);
    SizeIsReach(numPes, up);
    SizeIsReach(numPes, chain);
    ReachBelowLast(numPes, up);
    SplitMember(numPes, parent, a, a.size - 1);
    MemberOrder(parent, a.start + a.stride * (a.size - 1), parent.size - 1);
  }

  /** One more split, in the terms of its definition. */
  lemma {:induction false} CommStep(numPes: int, up: seq<Args>, a: Args, w: int)
    requires numPes >= 1 && Chain(numPes, up).Some? && Split(numPes, Chain(numPes, up).value, a).Some?
    ensures Chain(numPes, up + [a]) == Split(numPes, Chain(numPes, up).value, a)
    ensures Split(numPes, Chain(numPes, up).value, a).value.stride > 0
    ensures w in Comm(numPes, up + [a]) <==>
            w in Comm(numPes, up) && ColorOne(Split(numPes, Chain(numPes, up).value, a).value, w)
  {
    var chain := up + [a];
    assert chain[..|chain| - 1] == up;
    ChainWellFormed(numPes, chain);
  }

  lemma {:induction false} WorldComm(numPes: int, w: int)
    requires numPes >= 1
    ensures w in Comm(numPes, []) <==> 0 <= w < numPes
  {
    assert 0 <= w < numPes ==> PeInWorld(World(numPes), w) in First(World(numPes), numPes);
  }

  lemma {:induction false} TwoSplits(numPes: int, up: seq<Args>, a: Args, b: Args, t: Team, u: Team, w: int)
    requires numPes >= 1 && up == [a]
    requires Split(numPes, World(numPes), a) == Some(t) && Split(numPes, t, b) == Some(u)
    ensures Chain(numPes, up + [b]) == Some(u) && t.stride > 0 && u.stride > 0
    ensures w in Comm(numPes, up + [b]) <==> 0 <= w < numPes && ColorOne(t, w) && ColorOne(u, w)
  {
    WorldComm(numPes, w);
    CommStep(numPes, [], a, w);
    assert [] + [a] == up;
    CommStep(numPes, up, b, w);
  }

  /** The members of a team of three that starts at PE 0. */
  lemma ThreeMembers(t: Team, w: int)
    requires t.start == 0 && t.stride > 0 && t.size == 3
    ensures ColorOne(t, w) <==> w == 0 || w == t.stride || w == 2 * t.stride
  {
    ColorIsMember(t, w, 0);
    ColorIsMember(t, w, 1);
    ColorIsMember(t, w, 2);
    ColorIsMember(t, w, PeInActiveSet(t.start, t.stride, t.size, w));
  }

  lemma TwoMembers(t: Team, w: int)
    requires t.start == 0 && t.stride > 0 && t.size == 2
    ensures ColorOne(t, w) <==> w == 0 || w == t.stride
  {
    ColorIsMember(t, w, 0);
    ColorIsMember(t, w, 1);
    ColorIsMember(t, w, PeInActiveSet(t.start, t.stride, t.size, w));
  }

  lemma {:induction false} MissingMember(numPes: int, up: seq<Args>, a: Args, b: Args, t: Team, w: int)
    requires a == Args(0, t.stride, 3) && b == Args(0, 1, 3) && up == [a]
    requires t.start == 0 && t.size == 3 && t.stride >= 2 && numPes == 2 * t.stride
    ensures Chain(numPes, up + [b]) == Some(t)
    ensures w in Comm(numPes, up + [b]) <==> w == 0 || w == t.stride
  {
    TwoSplits(numPes, up, a, b, t, t, w);
    ThreeMembers(t, w);
  }

  /** Twice as many PEs as the stride: three members, the last of which does not
      exist, and then all of those. The second split lies in its parent, yet the
      communicators have two ranks for three members. */
  lemma {:induction false} MissingPe(numPes: int, up: seq<Args>, a: Args, b: Args, t: Team)
    requires a == Args(0, t.stride, 3) && b == Args(0, 1, 3) && up == [a]
    requires t.start == 0 && t.size == 3 && t.stride >= 2 && numPes == 2 * t.stride
    ensures Chain(numPes, up + [b]) == Some(t) && LiesInParent(t, b)
    ensures forall w :: w in Comm(numPes, up + [b]) <==> w == 0 || w == t.stride
  {
    MissingMember(numPes, up, a, b, t, 0);
    forall w ensures w in Comm(numPes, up + [b]) <==> w == 0 || w == t.stride {
      MissingMember(numPes, up, a, b, t, w);
    }
  }

  /** The first team has PEs 0 and s, the second 0 and u.stride, a multiple of s. */
  predicate TwoPairs(numPes: int, a: Args, b: Args, t: Team, u: Team) {
    && a == Args(0, t.stride, 2) && t.start == 0 && t.size == 2 && t.stride >= 1
    && b.start == 0 && b.stride >= 2 && b.size == 2
    && u == Team(0, b.stride * t.stride, 2) && u.stride < numPes
  }

  lemma PairsDiffer(numPes: int, a: Args, b: Args, t: Team, u: Team)
    requires TwoPairs(numPes, a, b, t, u)
    ensures t.stride < u.stride
  {
    MulMonotone(t.stride, 2, b.stride);
  }

  lemma {:induction false} LostMember(numPes: int, up: seq<Args>, a: Args, b: Args, c: Args, t: Team, u: Team, w: int)
    requires TwoPairs(numPes, a, b, t, u) && up == [a] && c == Args(0, 1, 2)
    ensures Chain(numPes, (up + [b]) + [c]) == Some(u)
    ensures w in Comm(numPes, (up + [b]) + [c]) <==> w == 0
  {
    PairsDiffer(numPes, a, b, t, u);
    TwoSplits(numPes, up, a, b, t, u, w);
    CommStep(numPes, up + [b], c, w);
    TwoMembers(t, w);
    TwoMembers(u, w);
  }

  /** PEs 0 and s, then 0 and a multiple of s, then all of those. Everybody exists
      and the last split lies in its parent, but the last member was never in the
      first team, so the communicator has one rank. */
  lemma {:induction false} LostPe(numPes: int, up: seq<Args>, a: Args, b: Args, c: Args, t: Team, u: Team)
    requires TwoPairs(numPes, a, b, t, u) && up == [a] && c == Args(0, 1, 2)
    ensures Chain(numPes, (up + [b]) + [c]) == Some(u) && LiesInParent(u, c)
    ensures forall w :: w in Comm(numPes, (up + [b]) + [c]) <==> w == 0
  {
    LostMember(numPes, up, a, b, c, t, u, 0);
    forall w ensures w in Comm(numPes, (up + [b]) + [c]) <==> w == 0 {
      LostMember(numPes, up, a, b, c, t, u, w);
    }
  }
}
