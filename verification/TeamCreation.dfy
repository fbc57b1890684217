/**
 A split on all PEs of the GPU-IB backend: the members are the PEs of the new
 communicator, and whether a team comes out depends on their pools together.
 */
module TeamCreation {
  import opened Teams
  import opened Communicator
  import opened Lifecycle
  import WP = WorkPool

  /** The PEs that create the team a chain of splits ends with. */
  ghost function Joining(numPes: int, chain: seq<Args>): set<nat>
    requires numPes >= 1 && Chain(numPes, chain).Some?
  {
    set w | w in Comm(numPes, chain) && w >= 0 :: w as nat
  }

  /** A work array is free on all of them. */
  ghost predicate Creates(maxTeams: nat, pes: seq<WP.Pe>, members: set<nat>)
    requires WP.Shape(maxTeams, pes)
  {
    WP.LowestBit(WP.CommonMask(pes, members, maxTeams)) >= 0
  }

  lemma {:induction false} CommExists(numPes: int, chain: seq<Args>, w: int)
    requires numPes >= 1 && Chain(numPes, chain).Some? && w in Comm(numPes, chain)
    ensures 0 <= w < numPes
    decreases |chain|
  {
    if chain == [] {
      WorldComm(numPes, w);
    } else {
      CommExists(numPes, chain[..|chain| - 1], w);
    }
  }

  /** What a PE gets from the last split of a chain, given all pools. */
  ghost function Outcome(numPes: int, me: nat, maxTeams: nat, up: seq<Args>, a: Args, pes: seq<WP.Pe>)
      : (Status, Option<Member>)
    requires numPes >= 1 && Chain(numPes, up).Some? && Chain(numPes, up + [a]).Some?
    requires me < |pes| && WP.Shape(maxTeams, pes)
  {
    ChainWellFormed(numPes, up);
    var parent := Member(Chain(numPes, up).value, me);
    SplitOutcome(numPes, me, maxTeams, |pes[me].held|, Some(parent), a,
                 Creates(maxTeams, pes, Joining(numPes, up + [a])))
  }

  lemma {:induction false} JoinerIsMember(numPes: int, chain: seq<Args>, me: int)
    requires numPes >= 1 && Chain(numPes, chain).Some? && me in Comm(numPes, chain)
    ensures exists i :: IsMember(Chain(numPes, chain).value, i, me)
  {
    CommIff(numPes, chain, me);
    var i :| Reached(numPes, chain, i) && me == PeInWorld(Chain(numPes, chain).value, i);
    assert IsMember(Chain(numPes, chain).value, i, me);
  }

  /** A PE that is below its team limit and belongs to the new team is told of
      success without getting it exactly when every work array is held by some
      member. */
  lemma {:induction false} SilentFailureIff(numPes: int, me: nat, maxTeams: nat, up: seq<Args>, a: Args,
      pes: seq<WP.Pe>)
    requires numPes >= 1 && Chain(numPes, up).Some? && Chain(numPes, up + [a]).Some?
    requires |pes| == numPes && WP.Inv(maxTeams, pes)
    requires me in Comm(numPes, up + [a]) && me < numPes && |pes[me].held| < maxTeams - 1
    ensures Outcome(numPes, me, maxTeams, up, a, pes) == (Success, None) <==>
            forall k: nat :: 1 <= k < maxTeams ==> WP.HeldByMember(pes, Joining(numPes, up + [a]), k)
  {
    var chain, members := up + [a], Joining(numPes, up + [a]);
    assert chain[..|chain| - 1] == up;
    ChainWellFormed(numPes, up);
    JoinerIsMember(numPes, chain, me);
    JoiningOutcome(numPes, me, maxTeams, |pes[me].held|, Member(Chain(numPes, up).value, me), a,
                   Creates(maxTeams, pes, members));
    assert me in members;
    forall p | p in members ensures p < |pes| {
      CommExists(numPes, chain, p);
    }
    WP.CreateFailsIff(maxTeams, pes, members);
  }

  /** A PE is told of too many teams exactly when it holds as many as there are work
      arrays besides the world's. */
  lemma {:induction false} LimitIff(numPes: int, me: nat, maxTeams: nat, up: seq<Args>, a: Args, pes: seq<WP.Pe>)
    requires numPes >= 1 && Chain(numPes, up).Some? && Chain(numPes, up + [a]).Some?
    requires me < |pes| && WP.Shape(maxTeams, pes)
    ensures Outcome(numPes, me, maxTeams, up, a, pes).0 == TooManyTeams <==> |pes[me].held| >= maxTeams - 1
  {
    ChainWellFormed(numPes, up);
    StatusIff(numPes, me, maxTeams, |pes[me].held|, Some(Member(Chain(numPes, up).value, me)), a,
              Creates(maxTeams, pes, Joining(numPes, up + [a])));
  }

  /** Splitting the world into itself: everybody joins. */
  lemma {:induction false} EverybodyJoins(numPes: int, up: seq<Args>, a: Args)
    requires numPes >= 1 && up == [] && a == Args(0, 1, numPes)
    ensures Chain(numPes, up) == Some(World(numPes)) && Chain(numPes, up + [a]) == Some(World(numPes))
    ensures forall w :: w in Comm(numPes, up + [a]) <==> 0 <= w < numPes
  {
    CommStep(numPes, up, a, 0);
    forall w ensures w in Comm(numPes, up + [a]) <==> 0 <= w < numPes {
      WorldComm(numPes, w);
      CommStep(numPes, up, a, w);
      ColorIsMember(World(numPes), w, w);
    }
  }

  lemma {:induction false} FragmentedOutcome(numPes: int, up: seq<Args>, a: Args, r: seq<WP.Pe>, me: nat)
    requires numPes >= 1 && Chain(numPes, up).Some? && Chain(numPes, up + [a]).Some?
    requires 0 in Comm(numPes, up + [a]) && 1 in Comm(numPes, up + [a]) && me < 2
    requires |r| == numPes && numPes >= 2 && WP.Inv(3, r) && r[0].held == map[2 := 2] && r[1].held == map[0 := 1]
    ensures EmptyHanded(numPes, up, a, r, me)
  {
    OneHeldEach(r, me);
    WP.BothHeld(r, Joining(numPes, up + [a]));
    SilentFailureIff(numPes, me, 3, up, a, r);
  }

  /** Below its limit, and told of success without a team. */
  ghost predicate EmptyHanded(numPes: int, up: seq<Args>, a: Args, r: seq<WP.Pe>, me: nat)
    requires numPes >= 1 && Chain(numPes, up).Some? && Chain(numPes, up + [a]).Some?
  {
    && me < |r| && WP.Shape(3, r)
    && |r[me].held| == 1 && Outcome(numPes, me, 3, up, a, r) == (Success, None)
  }

  /** PEs 0 and 1 with one team each and room for two: any split that both would join,
      such as that of `EverybodyJoins`, reports success on both and gives neither a
      team. */
  lemma FragmentedSplit(numPes: nat, up: seq<Args>, a: Args) returns (calls: seq<WP.Call>)
    requires numPes >= 2 && Chain(numPes, up).Some? && Chain(numPes, up + [a]).Some?
    requires 0 in Comm(numPes, up + [a]) && 1 in Comm(numPes, up + [a])
    ensures WP.NewTeams(calls)
    ensures EmptyHanded(numPes, up, a, WP.Run(3, WP.Start(numPes, 3), calls), 0)
    ensures EmptyHanded(numPes, up, a, WP.Run(3, WP.Start(numPes, 3), calls), 1)
  {
    calls := WP.Fragmented(numPes);
    FragmentedOutcome(numPes, up, a, WP.Run(3, WP.Start(numPes, 3), calls), 0);
    FragmentedOutcome(numPes, up, a, WP.Run(3, WP.Start(numPes, 3), calls), 1);
  }

  lemma OneHeldEach(r: seq<WP.Pe>, me: nat)
    requires |r| >= 2 && r[0].held == map[2 := 2] && r[1].held == map[0 := 1] && me < 2
    ensures |r[me].held| == 1
  {
    assert r[me].held.Keys == {if me == 0 then 2 else 0};
  }
}
