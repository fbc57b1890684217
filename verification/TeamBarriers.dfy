/**
 Which teams may share the barrier words: the exact condition on a set of strided
 teams under which every program of barriers on them is right.
 */
module TeamBarriers {
  import opened Arith
  import opened Teams
  import opened SyncBarrier
  import opened BarrierInvariant
  import opened BarrierProgress
  import opened BarrierCollision

  predicate PowerOfTwo(k: int) {
    k == 1 || (k > 1 && k % 2 == 0 && PowerOfTwo(k / 2))
  }

  /** A team `sync` can be called on: its members exist, and its stride meets the
      assertion there. */
  predicate TeamOk(n: nat, t: Team) {
    WellFormed(t) && PeInWorld(t, t.size - 1) < n && PowerOfTwo(t.stride)
  }

  function Member(t: Team, i: nat): (p: nat)
    requires WellFormed(t)
    ensures p == PeInWorld(t, i)
  {
    MulMonotone(t.stride, 0, i);
    PeInWorld(t, i)
  }

  function Roster(t: Team): (r: seq<nat>)
    requires WellFormed(t)
    ensures |r| == t.size && forall i :: 0 <= i < |r| ==> r[i] == PeInWorld(t, i)
  {
    seq(t.size, (i: nat) => Member(t, i))
  }

  lemma RosterIsOk(n: nat, t: Team)
    requires TeamOk(n, t)
    ensures RosterOk(n, Roster(t)) && Roster(t)[0] == t.start
  {
    var r := Roster(t);
    forall i | 0 <= i < |r| ensures r[i] < n {
      MulMonotone(t.stride, i, t.size - 1);
    }
    forall i, k | 0 <= i < k < |r| ensures r[i] != r[k] {
      MulStep(t.stride, i, k);
    }
    MulAtLeast(t.stride, t.size - 1);
  }

  predicate Direct(t: Team) {
    2 <= t.size < DIRECT_LIMIT
  }

  predicate Counted(t: Team) {
    t.size >= DIRECT_LIMIT
  }

  /** PE w is a member of t other than the first. */
  predicate Follows(t: Team, w: int)
    requires WellFormed(t)
  {
    PeInTeam(t, w) >= 1
  }

  /** Two direct teams with the same first PE and different strides use one word for
      two PEs. Two different atomic teams with the same first PE share a counter.
      And the counter of an atomic team is where its first PE awaits its release in
      a team that it follows in. */
  predicate Collide(a: Team, b: Team)
    requires WellFormed(b)
  {
    || (Direct(a) && Direct(b) && a.start == b.start && a.stride != b.stride)
    || (Counted(a) && Counted(b) && a.start == b.start && a != b)
    || (Counted(a) && Follows(b, a.start))
  }

  lemma FollowsIff(t: Team, w: nat)
    requires WellFormed(t)
    ensures Follows(t, w) <==> w in Roster(t)[1..]
  {
    var r := Roster(t);
    if Follows(t, w) {
      var i := PeInTeam(t, w);
      PeInTeamIff(t, w, i);
      assert r[1..][i - 1] == w;
    }
    if w in r[1..] {
      var k :| 0 <= k < |r[1..]| && r[1..][k] == w;
      PeInTeamIff(t, w, k + 1);
    }
  }

  lemma SameStart(a: Team, b: Team)
    requires WellFormed(a) && WellFormed(b) && a.start == b.start
    ensures a.stride == b.stride ==> forall i :: 0 <= i < a.size && i < b.size ==> Roster(a)[i] == Roster(b)[i]
    ensures a.size >= 2 && b.size >= 2 && a.stride != b.stride ==> Roster(a)[1] != Roster(b)[1]
  {
  }

  lemma AgreeIff(a: Team, b: Team)
    requires WellFormed(a) && WellFormed(b)
    ensures Agree(Roster(a), Roster(b)) <==> !Collide(a, b)
  {
    assert Roster(a)[0] == a.start && Roster(b)[0] == b.start;
    FollowsIff(b, a.start);
    if a.start == b.start {
      SameStart(a, b);
    }
  }

  function Rosters(calls: seq<Team>): (r: seq<seq<nat>>)
    requires forall g :: 0 <= g < |calls| ==> WellFormed(calls[g])
    ensures |r| == |calls| && forall g :: 0 <= g < |r| ==> r[g] == Roster(calls[g])
  {
    seq(|calls|, (g: nat) requires g < |calls| => Roster(calls[g]))
  }

  /** A program of barriers on teams from a given set. */
  ghost predicate ProgramOf(n: nat, teams: set<Team>, calls: seq<Team>) {
    forall g :: 0 <= g < |calls| ==> calls[g] in teams && TeamOk(n, calls[g])
  }

  lemma ProgramIsOk(n: nat, teams: set<Team>, calls: seq<Team>)
    requires ProgramOf(n, teams, calls)
    ensures CallsOk(Config(n, Rosters(calls)))
  {
    forall g | 0 <= g < |calls| ensures RosterOk(n, Rosters(calls)[g]) {
      RosterIsOk(n, calls[g]);
    }
  }

  ghost predicate SafeRun(n: nat, calls: seq<Team>, moves: seq<Move>) {
    && (forall g :: 0 <= g < |calls| ==> WellFormed(calls[g]))
    && var c := Config(n, Rosters(calls));
       CallsOk(c) && Safe(c, Exec(c, Start(c), moves))
  }

  /** Safe, and if nothing is left to do, everybody has left every barrier. */
  ghost predicate RightRun(n: nat, calls: seq<Team>, moves: seq<Move>) {
    && SafeRun(n, calls, moves)
    && var c := Config(n, Rosters(calls));
       var s := Exec(c, Start(c), moves);
       Stuck(c, s) ==> AllLeft(c, s)
  }

  ghost predicate AlwaysSafe(n: nat, teams: set<Team>) {
    forall calls: seq<Team>, moves: seq<Move> :: ProgramOf(n, teams, calls) ==> SafeRun(n, calls, moves)
  }

  ghost predicate AlwaysRight(n: nat, teams: set<Team>) {
    forall calls: seq<Team>, moves: seq<Move> :: ProgramOf(n, teams, calls) ==> RightRun(n, calls, moves)
  }

  ghost predicate NoneCollide(n: nat, teams: set<Team>) {
    forall a, b :: a in teams && b in teams && TeamOk(n, a) && TeamOk(n, b) ==> !Collide(a, b)
  }

  lemma ProgramAgrees(n: nat, teams: set<Team>, calls: seq<Team>)
    requires ProgramOf(n, teams, calls) && NoneCollide(n, teams)
    ensures CallsOk(Config(n, Rosters(calls))) && AllAgree(Config(n, Rosters(calls)))
  {
    var c := Config(n, Rosters(calls));
    ProgramIsOk(n, teams, calls);
    forall g, h | 0 <= g < |calls| && 0 <= h < |calls| ensures Agree(c.calls[g], c.calls[h]) {
      AgreeIff(calls[g], calls[h]);
    }
  }

  /** Without a collision every program is right, and ends within a bound. */
  lemma {:induction false} ProgramRight(n: nat, teams: set<Team>, calls: seq<Team>, moves: seq<Move>)
    requires ProgramOf(n, teams, calls) && NoneCollide(n, teams)
    ensures RightRun(n, calls, moves)
    ensures var c := Config(n, Rosters(calls)); Effective(c, Start(c), moves) <= Limit(c)
  {
    ProgramAgrees(n, teams, calls);
    NobodyLeavesEarly(Config(n, Rosters(calls)), moves);
    EveryRunFinishes(Config(n, Rosters(calls)), moves);
  }

  /** Every split whose members exist and whose stride meets the assertion of `sync`
      is such a team. */
  lemma SplitIsOk(n: nat, parent: Team, a: Args)
    requires WellFormed(parent) && Split(n, parent, a).Some? && PowerOfTwo(a.stride * parent.stride)
    requires PeInWorld(parent, a.start + a.stride * (a.size - 1)) != n
    ensures TeamOk(n, Split(n, parent, a).value)
  {
    SplitWellFormed(n, parent, a);
    SplitAcceptedIff(n, parent, a);
    SplitMember(n, parent, a, a.size - 1);
  }

  // ----- every collision goes wrong in some program -----

  lemma TwoTeams(n: nat, a: Team, b: Team, calls: seq<Team>)
    requires TeamOk(n, a) && TeamOk(n, b) && calls == [a, b]
    ensures var c := Config(n, Rosters(calls));
      TwoCalls(c) && c.calls[0] == Roster(a) && c.calls[1] == Roster(b)
  {
    RosterIsOk(n, a);
    RosterIsOk(n, b);
  }

  /** With a smaller stride, member 1 is not in the other team. */
  lemma NotInWider(a: Team, b: Team)
    requires WellFormed(a) && WellFormed(b) && a.start == b.start && a.stride < b.stride && a.size >= 2
    ensures Roster(a)[1] == a.start + a.stride && Roster(a)[1] !in Roster(b)
  {
    forall i | 0 <= i < b.size ensures Roster(b)[i] != a.start + a.stride {
      if i >= 1 {
        MulMonotone(b.stride, 1, i);
      }
    }
  }

  /** With the same stride, the longer team's members past the end are not in it. */
  lemma NotInShorter(a: Team, b: Team)
    requires WellFormed(a) && WellFormed(b) && a.start == b.start && a.stride == b.stride && b.size < a.size
    ensures Roster(a)[b.size] !in Roster(b)
  {
    forall i | 0 <= i < b.size ensures Roster(b)[i] != Roster(a)[b.size] {
      MulStep(a.stride, i, b.size);
    }
  }

  lemma StrandedUnsafe(n: nat, teams: set<Team>, calls: seq<Team>, i: nat)
    requires ProgramOf(n, teams, calls) && TwoCalls(Config(n, Rosters(calls))) && StandsIn(Config(n, Rosters(calls)), i)
    ensures !AlwaysSafe(n, teams)
  {
    var moves := LeavesEarly(Config(n, Rosters(calls)), i);
    OneUnsafeRun(n, teams, calls, moves);
  }

  lemma EarlyExit(n: nat, teams: set<Team>, first: Team, second: Team, i: nat)
    requires first in teams && second in teams && TeamOk(n, first) && TeamOk(n, second)
    requires first.start == second.start && first.size >= 2 && 1 <= i < second.size
    requires Roster(second)[i] !in Roster(first)
    requires (Direct(first) && Direct(second) && i == 1) || (Counted(first) && Counted(second))
    ensures !AlwaysSafe(n, teams)
  {
    var calls := [first, second];
    StrangerCalls(n, first, second, calls, i);
    StrandedUnsafe(n, teams, calls, i);
  }

  lemma {:induction false} OneUnsafeRun(n: nat, teams: set<Team>, calls: seq<Team>, moves: seq<Move>)
    requires ProgramOf(n, teams, calls) && CallsOk(Config(n, Rosters(calls)))
    requires var c := Config(n, Rosters(calls)); !Safe(c, Exec(c, Start(c), moves))
    ensures !AlwaysSafe(n, teams)
  {
    assert !SafeRun(n, calls, moves);
  }

  lemma StrangerCalls(n: nat, first: Team, second: Team, calls: seq<Team>, i: nat)
    requires TeamOk(n, first) && TeamOk(n, second) && calls == [first, second]
    requires first.start == second.start && first.size >= 2 && 1 <= i < second.size
    requires Roster(second)[i] !in Roster(first)
    requires (Direct(first) && Direct(second) && i == 1) || (Counted(first) && Counted(second))
    ensures var c := Config(n, Rosters(calls)); TwoCalls(c) && StandsIn(c, i)
  {
    TwoTeams(n, first, second, calls);
    assert Roster(first)[0] == Roster(second)[0];
  }

  /** Teams with the same first PE that collide let a PE leave too early. */
  lemma SameStartUnsafe(n: nat, teams: set<Team>, a: Team, b: Team)
    requires a in teams && b in teams && TeamOk(n, a) && TeamOk(n, b) && a.start == b.start && Collide(a, b)
    ensures !AlwaysSafe(n, teams)
  {
    PeInTeamIff(b, a.start, 0);
    if a.stride < b.stride {
      NotInWider(a, b);
      EarlyExit(n, teams, b, a, 1);
    } else if b.stride < a.stride {
      NotInWider(b, a);
      EarlyExit(n, teams, a, b, 1);
    } else if a.size < b.size {
      NotInShorter(b, a);
      EarlyExit(n, teams, a, b, a.size);
    } else {
      NotInShorter(a, b);
      EarlyExit(n, teams, b, a, b.size);
    }
  }

  /** An atomic team whose first PE follows in another: unsafe when some member is
      not in the other, and otherwise some program does not end. */
  lemma FollowsWrong(n: nat, teams: set<Team>, a: Team, b: Team)
    requires a in teams && b in teams && TeamOk(n, a) && TeamOk(n, b) && Counted(a) && Follows(b, a.start)
    ensures !AlwaysRight(n, teams)
    ensures (exists i :: 1 <= i < a.size && Roster(a)[i] !in Roster(b)) ==> !AlwaysSafe(n, teams)
  {
    var calls := [b, a];
    TwoTeams(n, b, a, calls);
    FollowsIff(b, a.start);
    var c := Config(n, Rosters(calls));
    assert ProgramOf(n, teams, calls);
    if i: nat :| 1 <= i < a.size && Roster(a)[i] !in Roster(b) {
      var moves := LeavesBeforeRoot(c, i);
      assert !SafeRun(n, calls, moves) && !RightRun(n, calls, moves);
    } else {
      var moves := NeverEnds(c);
      assert !RightRun(n, calls, moves);
    }
  }

  lemma UnsafeIsWrong(n: nat, teams: set<Team>)
    requires !AlwaysSafe(n, teams)
    ensures !AlwaysRight(n, teams)
  {
    var calls: seq<Team>, moves: seq<Move> :| ProgramOf(n, teams, calls) && !SafeRun(n, calls, moves);
    assert !RightRun(n, calls, moves);
  }

  /** Barriers on teams from a set are right (nobody leaves early, and every program
      ends) in every program and every interleaving, exactly when no two collide. */
  lemma AlwaysRightIff(n: nat, teams: set<Team>)
    ensures AlwaysRight(n, teams) <==> NoneCollide(n, teams)
  {
    if NoneCollide(n, teams) {
      forall calls: seq<Team>, moves: seq<Move> | ProgramOf(n, teams, calls) ensures RightRun(n, calls, moves) {
        ProgramRight(n, teams, calls, moves);
      }
    } else {
      var a, b :| a in teams && b in teams && TeamOk(n, a) && TeamOk(n, b) && Collide(a, b);
      if a.start == b.start {
        SameStartUnsafe(n, teams, a, b);
        UnsafeIsWrong(n, teams);
      } else {
        FollowsWrong(n, teams, a, b);
      }
    }
  }

  // ----- teams of a program -----

  lemma FirstDoesNotFollow(t: Team)
    requires WellFormed(t)
    ensures !Follows(t, t.start)
  {
    PeInTeamIff(t, t.start, 0);
  }

  lemma WorldIsOk(n: nat)
    requires n >= 3
    ensures TeamOk(n, World(n)) && TeamOk(n, Team(0, 2, 2))
  {
    assert PowerOfTwo(2 / 2);
  }

  /** An atomic and a direct team with the same first PE get along. */
  lemma MixedPair(n: nat, big: Team, small: Team)
    requires TeamOk(n, big) && TeamOk(n, small) && big.start == small.start && Counted(big) && Direct(small)
    ensures AlwaysRight(n, {big, small})
  {
    FirstDoesNotFollow(big);
    FirstDoesNotFollow(small);
    AlwaysRightIff(n, {big, small});
  }

  /** A barrier over the first PEs, fewer than 64, and one over PEs 0 and 2 collide;
      with `size == n` the first is the barrier over all PEs. */
  lemma FirstAndEvenUnsafe(n: nat, size: nat, teams: set<Team>)
    requires 2 <= size < 64 && 3 <= n && size <= n && Team(0, 1, size) in teams && Team(0, 2, 2) in teams
    ensures !AlwaysSafe(n, teams)
  {
    assert PowerOfTwo(2 / 2);
    DirectUnsafe(n, Team(0, 1, size), Team(0, 2, 2), teams);
  }

  lemma DirectUnsafe(n: nat, a: Team, b: Team, teams: set<Team>)
    requires a in teams && b in teams && TeamOk(n, a) && TeamOk(n, b)
    requires Direct(a) && Direct(b) && a.start == b.start && a.stride != b.stride
    ensures !AlwaysSafe(n, teams)
  {
    SameStartUnsafe(n, teams, a, b);
  }

  /** From 64 on they get along. */
  lemma WorldAndEvenRight(n: nat, world: Team, even: Team)
    requires n >= 64 && world == World(n) && even == Team(0, 2, 2)
    ensures AlwaysRight(n, {world, even})
  {
    WorldIsOk(n);
    MixedPair(n, world, even);
  }

  /** The barriers over all of 100 PEs and over the first 64 share a counter. */
  lemma WorldAndFirst64()
    ensures TeamOk(100, World(100)) && TeamOk(100, Team(0, 1, 64))
    ensures !AlwaysSafe(100, {World(100), Team(0, 1, 64)})
  {
    SameStartUnsafe(100, {World(100), Team(0, 1, 64)}, World(100), Team(0, 1, 64));
  }
}
