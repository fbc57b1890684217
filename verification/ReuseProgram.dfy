/**
 The shrinking-teams program: team i has the PEs i..n-1, is split from team i - 1,
 and replaces it. What a PE finds in its pool of work arrays when it makes its i-th
 split follows from its own calls only; the members combine those pools.
 */
module ReuseProgram {
  import opened Teams
  import opened Communicator
  import opened Lifecycle
  import WP = WorkPool

  // ----- teams -----

  /** What PE `me` of `n` holds after iteration i: the PEs i..n-1, or nothing. */
  function Shrunk(n: int, me: int, i: int): Option<Member> {
    if me < i then None else Some(Member(Team(i, 1, n - i), me - i))
  }

  /** One split of the program, on any PE: from the team of iteration i to that of
      iteration i + 1, without an error, provided the members find a work array. */
  lemma ShrinkStep(n: int, me: int, maxTeams: int, i: int, created: bool)
    requires 0 <= i && i + 1 < n && 0 <= me < n && maxTeams >= 3 && (me > i ==> created)
    ensures var held := Shrunk(n, me, i);
      var size := if held.Some? then held.value.team.size else -1;
      SplitOutcome(n, me, maxTeams, if held.Some? then 1 else 0, held, Args(1, 1, size - 1), created)
        == (Success, Shrunk(n, me, i + 1))
  {
    if me >= i {
      var t := Team(i + 1, 1, n - i - 1);
      ActiveSetAgrees(t, me);
      PeInTeamIff(t, me, me - i - 1);
      PeInTeamIff(t, me, PeInTeam(t, me));
    }
  }

  /** The limit allows team i to be made. */
  predicate Fits(maxTeams: int, i: int) {
    maxTeams >= 3 || (maxTeams == 2 && i == 0)
  }

  /** The same for any limit: with room for one team only, the first shrink fails. */
  function Held(maxTeams: int, n: int, me: int, i: int): Option<Member> {
    if Fits(maxTeams, i) then Shrunk(n, me, i) else None
  }

  function ErrorsAfter(maxTeams: int, i: int): nat {
    if Fits(maxTeams, i) then 0 else 1
  }

  lemma FirstSplit(n: int, me: int, maxTeams: int, created: bool)
    requires n >= 1 && 0 <= me < n && (Fits(maxTeams, 0) ==> created)
    ensures SplitOutcome(n, me, maxTeams, 0, Some(Member(World(n), me)), Args(0, 1, n), created)
            == (if maxTeams <= 1 then TooManyTeams else Success, Held(maxTeams, n, me, 0))
  {
    PeInTeamIff(World(n), me, me);
    ActiveSetAgrees(World(n), me);
  }

  /** Whether the program counts a failure, and the team it goes on with. */
  function ShrinkOutcome(n: int, me: int, maxTeams: int, held: Option<Member>, created: bool): (bool, Option<Member>)
    requires held.Some? ==> WellFormed(held.value.team)
  {
    var size := if held.Some? then held.value.team.size else -1;
    var (status, next) :=
      SplitOutcome(n, me, maxTeams, if held.Some? then 1 else 0, held, Args(1, 1, size - 1), created);
    (held.Some? && status != Success, next)
  }

  lemma HeldStep(n: int, me: int, maxTeams: int, i: int, created: bool)
    requires 0 <= i && i + 1 < n && 0 <= me < n && (maxTeams >= 3 && me > i ==> created)
    ensures var (failed, next) := ShrinkOutcome(n, me, maxTeams, Held(maxTeams, n, me, i), created);
      && next == Held(maxTeams, n, me, i + 1)
      && ErrorsAfter(maxTeams, i + 1) == ErrorsAfter(maxTeams, i) + (if failed then 1 else 0)
  {
    if maxTeams >= 3 {
      ShrinkStep(n, me, maxTeams, i, created);
    }
  }

  // ----- work arrays -----

  /** The work array of team i: the teams take turns on two arrays. */
  function Array(i: nat): (k: nat)
    ensures 1 <= k <= 2
  {
    1 + i % 2
  }

  /** Free arrays of a PE when it comes to split i: all but that of team i - 1. */
  function MaskAt(maxTeams: nat, n: nat, me: nat, i: nat): seq<bool> {
    seq(maxTeams, k => k >= 1 && !(i >= 1 && Held(maxTeams, n, me, i - 1).Some? && k == Array(i - 1)))
  }

  function PoolsAt(maxTeams: nat, n: nat, i: nat): (pes: seq<WP.Pe>)
    ensures |pes| == n && WP.Shape(maxTeams, pes)
  {
    seq(n, (p: nat) => WP.Pe(MaskAt(maxTeams, n, p, i), map[]))
  }

  predicate Joins(p: nat, i: nat) {
    p >= i
  }

  function Joining(n: nat, i: nat): set<nat> {
    set p: nat | p < n && Joins(p, i)
  }

  /** The splits that lead to team i. */
  function Splits(n: nat, i: nat): seq<Args> {
    if i == 0 then [] + [Args(0, 1, n)] else Splits(n, i - 1) + [Args(1, 1, n - i)]
  }

  lemma SplitTo(n: nat, i: nat, parent: Team, a: Args, t: Team)
    requires i < n && t == Team(i, 1, n - i)
    requires if i == 0 then parent == World(n) && a == Args(0, 1, n)
             else parent == Team(i - 1, 1, n - i + 1) && a == Args(1, 1, n - i)
    ensures Split(n, parent, a) == Some(t)
  {
  }

  lemma ColorOfTail(n: nat, i: nat, t: Team, w: int)
    requires i < n && t == Team(i, 1, n - i)
    ensures ColorOne(t, w) <==> i <= w < n
  {
    ColorIsMember(t, w, w - i);
  }

  lemma {:induction false} JoinStep(n: nat, i: nat, up: seq<Args>, a: Args, parent: Team, t: Team, w: int)
    requires n >= 1 && Chain(n, up) == Some(parent) && Split(n, parent, a) == Some(t)
    requires i < n && t == Team(i, 1, n - i) && (i <= w < n ==> w in Comm(n, up))
    ensures Chain(n, up + [a]) == Some(t) && (w in Comm(n, up + [a]) <==> i <= w < n)
  {
    CommStep(n, up, a, w);
    ColorOfTail(n, i, t, w);
  }

  /** The joining PEs are those of the communicator that these splits make. */
  lemma {:induction false} JoiningIsComm(n: nat, i: nat, t: Team, w: int)
    requires i < n && t == Team(i, 1, n - i)
    ensures Chain(n, Splits(n, i)) == Some(t) && (w in Comm(n, Splits(n, i)) <==> 0 <= w && w in Joining(n, i))
    decreases i
  {
    if i == 0 {
      WorldComm(n, w);
      SplitTo(n, i, World(n), Args(0, 1, n), t);
      JoinStep(n, i, [], Args(0, 1, n), World(n), t, w);
    } else {
      var parent, a := Team(i - 1, 1, n - i + 1), Args(1, 1, n - i);
      JoiningIsComm(n, i - 1, parent, w);
      SplitTo(n, i, parent, a, t);
      JoinStep(n, i, Splits(n, i - 1), a, parent, t, w);
    }
  }

  /** The mask PE `me` takes from in split i: the members' masks combined. */
  function Reduced(maxTeams: nat, n: nat, me: nat, i: nat): seq<bool> {
    if me >= i then WP.CommonMask(PoolsAt(maxTeams, n, i), Joining(n, i), maxTeams) else MaskAt(maxTeams, n, me, i)
  }

  /** The members agree on an array and it is there, even with room for one team only
      in the first split. */
  lemma ArrayFound(maxTeams: nat, n: nat, me: nat, i: nat)
    requires i <= me < n && Fits(maxTeams, i)
    ensures WP.LowestBit(Reduced(maxTeams, n, me, i)) == Array(i)
  {
    var pes, members := PoolsAt(maxTeams, n, i), Joining(n, i);
    var common := WP.CommonMask(pes, members, maxTeams);
    forall k: nat | k < maxTeams ensures common[k] <==> k >= 1 && !(i >= 1 && k == Array(i - 1)) {
      forall p | p in members ensures pes[p].mask[k] <==> k >= 1 && !(i >= 1 && k == Array(i - 1)) {
        assert Joins(p, i) && pes[p].mask == MaskAt(maxTeams, n, p, i);
        assert i >= 1 ==> Held(maxTeams, n, p, i - 1).Some?;
      }
      assert me in members;
    }
    assert common[Array(i)];
    assert !common[0] && (Array(i) == 2 ==> !common[1]);
  }

  /** What split i needs and gives on one PE, for any limit. */
  lemma Ready(limit: int, maxTeams: nat, n: nat, me: nat, i: nat)
    requires 1 <= i < n && me < n && maxTeams == if limit < 0 then 0 else limit
    ensures var reduced := Reduced(maxTeams, n, me, i);
      var (failed, next) := ShrinkOutcome(n, me, limit, Held(limit, n, me, i - 1), WP.LowestBit(reduced) >= 0);
      && next == Held(maxTeams, n, me, i) == Held(limit, n, me, i)
      && ErrorsAfter(limit, i) == ErrorsAfter(limit, i - 1) + (if failed then 1 else 0)
      && (next.Some? ==> WP.LowestBit(reduced) == Array(i))
  {
    if Fits(maxTeams, i) && me >= i {
      ArrayFound(maxTeams, n, me, i);
    }
    HeldStep(n, me, limit, i - 1, WP.LowestBit(Reduced(maxTeams, n, me, i)) >= 0);
  }

  lemma ReadyFirst(limit: int, maxTeams: nat, n: nat, me: nat)
    requires me < n && maxTeams == if limit < 0 then 0 else limit
    ensures var reduced := Reduced(maxTeams, n, me, 0);
      var created := WP.LowestBit(reduced) >= 0;
      && SplitOutcome(n, me, limit, 0, Some(Member(World(n), me)), Args(0, 1, n), created)
         == (if limit <= 1 then TooManyTeams else Success, Held(limit, n, me, 0))
      && Held(maxTeams, n, me, 0) == Held(limit, n, me, 0)
      && (Held(limit, n, me, 0).Some? ==> WP.LowestBit(reduced) == Array(0))
  {
    if Fits(maxTeams, 0) {
      ArrayFound(maxTeams, n, me, 0);
    }
    FirstSplit(n, me, limit, WP.LowestBit(Reduced(maxTeams, n, me, 0)) >= 0);
  }

  lemma ReducedIsFree(maxTeams: nat, n: nat, me: nat, i: nat)
    requires me < n
    ensures |Reduced(maxTeams, n, me, i)| == maxTeams
    ensures forall k: nat :: k < maxTeams && Reduced(maxTeams, n, me, i)[k] ==> MaskAt(maxTeams, n, me, i)[k]
  {
    if me >= i {
      assert me in Joining(n, i);
      assert PoolsAt(maxTeams, n, i)[me].mask == MaskAt(maxTeams, n, me, i);
    }
  }

  /** The pool of a PE after iteration i. */
  function PoolAt(maxTeams: nat, n: nat, me: nat, i: nat, team: Handle): WP.Pe {
    WP.Pe(MaskAt(maxTeams, n, me, i + 1), if team.User? then map[team.id := Array(i)] else map[])
  }

  function GiveBack(pe: WP.Pe, team: Handle): WP.Pe
    requires team.User? ==> team.id in pe.held && pe.held[team.id] < |pe.mask|
  {
    if team.User? then WP.Give(pe, team.id) else pe
  }

  function TakeFor(pe: WP.Pe, team: Handle, k: int): WP.Pe
    requires team.User? ==> 0 <= k < |pe.mask|
  {
    if team.User? then WP.Take(pe, team.id, k) else pe
  }

  /** Taking the new team's array and giving back the old one. */
  lemma PoolStep(maxTeams: nat, n: nat, me: nat, i: nat, prev: Handle, next: Handle)
    requires i >= 1 && me < n && (prev.User? && next.User? ==> prev.id != next.id)
    requires prev.User? <==> Held(maxTeams, n, me, i - 1).Some?
    requires next.User? <==> Held(maxTeams, n, me, i).Some?
    ensures var pe := PoolAt(maxTeams, n, me, i - 1, prev);
      GiveBack(TakeFor(pe, next, Array(i)), prev) == PoolAt(maxTeams, n, me, i, next)
  {
    var pe := PoolAt(maxTeams, n, me, i - 1, prev);
    var r, s := GiveBack(TakeFor(pe, next, Array(i)), prev), PoolAt(maxTeams, n, me, i, next);
    forall k: nat | k < maxTeams ensures r.mask[k] == s.mask[k] {
    }
    assert r.held == s.held;
  }

  lemma FirstMask(maxTeams: nat, n: nat, me: nat)
    ensures MaskAt(maxTeams, n, me, 0) == WP.Fresh(maxTeams).mask
  {
  }

  lemma FirstPool(maxTeams: nat, n: nat, me: nat, team: Handle)
    requires me < n && (team.User? <==> Held(maxTeams, n, me, 0).Some?)
    ensures TakeFor(WP.Fresh(maxTeams), team, Array(0)) == PoolAt(maxTeams, n, me, 0, team)
  {
    var r, s := TakeFor(WP.Fresh(maxTeams), team, Array(0)), PoolAt(maxTeams, n, me, 0, team);
    assert r.mask == s.mask;
    assert r.held == s.held;
  }

  // ----- the program of one PE -----

  /** Only `t` is tracked, and nothing if it is invalid. */
  predicate HoldsOnly(b: Backend, t: Handle)
    reads b
  {
    !t.WorldTeam? && b.Known(t) && b.teams == if t.User? then [t.id] else []
  }

  /** After iteration i only the team of iteration i is tracked, and the pool is the
      one that the other members' splits count on. */
  ghost predicate At(b: Backend, team: Handle, i: nat)
    reads b
  {
    && b.Valid() && HoldsOnly(b, team) && b.Object(team) == Held(b.maxTeams, b.numPes, b.myPe, i)
    && b.pool == PoolAt(b.PoolSize(), b.numPes, b.myPe, i, team)
  }

  method StartTeams(b: Backend) returns (errors: nat, team: Handle)
    requires b.Valid() && b.teams == []
    modifies b
    ensures At(b, team, 0) && b.ctxs == old(b.ctxs) && errors == ErrorsAfter(b.maxTeams, 0)
  {
    var size, n, me := b.PoolSize(), b.numPes, b.myPe;
    var reduced := Reduced(size, n, me, 0);
    WP.EmptyIsFresh(size, b.pool);
    FirstMask(size, n, me);
    ReducedIsFree(size, n, me, 0);
    ReadyFirst(b.maxTeams, size, n, me);
    var ret;
    ret, team := b.SplitStrided(WorldTeam, Args(0, 1, n), reduced);
    errors := if ret != Success then 1 else 0;
    FirstPool(size, n, me, team);
  }

  /** One iteration: split the team, notice a failure, destroy the old team. */
  method ShrinkOnce(b: Backend, oldTeam: Handle, reduced: seq<bool>) returns (failed: bool, newTeam: Handle)
    requires b.Valid() && HoldsOnly(b, oldTeam) && b.Reduces(reduced)
    modifies b
    ensures b.Valid() && HoldsOnly(b, newTeam) && b.ctxs == old(b.ctxs)
    ensures (failed, b.Object(newTeam))
            == ShrinkOutcome(b.numPes, b.myPe, b.maxTeams, old(b.Object(oldTeam)), WP.LowestBit(reduced) >= 0)
    ensures oldTeam.User? && newTeam.User? ==> oldTeam.id != newTeam.id
    ensures newTeam.User? ==> WP.LowestBit(reduced) >= 0
    ensures oldTeam.User? ==> oldTeam.id in old(b.pool.held) && old(b.pool.held)[oldTeam.id] < b.PoolSize()
    ensures b.pool == GiveBack(TakeFor(old(b.pool), newTeam, WP.LowestBit(reduced)), oldTeam)
  {
    var size := if oldTeam.User? then b.objects[oldTeam.id].team.size else -1;
    var ret;
    ret, newTeam := b.SplitStrided(oldTeam, Args(1, 1, size - 1), reduced);
    failed := oldTeam != Invalid && ret != Success;
    var ok := b.TeamDestroy(oldTeam);
  }

  /** The same, in terms of what the PE holds before and after iteration i. */
  method Iteration(b: Backend, oldTeam: Handle, i: nat) returns (failed: bool, newTeam: Handle)
    requires i >= 1 && At(b, oldTeam, i - 1) && i < b.numPes
    modifies b
    ensures At(b, newTeam, i) && b.ctxs == old(b.ctxs)
    ensures ErrorsAfter(b.maxTeams, i) == ErrorsAfter(b.maxTeams, i - 1) + if failed then 1 else 0
  {
    var size, n, me := b.PoolSize(), b.numPes, b.myPe;
    var reduced := Reduced(size, n, me, i);
    ReducedIsFree(size, n, me, i);
    Ready(b.maxTeams, size, n, me, i);
    failed, newTeam := ShrinkOnce(b, oldTeam, reduced);
    PoolStep(size, n, me, i, oldTeam, newTeam);
  }

  /** All iterations: PE `me` ends with the team of the last PE, or nothing. */
  method ShrinkAll(b: Backend) returns (errors: nat, team: Handle)
    requires b.Valid() && b.teams == []
    modifies b
    ensures At(b, team, b.numPes - 1) && b.ctxs == old(b.ctxs)
    ensures errors == ErrorsAfter(b.maxTeams, b.numPes - 1)
  {
    errors, team := StartTeams(b);
    for i := 1 to b.numPes
      invariant At(b, team, i - 1) && b.ctxs == old(b.ctxs)
      invariant errors == ErrorsAfter(b.maxTeams, i - 1)
    {
      var failed;
      failed, team := Iteration(b, team, i);
      errors := errors + if failed then 1 else 0;
    }
  }

  /** The program of one PE. It reports no error exactly when the limit allows the
      old and the new team to exist together (or there is only one PE), and gives
      every work array back. */
  method ReuseTeams(b: Backend) returns (errors: nat)
    requires b.Valid() && b.teams == []
    modifies b
    ensures b.Valid() && b.teams == [] && b.ctxs == old(b.ctxs) && b.pool == WP.Fresh(b.PoolSize())
    ensures errors == 0 <==> b.maxTeams >= 3 || (b.maxTeams == 2 && b.numPes == 1)
  {
    var team;
    errors, team := ShrinkAll(b);
    var ok := b.TeamDestroy(team);
    WP.EmptyIsFresh(b.PoolSize(), b.pool);
  }
}
