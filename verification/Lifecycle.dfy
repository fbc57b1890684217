/**
 Who destroys what: the team tracker, the list of host contexts, and finalize.
 Handles are numbers; a created object gets a handle never used before.
 */
module Lifecycle {
  import opened Teams
  import WP = WorkPool

  // ----- specification -----

  /** Tracked handles, everything ever created, and every destruction so far. */
  datatype Pool = Pool(live: seq<nat>, made: set<nat>, gone: multiset<nat>)

  const EMPTY := Pool([], {}, multiset{})

  function Track(p: Pool, h: nat): Pool {
    p.(live := p.live + [h], made := p.made + {h})
  }

  function Without(s: seq<nat>, h: nat): seq<nat>
    requires h in s
  {
    if s[0] == h then s[1..] else [s[0]] + Without(s[1..], h)
  }

  /** None when the assertion of `untrack` fails. */
  function Destroy(p: Pool, h: nat): Option<Pool> {
    if h !in p.live then None else Some(p.(live := Without(p.live, h), gone := p.gone + multiset{h}))
  }

  /** Destroy the last tracked object until none is left. */
  function DestroyAll(p: Pool): Pool
    decreases |p.live|
  {
    if p.live == [] then p
    else
      var last := |p.live| - 1;
      DestroyAll(p.(live := p.live[..last], gone := p.gone + multiset{p.live[last]}))
  }

  /** Every object made is either still tracked, once, or has been destroyed, once. */
  predicate Conserved(p: Pool) {
    multiset(p.live) + p.gone == multiset(p.made)
  }

  lemma {:induction false} WithoutRemovesOne(s: seq<nat>, h: nat)
    requires h in s
    ensures multiset(Without(s, h)) == multiset(s) - multiset{h} && |Without(s, h)| == |s| - 1
  {
    assert s == [s[0]] + s[1..];
    if s[0] != h {
      WithoutRemovesOne(s[1..], h);
    }
  }

  lemma {:induction false} WithoutAt(s: seq<nat>, h: nat, i: nat)
    requires i < |s| && s[i] == h && forall j :: 0 <= j < i ==> s[j] != h
    ensures Without(s, h) == s[..i] + s[i + 1..]
  {
    if i > 0 {
      WithoutAt(s[1..], h, i - 1);
      assert s[1..][..i - 1] == s[1..i] && s[1..][i..] == s[i + 1..];
      assert s[..i] == [s[0]] + s[1..i];
    }
  }

  lemma TrackConserves(p: Pool, h: nat)
    requires Conserved(p) && h !in p.made
    ensures Conserved(Track(p, h))
  {
    assert multiset(p.made + {h}) == multiset(p.made) + multiset{h};
  }

  lemma DestroyConserves(p: Pool, h: nat)
    requires Conserved(p) && h in p.live
    ensures Conserved(Destroy(p, h).value)
  {
    WithoutRemovesOne(p.live, h);
  }

  /** After finalize every object made has been destroyed exactly once. */
  lemma {:induction false} DestroyAllOnce(p: Pool)
    requires Conserved(p)
    ensures DestroyAll(p).live == [] && DestroyAll(p).made == p.made
    ensures DestroyAll(p).gone == multiset(p.made)
    decreases |p.live|
  {
    if p.live != [] {
      var last := |p.live| - 1;
      assert p.live == p.live[..last] + [p.live[last]];
      DestroyAllOnce(p.(live := p.live[..last], gone := p.gone + multiset{p.live[last]}));
    }
  }

  // ----- whole runs -----

  datatype Library = Library(maxTeams: int, teams: Pool, ctxs: Pool)

  datatype Call = MakeTeam(h: nat) | DropTeam(h: nat) | MakeCtx(h: nat) | DropCtx(h: nat)

  /** A split beyond the limit creates nothing. */
  predicate TeamsFull(l: Library) {
    |l.teams.live| >= l.maxTeams - 1
  }

  function Do(l: Library, c: Call): Option<Library> {
    match c
    case MakeTeam(h) => Some(if TeamsFull(l) then l else l.(teams := Track(l.teams, h)))
    case MakeCtx(h) => Some(l.(ctxs := Track(l.ctxs, h)))
    case DropTeam(h) =>
      (match Destroy(l.teams, h) case None => None case Some(p) => Some(l.(teams := p)))
    case DropCtx(h) =>
      (match Destroy(l.ctxs, h) case None => None case Some(p) => Some(l.(ctxs := p)))
  }

  function Run(l: Library, calls: seq<Call>): Option<Library>
    decreases |calls|
  {
    if calls == [] then Some(l)
    else match Do(l, calls[0])
      case None => None
      case Some(m) => Run(m, calls[1..])
  }

  /** The user's side: created objects are new, and only objects that were
      created and not yet destroyed are destroyed. */
  predicate UserAllowed(l: Library, c: Call) {
    match c
    case MakeTeam(h) => h !in l.teams.made
    case MakeCtx(h) => h !in l.ctxs.made
    case DropTeam(h) => h in l.teams.made && h !in l.teams.gone
    case DropCtx(h) => h in l.ctxs.made && h !in l.ctxs.gone
  }

  predicate UserBehaves(l: Library, calls: seq<Call>)
    decreases |calls|
  {
    calls == [] ||
    (UserAllowed(l, calls[0]) && (Do(l, calls[0]).Some? ==> UserBehaves(Do(l, calls[0]).value, calls[1..])))
  }

  predicate LibraryInv(l: Library) {
    && Conserved(l.teams) && Conserved(l.ctxs)
    && |l.teams.live| <= if l.maxTeams >= 1 then l.maxTeams - 1 else 0
  }

  lemma AllowedIsLive(p: Pool, h: nat)
    requires Conserved(p) && h in p.made && h !in p.gone
    ensures h in p.live
  {
    assert multiset(p.made)[h] == 1;
    assert (multiset(p.live) + p.gone)[h] == multiset(p.live)[h] + p.gone[h];
  }

  lemma LiveIsAllowed(p: Pool, h: nat)
    requires Conserved(p) && h in p.live
    ensures h in p.made && h !in p.gone
  {
    assert multiset(p.made)[h] <= 1;
    assert (multiset(p.live) + p.gone)[h] == multiset(p.live)[h] + p.gone[h];
  }

  /** A well-behaved user may destroy exactly what is tracked, which is exactly when the
      tracker's assertion holds, and may always create. */
  lemma AllowedIff(l: Library, c: Call)
    requires LibraryInv(l)
    ensures UserAllowed(l, c) <==>
      match c
      case MakeTeam(h) => h !in l.teams.made
      case MakeCtx(h) => h !in l.ctxs.made
      case DropTeam(_) => Do(l, c).Some?
      case DropCtx(_) => Do(l, c).Some?
  {
    if c.DropTeam? && c.h in l.teams.live {
      LiveIsAllowed(l.teams, c.h);
    } else if c.DropCtx? && c.h in l.ctxs.live {
      LiveIsAllowed(l.ctxs, c.h);
    } else if UserAllowed(l, c) {
      DoInv(l, c);
    }
  }

  lemma DoInv(l: Library, c: Call)
    requires LibraryInv(l) && UserAllowed(l, c)
    ensures Do(l, c).Some? && LibraryInv(Do(l, c).value) && Do(l, c).value.maxTeams == l.maxTeams
  {
    match c
    case MakeTeam(h) => TrackConserves(l.teams, h);
    case MakeCtx(h) => TrackConserves(l.ctxs, h);
    case DropTeam(h) =>
      AllowedIsLive(l.teams, h);
      DestroyConserves(l.teams, h);
      WithoutRemovesOne(l.teams.live, h);
    case DropCtx(h) =>
      AllowedIsLive(l.ctxs, h);
      DestroyConserves(l.ctxs, h);
  }

  /** Call number i asks for context or team h, and the team is below the limit. */
  ghost predicate Creates(l: Library, calls: seq<Call>, i: int, h: nat, team: bool) {
    && 0 <= i < |calls|
    && (if team
        then calls[i] == MakeTeam(h) && Run(l, calls[..i]).Some? && !TeamsFull(Run(l, calls[..i]).value)
        else calls[i] == MakeCtx(h))
  }

  ghost predicate Created(l: Library, calls: seq<Call>, h: nat, team: bool) {
    exists i :: Creates(l, calls, i, h, team)
  }

  /** The first call, or a later one. */
  lemma CreatedFirst(l: Library, calls: seq<Call>, h: nat, team: bool)
    requires calls != [] && Do(l, calls[0]).Some?
    ensures Created(l, calls, h, team) <==>
            Creates(l, calls, 0, h, team) || Created(Do(l, calls[0]).value, calls[1..], h, team)
  {
    var m, rest := Do(l, calls[0]).value, calls[1..];
    forall i ensures Creates(m, rest, i, h, team) <==> i >= 0 && Creates(l, calls, i + 1, h, team) {
      if 0 <= i < |rest| {
        assert calls[..i + 1][1..] == rest[..i];
      }
    }
    if i :| Creates(l, calls, i, h, team) {
      assert i > 0 ==> Creates(m, rest, i - 1, h, team);
    }
    if i :| Creates(m, rest, i, h, team) {
      assert Creates(l, calls, i + 1, h, team);
    }
  }

  /** What counts as made is what was made before and what the calls create. */
  lemma {:induction false} MadeIff(l: Library, calls: seq<Call>, h: nat)
    requires LibraryInv(l) && UserBehaves(l, calls)
    ensures Run(l, calls).Some?
    ensures h in Run(l, calls).value.teams.made <==> h in l.teams.made || Created(l, calls, h, true)
    ensures h in Run(l, calls).value.ctxs.made <==> h in l.ctxs.made || Created(l, calls, h, false)
    decreases |calls|
  {
    if calls == [] {
      assert !Created(l, calls, h, true) && !Created(l, calls, h, false);
    } else {
      DoInv(l, calls[0]);
      assert calls[..0] == [];
      CreatedFirst(l, calls, h, true);
      CreatedFirst(l, calls, h, false);
      MadeIff(Do(l, calls[0]).value, calls[1..], h);
    }
  }

  lemma {:induction false} RunKeeps(l: Library, calls: seq<Call>)
    requires LibraryInv(l) && UserBehaves(l, calls)
    ensures Run(l, calls).Some? && LibraryInv(Run(l, calls).value) && Run(l, calls).value.maxTeams == l.maxTeams
    decreases |calls|
  {
    if calls != [] {
      DoInv(l, calls[0]);
      RunKeeps(Do(l, calls[0]).value, calls[1..]);
    }
  }

  /** Any run of a well-behaved user: no assertion fails, the number of live user
      teams stays below the limit, and after finalize every team and context that was
      there or that a call created has been destroyed exactly once, and no other. */
  lemma {:induction false} LifecycleRun(l: Library, calls: seq<Call>)
    requires LibraryInv(l) && UserBehaves(l, calls)
    ensures Run(l, calls).Some? && LibraryInv(Run(l, calls).value)
    ensures |Run(l, calls).value.teams.live| <= if l.maxTeams >= 1 then l.maxTeams - 1 else 0
    ensures forall h: nat :: DestroyAll(Run(l, calls).value.teams).gone[h]
                             == if h in l.teams.made || Created(l, calls, h, true) then 1 else 0
    ensures forall h: nat :: DestroyAll(Run(l, calls).value.ctxs).gone[h]
                             == if h in l.ctxs.made || Created(l, calls, h, false) then 1 else 0
  {
    RunKeeps(l, calls);
    DestroyAllOnce(Run(l, calls).value.teams);
    DestroyAllOnce(Run(l, calls).value.ctxs);
    forall h: nat
      ensures h in Run(l, calls).value.teams.made <==> h in l.teams.made || Created(l, calls, h, true)
      ensures h in Run(l, calls).value.ctxs.made <==> h in l.ctxs.made || Created(l, calls, h, false)
    {
      MadeIff(l, calls, h);
    }
  }

  // ----- the library object of one PE -----

  datatype Handle = Invalid | WorldTeam | User(id: nat)

  /** A team object: its triplet with respect to the world and the caller's place in it. */
  datatype Member = Member(team: Team, myPe: int)

  datatype Status = Success | BadArgument | TooManyTeams

  /** `std::find`: the first position of h, or the length. */
  method Find(s: seq<nat>, h: nat) returns (i: nat)
    ensures i <= |s| && (i < |s| <==> h in s)
    ensures i < |s| ==> s[i] == h && Without(s, h) == s[..i] + s[i + 1..]
  {
    i := 0;
    while i < |s| && s[i] != h
      invariant i <= |s| && forall j :: 0 <= j < i ==> s[j] != h
    {
      i := i + 1;
    }
    if i < |s| {
      WithoutAt(s, h, i);
    }
  }

  class Backend {
    const numPes: int
    const myPe: int
    const maxTeams: int
    var teams: seq<nat>
    var ctxs: seq<nat>
    var objects: map<nat, Member>
    var pool: WP.Pe
    var next: nat
    ghost var teamLog: Pool
    ghost var ctxLog: Pool

    ghost function View(): Library
      reads this
    {
      Library(maxTeams, teamLog, ctxLog)
    }

    function PoolSize(): nat {
      if maxTeams < 0 then 0 else maxTeams
    }

    ghost predicate Valid()
      reads this
    {
      && numPes >= 1 && 0 <= myPe < numPes
      && teamLog.live == teams && ctxLog.live == ctxs && LibraryInv(View())
      && (forall h :: h in teamLog.made || h in ctxLog.made ==> h < next)
      && (forall h :: h in teams <==> h in objects)
      && (forall h :: h in objects ==> Proper(objects[h]))
      && PoolValid()
    }

    /** Every team object has a work array, and nothing else does. */
    ghost predicate PoolValid()
      reads this
    {
      WP.PeOk(PoolSize(), pool) && pool.held.Keys == objects.Keys
    }

    /** The caller is where its team object says it is. */
    ghost predicate Proper(m: Member) {
      WellFormed(m.team) && IsMember(m.team, m.myPe, myPe)
    }

    predicate Known(t: Handle)
      reads this
    {
      t.User? ==> t.id in objects
    }

    function Object(t: Handle): Option<Member>
      requires Known(t)
      reads this
    {
      match t
      case Invalid => None
      case WorldTeam => Some(Member(World(numPes), myPe))
      case User(h) => Some(objects[h])
    }

    constructor (numPes: int, myPe: int, maxTeams: int)
      requires numPes >= 1 && 0 <= myPe < numPes
      ensures Valid() && this.numPes == numPes && this.myPe == myPe && this.maxTeams == maxTeams
      ensures teams == [] && ctxs == [] && View() == Library(maxTeams, EMPTY, EMPTY)
      ensures pool == WP.Fresh(PoolSize())
    {
      this.numPes, this.myPe, this.maxTeams := numPes, myPe, maxTeams;
      teams, ctxs, objects, next := [], [], map[], 0;
      pool := WP.Fresh(if maxTeams < 0 then 0 else maxTeams);
      teamLog, ctxLog := EMPTY, EMPTY;
    }

    /** The mask that the members' `MPI_Allreduce` delivers here: free on this PE too. */
    predicate Reduces(reduced: seq<bool>)
      reads this
    {
      |reduced| == |pool.mask| && forall k :: 0 <= k < |reduced| && reduced[k] ==> pool.mask[k]
    }

    /** `create_new_team`: take the least work array that is free on all members. */
    method CreateNewTeam(m: Member, reduced: seq<bool>) returns (team: Handle)
      requires PoolValid() && Reduces(reduced) && next !in objects
      modifies this`objects, this`pool, this`next
      ensures PoolValid() && (team.User? <==> WP.LowestBit(reduced) >= 0)
      ensures if team.User? then
          && team.id == old(next) && next == old(next) + 1 && objects == old(objects)[team.id := m]
          && pool == WP.Take(old(pool), team.id, WP.LowestBit(reduced))
        else team.Invalid? && next == old(next) && objects == old(objects) && pool == old(pool)
    {
      var k := WP.FindLowestBit(reduced);
      if k < 0 {
        return Invalid;
      }
      WP.TakeOk(PoolSize(), pool, next, k);
      TakeKeys(pool, next, k);
      pool := WP.Take(pool, next, k);
      objects := objects[next := m];
      team := User(next);
      next := next + 1;
    }

    /** An invalid team is not tracked. */
    method TrackTeam(team: Handle)
      requires !team.WorldTeam?
      modifies this`teams, this`teamLog
      ensures teams == (if team.User? then old(teams) + [team.id] else old(teams))
      ensures teamLog == (if team.User? then Track(old(teamLog), team.id) else old(teamLog))
    {
      if team.User? {
        teams := teams + [team.id];
        teamLog := Track(teamLog, team.id);
      }
    }

    /** The status of `create_new_team` is not looked at. */
    method Join(m: Member, reduced: seq<bool>) returns (team: Handle)
      requires Valid() && Proper(m) && Reduces(reduced) && |teams| < maxTeams - 1
      modifies this
      ensures Valid() && Known(team) && ctxs == old(ctxs) && !team.WorldTeam?
      ensures team.User? <==> WP.LowestBit(reduced) >= 0
      ensures team.User? ==>
        && team.id !in old(teamLog.made) && View() == Do(old(View()), MakeTeam(team.id)).value
        && teams == old(teams) + [team.id] && objects == old(objects)[team.id := m]
        && pool == WP.Take(old(pool), team.id, WP.LowestBit(reduced))
      ensures !team.User? ==>
        View() == old(View()) && teams == old(teams) && objects == old(objects) && pool == old(pool)
    {
      NewIsNotLive(teamLog, next);
      TrackConserves(teamLog, next);
      team := CreateNewTeam(m, reduced);
      TrackTeam(team);
    }

    method SplitStrided(parent: Handle, a: Args, reduced: seq<bool>) returns (status: Status, team: Handle)
      requires Valid() && Known(parent) && Reduces(reduced)
      modifies this
      ensures Valid() && Known(team) && ctxs == old(ctxs) && !team.WorldTeam?
      ensures (status, if team.User? then Some(objects[team.id]) else None)
              == SplitOutcome(numPes, myPe, maxTeams, |old(teams)|, old(Object(parent)), a, WP.LowestBit(reduced) >= 0)
      ensures team.User? ==>
        && team.id !in old(teamLog.made) && View() == Do(old(View()), MakeTeam(team.id)).value
        && teams == old(teams) + [team.id] && objects == old(objects)[team.id := objects[team.id]]
        && WP.LowestBit(reduced) >= 0 && pool == WP.Take(old(pool), team.id, WP.LowestBit(reduced))
      ensures !team.User? ==>
        View() == old(View()) && teams == old(teams) && objects == old(objects) && pool == old(pool)
    {
      team := Invalid;
      if |teams| >= maxTeams - 1 {
        return TooManyTeams, team;
      }
      if parent.Invalid? {
        return Success, team;
      }
      var p := Object(parent).value;
      assert WellFormed(p.team);
      var child := Split(numPes, p.team, a);
      if child.None? {
        return BadArgument, team;
      }
      var t := child.value;
      SplitWellFormed(numPes, p.team, a);
      var mine := PeInActiveSet(t.start, t.stride, t.size, myPe);
      ActiveSetAgrees(t, myPe);
      PeInTeamIff(t, myPe, mine);
      if mine >= 0 {
        team := Join(Member(t, mine), reduced);
      }
      status := Success;
    }

    /** The tracker's part; `ok` is whether its assertion holds. */
    method Untrack(h: nat) returns (ok: bool)
      requires teamLog.live == teams
      modifies this`teams, this`teamLog
      ensures ok <==> h in old(teams)
      ensures if ok then Some(teamLog) == Destroy(old(teamLog), h) && teams == Without(old(teams), h)
              else teamLog == old(teamLog) && teams == old(teams)
    {
      var i := Find(teams, h);
      ok := i < |teams|;
      if ok {
        teamLog := Destroy(teamLog, h).value;
        teams := teams[..i] + teams[i + 1..];
      }
    }

    /** The backend's part: give the work array back and drop the object. */
    method DropObject(h: nat)
      requires PoolValid() && h in objects
      modifies this`objects, this`pool
      ensures PoolValid() && objects == old(objects) - {h}
      ensures h in old(pool.held) && old(pool.held)[h] < PoolSize() && pool == WP.Give(old(pool), h)
    {
      WP.GiveOk(PoolSize(), pool, h);
      GiveKeys(pool, objects, h);
      pool := WP.Give(pool, h);
      objects := objects - {h};
    }

    method TeamDestroy(t: Handle) returns (ok: bool)
      requires Valid()
      modifies this
      ensures Valid() && ctxs == old(ctxs)
      ensures ok <==> (t.User? ==> t.id in old(teams))
      ensures ok && t.User? ==>
        && Some(View()) == Do(old(View()), DropTeam(t.id)) && objects == old(objects) - {t.id}
        && teams == Without(old(teams), t.id)
        && t.id in old(pool.held) && old(pool.held)[t.id] < PoolSize() && pool == WP.Give(old(pool), t.id)
      ensures !ok || !t.User? ==>
        View() == old(View()) && objects == old(objects) && teams == old(teams) && pool == old(pool)
    {
      if !t.User? {
        return true;
      }
      if t.id in teams {
        DropTracked(View(), t.id);
      }
      ok := Untrack(t.id);
      if ok {
        DropObject(t.id);
      }
    }

    method CtxCreate() returns (ctx: nat)
      requires Valid()
      modifies this
      ensures Valid() && teams == old(teams) && objects == old(objects) && pool == old(pool)
      ensures ctx !in old(ctxLog.made) && Some(View()) == Do(old(View()), MakeCtx(ctx))
      ensures ctxs == old(ctxs) + [ctx]
    {
      ctx := next;
      next := next + 1;
      TrackConserves(ctxLog, ctx);
      ctxs := ctxs + [ctx];
      ctxLog := Track(ctxLog, ctx);
    }

    method CtxDestroy(ctx: nat) returns (ok: bool)
      requires Valid()
      modifies this
      ensures Valid() && teams == old(teams) && objects == old(objects) && pool == old(pool)
      ensures ok <==> ctx in old(ctxs)
      ensures if ok then Some(View()) == Do(old(View()), DropCtx(ctx)) else View() == old(View())
      ensures ctxs == if ok then Without(old(ctxs), ctx) else old(ctxs)
    {
      var i := Find(ctxs, ctx);
      ok := i < |ctxs|;
      if ok {
        DestroyConserves(ctxLog, ctx);
        ctxLog := Destroy(ctxLog, ctx).value;
        ctxs := ctxs[..i] + ctxs[i + 1..];
      }
    }

    /** Contexts first, then teams, each list from the back. */
    method Finalize()
      requires Valid()
      modifies this
      ensures teams == [] && ctxs == [] && objects == map[] && pool == WP.Fresh(PoolSize())
      ensures teamLog == DestroyAll(old(teamLog)) && ctxLog == DestroyAll(old(ctxLog))
      ensures teamLog.gone == multiset(old(teamLog.made)) && ctxLog.gone == multiset(old(ctxLog.made))
    {
      DestroyAllOnce(teamLog);
      DestroyAllOnce(ctxLog);
      DestroyContexts();
      DestroyTeams();
      WP.EmptyIsFresh(PoolSize(), pool);
    }

    method DestroyContexts()
      requires ctxLog.live == ctxs
      modifies this`ctxs, this`ctxLog
      ensures ctxs == [] && ctxLog == DestroyAll(old(ctxLog))
    {
      while ctxs != []
        invariant ctxLog.live == ctxs && DestroyAll(ctxLog) == DestroyAll(old(ctxLog))
        decreases |ctxs|
      {
        var last := |ctxs| - 1;
        ctxLog := ctxLog.(live := ctxLog.live[..last], gone := ctxLog.gone + multiset{ctxs[last]});
        ctxs := ctxs[..last];
      }
    }

    /** The tracker's list and the backend's objects agree. */
    ghost predicate TeamsValid()
      reads this
    {
      teamLog.live == teams && Conserved(teamLog) && PoolValid() && forall h :: h in teams <==> h in objects
    }

    method DestroyLast()
      requires TeamsValid() && teams != []
      modifies this`teams, this`teamLog, this`objects, this`pool
      ensures TeamsValid() && |teams| == |old(teams)| - 1 && DestroyAll(teamLog) == DestroyAll(old(teamLog))
    {
      var last := |teams| - 1;
      LastOnce(teamLog);
      DropObject(teams[last]);
      teamLog := teamLog.(live := teamLog.live[..last], gone := teamLog.gone + multiset{teams[last]});
      teams := teams[..last];
    }

    method DestroyTeams()
      requires TeamsValid()
      modifies this`teams, this`teamLog, this`objects, this`pool
      ensures TeamsValid() && teams == [] && teamLog == DestroyAll(old(teamLog)) && objects == map[]
    {
      while teams != []
        invariant TeamsValid() && DestroyAll(teamLog) == DestroyAll(old(teamLog))
        decreases |teams|
      {
        DestroyLast();
      }
    }
  }

  /** The last tracked handle is tracked once, and removing it conserves. */
  lemma LastOnce(p: Pool)
    requires Conserved(p) && p.live != []
    ensures var last := |p.live| - 1;
      && p.live[last] !in p.live[..last]
      && Conserved(p.(live := p.live[..last], gone := p.gone + multiset{p.live[last]}))
  {
    var last := |p.live| - 1;
    var h := p.live[last];
    assert p.live == p.live[..last] + [h];
    assert multiset(p.made)[h] <= 1;
    assert (multiset(p.live) + p.gone)[h] == multiset(p.live)[h] + p.gone[h];
  }

  lemma NewIsNotLive(p: Pool, h: nat)
    requires Conserved(p) && h !in p.made
    ensures h !in p.live
  {
    assert multiset(p.made)[h] == 0;
    assert (multiset(p.live) + p.gone)[h] == multiset(p.live)[h] + p.gone[h];
  }

  lemma TakeKeys(pe: WP.Pe, h: nat, k: nat)
    requires k < |pe.mask|
    ensures WP.Take(pe, h, k).held.Keys == pe.held.Keys + {h}
  {
  }

  lemma GiveKeys(pe: WP.Pe, objects: map<nat, Member>, h: nat)
    requires h in pe.held && pe.held[h] < |pe.mask| && pe.held.Keys == objects.Keys
    ensures WP.Give(pe, h).held.Keys == (objects - {h}).Keys
  {
    assert (pe.held - {h}).Keys == pe.held.Keys - {h} && (objects - {h}).Keys == objects.Keys - {h};
  }

  lemma {:induction false} OnlyOnce(p: Pool, h: nat)
    requires Conserved(p) && h in p.live
    ensures forall g :: g in Without(p.live, h) <==> g in p.live && g != h
  {
    WithoutRemovesOne(p.live, h);
    forall g ensures g in Without(p.live, h) <==> g in p.live && g != h {
      assert multiset(p.made)[g] <= 1;
      assert (multiset(p.live) + p.gone)[g] == multiset(p.live)[g] + p.gone[g];
      assert g in Without(p.live, h) <==> multiset(Without(p.live, h))[g] > 0;
      assert g in p.live <==> multiset(p.live)[g] > 0;
    }
  }

  lemma {:induction false} DropTracked(l: Library, h: nat)
    requires LibraryInv(l) && h in l.teams.live
    ensures Do(l, DropTeam(h)).Some? && LibraryInv(Do(l, DropTeam(h)).value)
    ensures forall g :: g in Without(l.teams.live, h) <==> g in l.teams.live && g != h
  {
    WithoutRemovesOne(l.teams.live, h);
    DestroyConserves(l.teams, h);
    OnlyOnce(l.teams, h);
  }

  /** Status and new team of a split on one PE, from the values it looks at. */
  function SplitOutcome(numPes: int, me: int, maxTeams: int, tracked: nat, parent: Option<Member>, a: Args,
                        created: bool): (Status, Option<Member>)
    requires parent.Some? ==> WellFormed(parent.value.team)
  {
    if tracked >= maxTeams - 1 then (TooManyTeams, None)
    else if parent.None? then (Success, None)
    else match Split(numPes, parent.value.team, a)
      case None => (BadArgument, None)
      case Some(t) =>
        SplitWellFormed(numPes, parent.value.team, a);
        var mine := PeInActiveSet(t.start, t.stride, t.size, me);
        (Success, if mine < 0 || !created then None else Some(Member(t, mine)))
  }

  /** PE `me` is a member of the accepted split. */
  ghost predicate Belongs(parent: Team, a: Args, me: int) {
    exists i :: 0 <= i < a.size && me == PeInWorld(parent, a.start + a.stride * i)
  }

  lemma BelongsIff(numPes: int, parent: Team, a: Args, me: int)
    requires WellFormed(parent) && Split(numPes, parent, a).Some?
    ensures var t := Split(numPes, parent, a).value;
      t.stride > 0 && (PeInActiveSet(t.start, t.stride, t.size, me) >= 0 <==> Belongs(parent, a, me))
  {
    var t := Split(numPes, parent, a).value;
    SplitWellFormed(numPes, parent, a);
    ActiveSetAgrees(t, me);
    if PeInTeam(t, me) >= 0 {
      PeInTeamIff(t, me, PeInTeam(t, me));
      SplitMember(numPes, parent, a, PeInTeam(t, me));
    }
    if i :| 0 <= i < a.size && me == PeInWorld(parent, a.start + a.stride * i) {
      SplitMember(numPes, parent, a, i);
      PeInTeamIff(t, me, i);
    }
  }

  /** The status for every input: the limit comes first, then an invalid parent, then
      the arguments. */
  lemma StatusIff(numPes: int, me: int, maxTeams: int, tracked: nat, parent: Option<Member>, a: Args, created: bool)
    requires parent.Some? ==> WellFormed(parent.value.team)
    ensures var (status, team) := SplitOutcome(numPes, me, maxTeams, tracked, parent, a, created);
      && (status == TooManyTeams <==> tracked + 1 >= maxTeams)
      && (status == BadArgument <==> tracked + 1 < maxTeams && parent.Some? && !Accepted(numPes, parent.value.team, a))
      && (team.Some? <==>
            && tracked + 1 < maxTeams && parent.Some? && Accepted(numPes, parent.value.team, a) && created
            && Belongs(parent.value.team, a, me))
  {
    if parent.Some? {
      SplitAcceptedIff(numPes, parent.value.team, a);
      if Accepted(numPes, parent.value.team, a) {
        BelongsIff(numPes, parent.value.team, a, me);
      }
    }
  }

  /** A PE that belongs to the new team is told of success without getting it
      exactly when the backend creates none. */
  lemma JoiningOutcome(numPes: int, me: int, maxTeams: int, tracked: nat, parent: Member, a: Args, created: bool)
    requires WellFormed(parent.team) && tracked < maxTeams - 1 && Split(numPes, parent.team, a).Some?
    requires exists i :: IsMember(Split(numPes, parent.team, a).value, i, me)
    ensures SplitOutcome(numPes, me, maxTeams, tracked, Some(parent), a, created) == (Success, None) <==> !created
  {
    var t := Split(numPes, parent.team, a).value;
    var i :| IsMember(t, i, me);
    SplitWellFormed(numPes, parent.team, a);
    ActiveSetAgrees(t, me);
    PeInTeamIff(t, me, i);
  }
}
