/**
 The pool of work arrays of the GPU-IB backend. Every PE has a mask of free array
 numbers. Creating a team, its members combine their masks and take the least
 number that is free on all of them; each member gives it back on its own when it
 destroys the team. Number 0 is the world's.
 */
module WorkPool {

  /** `mask[k]`: array k is free. `held[t]`: the array of team t. */
  datatype Pe = Pe(mask: seq<bool>, held: map<nat, nat>)

  datatype Call = Create(team: nat, members: set<nat>) | Destroy(p: nat, team: nat)

  function Fresh(maxTeams: nat): Pe {
    Pe(seq(maxTeams, (k: nat) => k >= 1), map[])
  }

  /** The position of the lowest set bit, or -1. */
  function LowestBit(mask: seq<bool>): (k: int)
    ensures -1 <= k < |mask|
    ensures k >= 0 ==> mask[k] && forall j :: 0 <= j < k ==> !mask[j]
    ensures k == -1 ==> forall j :: 0 <= j < |mask| ==> !mask[j]
  {
    if mask == [] then -1
    else if mask[0] then 0
    else var k := LowestBit(mask[1..]); if k < 0 then -1 else
      assert mask[1..][k] == mask[k + 1];
      assert forall j :: 1 <= j < k + 1 ==> mask[j] == mask[1..][j - 1];
      k + 1
  }

  /** The loop that finds it. */
  method FindLowestBit(mask: seq<bool>) returns (position: int)
    ensures position == LowestBit(mask)
  {
    position := -1;
    var i := 0;
    while i < |mask| && position == -1
      invariant 0 <= i <= |mask| && -1 <= position < i
      invariant position == -1 ==> forall j :: 0 <= j < i ==> !mask[j]
      invariant position >= 0 ==> mask[position] && forall j :: 0 <= j < position ==> !mask[j]
    {
      if mask[i] {
        position := i;
      }
      i := i + 1;
    }
  }

  /** Bitwise and over the members. */
  function CommonMask(pes: seq<Pe>, members: set<nat>, maxTeams: nat): seq<bool>
    requires forall p :: 0 <= p < |pes| ==> |pes[p].mask| == maxTeams
  {
    seq(maxTeams, (k: nat) requires k < maxTeams =>
      forall p :: p in members && 0 <= p < |pes| ==> pes[p].mask[k])
  }

  predicate Shape(maxTeams: nat, pes: seq<Pe>) {
    forall p :: 0 <= p < |pes| ==> |pes[p].mask| == maxTeams
  }

  function Start(n: nat, maxTeams: nat): (r: seq<Pe>)
    ensures |r| == n && Shape(maxTeams, r)
  {
    seq(n, _ => Fresh(maxTeams))
  }

  function Take(pe: Pe, team: nat, k: nat): Pe
    requires k < |pe.mask|
  {
    Pe(pe.mask[k := false], pe.held[team := k])
  }

  function Give(pe: Pe, team: nat): Pe
    requires team in pe.held && pe.held[team] < |pe.mask|
  {
    Pe(pe.mask[pe.held[team] := true], pe.held - {team})
  }

  /** All members at once; nothing changes when no number is free on all. */
  function CreateTeam(maxTeams: nat, pes: seq<Pe>, team: nat, members: set<nat>): (r: seq<Pe>)
    requires Shape(maxTeams, pes)
    ensures |r| == |pes| && Shape(maxTeams, r)
  {
    var k := LowestBit(CommonMask(pes, members, maxTeams));
    if k < 0 then pes
    else seq(|pes|, (p: nat) requires p < |pes| => if p in members then Take(pes[p], team, k) else pes[p])
  }

  function Do(maxTeams: nat, pes: seq<Pe>, c: Call): (r: seq<Pe>)
    requires Shape(maxTeams, pes)
    ensures |r| == |pes| && Shape(maxTeams, r)
  {
    match c
    case Create(team, members) => CreateTeam(maxTeams, pes, team, members)
    case Destroy(p, team) =>
      if p < |pes| && team in pes[p].held && pes[p].held[team] < maxTeams then pes[p := Give(pes[p], team)] else pes
  }

  function Run(maxTeams: nat, pes: seq<Pe>, calls: seq<Call>): (r: seq<Pe>)
    requires Shape(maxTeams, pes)
    ensures |r| == |pes| && Shape(maxTeams, r)
    decreases |calls|
  {
    if calls == [] then pes else Run(maxTeams, Do(maxTeams, pes, calls[0]), calls[1..])
  }

  /** Team handles are not used twice. */
  predicate NewTeams(calls: seq<Call>) {
    forall i, j :: 0 <= i < j < |calls| && calls[i].Create? && calls[j].Create? ==> calls[i].team != calls[j].team
  }

  // ----- invariant -----

  ghost predicate HeldBy(pe: Pe, k: nat) {
    exists t :: t in pe.held && pe.held[t] == k
  }

  /** A number other than 0 is free or belongs to one team. */
  ghost predicate PeOk(maxTeams: nat, pe: Pe) {
    && |pe.mask| == maxTeams
    && (forall t :: t in pe.held ==> 1 <= pe.held[t] < maxTeams)
    && (forall t, u :: t in pe.held && u in pe.held && t != u ==> pe.held[t] != pe.held[u])
    && (forall k: nat :: k < maxTeams ==> (pe.mask[k] <==> k >= 1 && !HeldBy(pe, k)))
  }

  /** And all members of a team use the same number. */
  ghost predicate Inv(maxTeams: nat, pes: seq<Pe>) {
    && (forall p :: 0 <= p < |pes| ==> PeOk(maxTeams, pes[p]))
    && (forall p, q, t :: 0 <= p < |pes| && 0 <= q < |pes| && t in pes[p].held && t in pes[q].held ==>
          pes[p].held[t] == pes[q].held[t])
  }

  ghost predicate Unknown(pes: seq<Pe>, team: nat) {
    forall p :: 0 <= p < |pes| ==> team !in pes[p].held
  }

  lemma StartInv(n: nat, maxTeams: nat)
    ensures Inv(maxTeams, Start(n, maxTeams)) && forall t :: Unknown(Start(n, maxTeams), t)
  {
  }

  /** With nothing held, the mask is as at the start. */
  lemma EmptyIsFresh(maxTeams: nat, pe: Pe)
    requires PeOk(maxTeams, pe) && pe.held.Keys == {}
    ensures pe == Fresh(maxTeams)
  {
    forall k | 0 <= k < maxTeams ensures pe.mask[k] == Fresh(maxTeams).mask[k] {
      assert !HeldBy(pe, k);
    }
  }

  lemma TakeOk(maxTeams: nat, pe: Pe, team: nat, k: nat)
    requires PeOk(maxTeams, pe) && team !in pe.held && k < maxTeams && pe.mask[k]
    ensures PeOk(maxTeams, Take(pe, team, k))
  {
    var r := Take(pe, team, k);
    forall j: nat | j < maxTeams ensures r.mask[j] <==> j >= 1 && !HeldBy(r, j) {
      if HeldBy(pe, j) {
        var t :| t in pe.held && pe.held[t] == j;
        assert t in r.held && r.held[t] == j;
      }
      if j == k {
        assert team in r.held && r.held[team] == j;
      }
    }
  }

  lemma GiveOk(maxTeams: nat, pe: Pe, team: nat)
    requires PeOk(maxTeams, pe) && team in pe.held
    ensures PeOk(maxTeams, Give(pe, team))
  {
    var r := Give(pe, team);
    forall j: nat | j < maxTeams ensures r.mask[j] <==> j >= 1 && !HeldBy(r, j) {
      if j != pe.held[team] && HeldBy(pe, j) {
        var t :| t in pe.held && pe.held[t] == j;
        assert t in r.held && r.held[t] == j;
      }
    }
  }

  lemma CreateInv(maxTeams: nat, pes: seq<Pe>, team: nat, members: set<nat>)
    requires Inv(maxTeams, pes) && Unknown(pes, team)
    ensures Inv(maxTeams, CreateTeam(maxTeams, pes, team, members))
  {
    var mask := CommonMask(pes, members, maxTeams);
    var k, r := LowestBit(mask), CreateTeam(maxTeams, pes, team, members);
    if k >= 0 {
      forall p | 0 <= p < |pes| ensures PeOk(maxTeams, r[p]) {
        if p in members {
          assert mask[k];
          TakeOk(maxTeams, pes[p], team, k);
        }
      }
    }
  }

  lemma DoInv(maxTeams: nat, pes: seq<Pe>, c: Call)
    requires Inv(maxTeams, pes) && (c.Create? ==> Unknown(pes, c.team))
    ensures Inv(maxTeams, Do(maxTeams, pes, c))
    ensures forall t :: Unknown(pes, t) && (c.Create? ==> c.team != t) ==> Unknown(Do(maxTeams, pes, c), t)
  {
    match c
    case Create(team, members) => CreateInv(maxTeams, pes, team, members);
    case Destroy(p, team) =>
      if p < |pes| && team in pes[p].held {
        GiveOk(maxTeams, pes[p], team);
      }
  }

  lemma {:induction false} RunInv(maxTeams: nat, pes: seq<Pe>, calls: seq<Call>)
    requires Inv(maxTeams, pes) && NewTeams(calls)
    requires forall i :: 0 <= i < |calls| && calls[i].Create? ==> Unknown(pes, calls[i].team)
    ensures Inv(maxTeams, Run(maxTeams, pes, calls))
    decreases |calls|
  {
    if calls != [] {
      DoInv(maxTeams, pes, calls[0]);
      var rest := calls[1..];
      forall i | 0 <= i < |rest| && rest[i].Create? ensures Unknown(Do(maxTeams, pes, calls[0]), rest[i].team) {
        assert rest[i] == calls[i + 1];
      }
      RunInv(maxTeams, Do(maxTeams, pes, calls[0]), rest);
    }
  }

  /** In every run, with members destroying teams at different times: two teams that
      a PE holds never share a work array, nor use the world's, and all holders of a
      team use the same one. */
  lemma {:induction false} ArraysExclusive(maxTeams: nat, numPes: nat, calls: seq<Call>, p: nat, t: nat, u: nat)
    requires NewTeams(calls) && p < numPes
    ensures var pes := Run(maxTeams, Start(numPes, maxTeams), calls);
      && (t in pes[p].held && u in pes[p].held && t != u ==> pes[p].held[t] != pes[p].held[u])
      && (t in pes[p].held ==> 1 <= pes[p].held[t] < maxTeams)
      && forall q :: 0 <= q < numPes && t in pes[p].held && t in pes[q].held ==> pes[p].held[t] == pes[q].held[t]
  {
    var start := Start(numPes, maxTeams);
    StartInv(numPes, maxTeams);
    assert Inv(maxTeams, start);
    RunInv(maxTeams, start, calls);
  }

  ghost predicate HeldByMember(pes: seq<Pe>, members: set<nat>, k: nat) {
    exists p :: p in members && p < |pes| && HeldBy(pes[p], k)
  }

  /** Creating a team fails exactly when every number is held by some member. */
  lemma CreateFailsIff(maxTeams: nat, pes: seq<Pe>, members: set<nat>)
    requires Inv(maxTeams, pes) && members != {} && forall p :: p in members ==> p < |pes|
    ensures LowestBit(CommonMask(pes, members, maxTeams)) < 0 <==>
            forall k: nat :: 1 <= k < maxTeams ==> HeldByMember(pes, members, k)
  {
    var mask := CommonMask(pes, members, maxTeams);
    forall k: nat | k < maxTeams ensures mask[k] <==> k >= 1 && !HeldByMember(pes, members, k) {
      var p :| p in members;
      assert PeOk(maxTeams, pes[p]);
      if HeldByMember(pes, members, k) {
        var q :| q in members && q < |pes| && HeldBy(pes[q], k);
        assert PeOk(maxTeams, pes[q]);
      } else {
        forall q | q in members ensures pes[q].mask[k] <==> k >= 1 {
          assert PeOk(maxTeams, pes[q]) && !HeldBy(pes[q], k);
        }
      }
    }
  }

  /** Number k is the least that no member holds. */
  ghost predicate LeastFree(maxTeams: nat, pes: seq<Pe>, members: set<nat>, k: nat) {
    && 1 <= k < maxTeams && !HeldByMember(pes, members, k)
    && forall j :: 1 <= j < k ==> HeldByMember(pes, members, j)
  }

  lemma CommonIffFree(maxTeams: nat, pes: seq<Pe>, members: set<nat>, k: nat)
    requires Inv(maxTeams, pes) && members != {} && (forall p :: p in members ==> p < |pes|) && k < maxTeams
    ensures CommonMask(pes, members, maxTeams)[k] <==> k >= 1 && !HeldByMember(pes, members, k)
  {
    forall p | p in members ensures pes[p].mask[k] <==> k >= 1 && !HeldBy(pes[p], k) {
      assert PeOk(maxTeams, pes[p]);
    }
    var p :| p in members;
    assert CommonMask(pes, members, maxTeams)[k] ==> pes[p].mask[k];
  }

  /** Creating gives all members, and nobody else, the least number that none of them
      holds; with none left it changes nothing. */
  lemma CreateGives(maxTeams: nat, pes: seq<Pe>, team: nat, members: set<nat>, k: nat)
    requires Inv(maxTeams, pes) && members != {} && forall p :: p in members ==> p < |pes|
    ensures var r := Do(maxTeams, pes, Create(team, members));
      && (LeastFree(maxTeams, pes, members, k) ==>
            forall p :: 0 <= p < |pes| ==>
              r[p] == if p in members then Pe(pes[p].mask[k := false], pes[p].held[team := k]) else pes[p])
      && ((forall j :: 1 <= j < maxTeams ==> HeldByMember(pes, members, j)) ==> r == pes)
  {
    var common := CommonMask(pes, members, maxTeams);
    forall j: nat | j < maxTeams ensures common[j] <==> j >= 1 && !HeldByMember(pes, members, j) {
      CommonIffFree(maxTeams, pes, members, j);
    }
    if LeastFree(maxTeams, pes, members, k) {
      assert common[k] && forall j :: 0 <= j < k ==> !common[j];
      assert LowestBit(common) == k;
    }
  }

  /** Destroying gives the number back on that PE only: whatever it was, a PE that takes
      a free number and gives it back is as before. */
  lemma DestroyUndoes(maxTeams: nat, pes: seq<Pe>, p: nat, team: nat, k: nat)
    requires Shape(maxTeams, pes) && p < |pes| && k < maxTeams && pes[p].mask[k] && team !in pes[p].held
    ensures Do(maxTeams, pes[p := Take(pes[p], team, k)], Destroy(p, team)) == pes
  {
    var r := Give(Take(pes[p], team, k), team);
    assert r.mask == pes[p].mask;
    assert r.held == pes[p].held;
  }

  /** Members that hold nothing but one common team can always make another. With
      `only == 0` they hold nothing, and room for one team is enough. */
  lemma OneHeldFits(maxTeams: nat, pes: seq<Pe>, members: set<nat>, only: nat)
    requires Inv(maxTeams, pes) && members != {} && (forall p :: p in members ==> p < |pes|)
    requires maxTeams >= if only == 0 then 2 else 3
    requires forall p, k :: p in members && HeldBy(pes[p], k) ==> k == only
    ensures LowestBit(CommonMask(pes, members, maxTeams)) > 0
  {
    CreateFailsIff(maxTeams, pes, members);
    var other := if only == 1 then 2 else 1;
    assert !HeldByMember(pes, members, other);
    var p :| p in members;
    assert PeOk(maxTeams, pes[p]);
  }

  lemma {:induction false} RunOne(maxTeams: nat, pes: seq<Pe>, c: Call, rest: seq<Call>)
    requires Shape(maxTeams, pes)
    ensures Run(maxTeams, pes, [c] + rest) == Run(maxTeams, Do(maxTeams, pes, c), rest)
  {
    assert ([c] + rest)[1..] == rest;
  }

  /** A team of one PE takes that PE's least free number. */
  lemma SoloCreate(maxTeams: nat, pes: seq<Pe>, p: nat, team: nat, k: nat)
    requires Shape(maxTeams, pes) && p < |pes| && k < maxTeams
    requires pes[p].mask[k] && forall j :: 0 <= j < k ==> !pes[p].mask[j]
    ensures Do(maxTeams, pes, Create(team, {p})) == pes[p := Take(pes[p], team, k)]
  {
    assert CommonMask(pes, {p}, maxTeams) == pes[p].mask;
    assert LowestBit(pes[p].mask) == k;
  }

  /** PE 0 makes two teams and destroys the first. */
  lemma SecondLeft(start: Pe, one: Pe, two: Pe)
    requires start == Fresh(3) && one == Take(start, 1, 1) && two == Take(one, 2, 2)
    ensures two.held[1] == 1 && Give(two, 1).held == map[2 := 2]
  {
    assert two.held - {1} == map[2 := 2];
  }

  /** PE 1 makes team 0, PE 0 makes teams 1 and 2, and destroys 1. */
  predicate FourCalls(calls: seq<Call>) {
    calls == [Create(0, {1})] + ([Create(1, {0})] + ([Create(2, {0})] + ([Destroy(0, 1)] + [])))
  }

  lemma FourExist() returns (calls: seq<Call>)
    ensures FourCalls(calls) && NewTeams(calls)
  {
    calls := [Create(0, {1})] + ([Create(1, {0})] + ([Create(2, {0})] + ([Destroy(0, 1)] + [])));
  }

  lemma {:induction false} FourHeld(s0: seq<Pe>, calls: seq<Call>)
    requires |s0| >= 2 && s0[0] == s0[1] == Fresh(3) && Shape(3, s0) && FourCalls(calls)
    ensures var r := Run(3, s0, calls); r[0].held == map[2 := 2] && r[1].held == map[0 := 1]
  {
    var s1 := s0[1 := Take(s0[1], 0, 1)];
    var s2 := s1[0 := Take(s1[0], 1, 1)];
    var s3 := s2[0 := Take(s2[0], 2, 2)];
    SecondLeft(s1[0], s2[0], s3[0]);
    SoloCreate(3, s0, 1, 0, 1);
    SoloCreate(3, s1, 0, 1, 1);
    SoloCreate(3, s2, 0, 2, 2);
    RunOne(3, s3, Destroy(0, 1), []);
    RunOne(3, s2, Create(2, {0}), [Destroy(0, 1)] + []);
    RunOne(3, s1, Create(1, {0}), [Create(2, {0})] + ([Destroy(0, 1)] + []));
    RunOne(3, s0, Create(0, {1}), [Create(1, {0})] + ([Create(2, {0})] + ([Destroy(0, 1)] + [])));
  }

  /** Room for two user teams. PEs 0 and 1 are left with one team each, below the
      limit, but with different numbers, and cannot make a team together. */
  lemma Fragmented(n: nat) returns (calls: seq<Call>)
    requires n >= 2
    ensures NewTeams(calls)
    ensures var r := Run(3, Start(n, 3), calls);
      && Inv(3, r) && r[0].held == map[2 := 2] && r[1].held == map[0 := 1]
      && LowestBit(CommonMask(r, {0, 1}, 3)) < 0
  {
    calls := FourExist();
    var start := Start(n, 3);
    StartInv(n, 3);
    FourHeld(start, calls);
    RunInv(3, start, calls);
    NoneCommon(Run(3, start, calls), {0, 1});
  }

  lemma NoneCommon(r: seq<Pe>, members: set<nat>)
    requires Inv(3, r) && |r| >= 2 && r[0].held == map[2 := 2] && r[1].held == map[0 := 1] && members == {0, 1}
    ensures LowestBit(CommonMask(r, members, 3)) < 0
  {
    BothHeld(r, members);
    CreateFailsIff(3, r, members);
  }

  lemma BothHeld(r: seq<Pe>, members: set<nat>)
    requires |r| >= 2 && r[0].held == map[2 := 2] && r[1].held == map[0 := 1] && 0 in members && 1 in members
    ensures forall k: nat :: 1 <= k < 3 ==> HeldByMember(r, members, k)
  {
    forall k: nat | 1 <= k < 3 ensures HeldByMember(r, members, k) {
      var p, t := if k == 1 then 1 else 0, if k == 1 then 0 else 2;
      assert t in r[p].held && r[p].held[t] == k;
      assert HeldBy(r[p], k);
    }
  }
}
