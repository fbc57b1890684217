/**
 The unit-test client of the device lock: every wave calls `increment_counter`
 once. The increment is a load and a store, two separate steps. The lanes of a
 wave run in lockstep, so they load the same value and store the same value and
 one wave adds one.
 */
module LockedCounter {
  import opened Sums
  import opened GroupLock

  datatype Client = Ready | Loaded(tmp: int) | Stored

  datatype Job = Job(lock: State, client: seq<Client>, counter: int)

  predicate Matches(c: Config, j: Job) {
    |j.lock.waves| == |c.group| == |j.client|
  }

  function Begin(c: Config): Job {
    Job(Init(c), seq(|c.group|, i => Ready), 0)
  }

  function Tick(c: Config, j: Job, m: Move): (r: Job)
    requires Matches(c, j)
    ensures Matches(c, r)
  {
    if m.wave >= |j.client| then j else
    var i, pc := m.wave, j.lock.waves[m.wave].pc;
    match j.client[i]
    case Ready =>
      if pc == Inside then j.(client := j.client[i := Loaded(j.counter)])
      else j.(lock := Step(c, j.lock, m))
    case Loaded(t) => j.(client := j.client[i := Stored], counter := t + 1)
    case Stored =>
      if pc == Outside then j
      else j.(lock := Step(c, j.lock, m))
  }

  function Play(c: Config, j: Job, moves: seq<Move>): (r: Job)
    requires Matches(c, j)
    ensures Matches(c, r)
    decreases |moves|
  {
    if moves == [] then j else Play(c, Tick(c, j, moves[0]), moves[1..])
  }

  lemma {:induction false} PlayConcat(c: Config, j: Job, a: seq<Move>, b: seq<Move>)
    requires Matches(c, j)
    ensures Play(c, j, a + b) == Play(c, Play(c, j, a), b)
    decreases |a|
  {
    if a == [] {
      assert a + b == b;
    } else {
      assert (a + b)[1..] == a[1..] + b;
      PlayConcat(c, Tick(c, j, a[0]), a[1..], b);
    }
  }

  /** Every wave has made its call and returned from it. */
  predicate Complete(j: Job) {
    |j.client| == |j.lock.waves| &&
    forall i :: 0 <= i < |j.client| ==> j.client[i] == Stored && j.lock.waves[i].pc == Outside
  }

  /** A wave makes one call only, so a complete job stays as it is. */
  lemma {:induction false} CompleteIsFinal(c: Config, j: Job, moves: seq<Move>)
    requires Matches(c, j) && Complete(j)
    ensures Play(c, j, moves) == j
    decreases |moves|
  {
    if moves != [] {
      CompleteIsFinal(c, Tick(c, j, moves[0]), moves[1..]);
    }
  }

  predicate OneWavePerGroup(c: Config) {
    forall i, j :: 0 <= i < j < |c.group| ==> c.group[i] != c.group[j]
  }

  function Done(x: Client): nat {
    if x == Stored then 1 else 0
  }

  function Waiting(x: Client): nat {
    if x == Ready then 1 else 0
  }

  ghost predicate CounterInv(c: Config, j: Job) {
    && Matches(c, j) && Inv(c, j.lock)
    && (forall i :: 0 <= i < |j.client| && j.client[i].Loaded? ==>
          j.lock.waves[i].pc == Inside && j.client[i].tmp <= Sum(Done, j.client))
    && j.counter <= Sum(Done, j.client)
    && (OneWavePerGroup(c) ==>
          && j.counter == Sum(Done, j.client)
          && forall i :: 0 <= i < |j.client| && j.client[i].Loaded? ==> j.client[i].tmp == j.counter)
  }

  lemma OneLoader(c: Config, j: Job, i: nat)
    requires CounterInv(c, j) && OneWavePerGroup(c) && i < |j.client| && j.client[i].Loaded?
    ensures forall k :: 0 <= k < |j.client| && j.client[k].Loaded? ==> k == i
  {
    forall k | 0 <= k < |j.client| && j.client[k].Loaded? ensures k == i {
      assert c.group[k] == j.lock.owner == c.group[i];
    }
  }

  /** A step inside lock or unlock concerns the lock only. */
  lemma TickLock(c: Config, j: Job, m: Move)
    requires c.shareable && CounterInv(c, j) && m.wave < |j.client| && !j.client[m.wave].Loaded?
    ensures CounterInv(c, j.(lock := Step(c, j.lock, m)))
  {
    StepInv(c, j.lock, m);
    var t := Step(c, j.lock, m);
    assert forall k :: 0 <= k < |t.waves| && k != m.wave ==> t.waves[k] == j.lock.waves[k];
  }

  lemma TickStore(c: Config, j: Job, i: nat)
    requires CounterInv(c, j) && i < |j.client| && j.client[i].Loaded?
    ensures CounterInv(c, j.(client := j.client[i := Stored], counter := j.client[i].tmp + 1))
  {
    SumUpdate(Done, j.client, i, Stored);
    if OneWavePerGroup(c) {
      OneLoader(c, j, i);
    }
  }

  lemma TickInv(c: Config, j: Job, m: Move)
    requires c.shareable && CounterInv(c, j)
    ensures CounterInv(c, Tick(c, j, m))
  {
    if m.wave < |j.client| {
      if j.client[m.wave].Loaded? {
        TickStore(c, j, m.wave);
      } else {
        TickLock(c, j, m);
        SumUpdate(Done, j.client, m.wave, Loaded(j.counter));
      }
    }
  }

  lemma {:induction false} PlayInv(c: Config, j: Job, moves: seq<Move>)
    requires c.shareable && CounterInv(c, j)
    ensures CounterInv(c, Play(c, j, moves))
    decreases |moves|
  {
    if moves != [] {
      TickInv(c, j, moves[0]);
      PlayInv(c, Tick(c, j, moves[0]), moves[1..]);
    }
  }

  lemma BeginInv(c: Config)
    ensures CounterInv(c, Begin(c))
  {
    InitInv(c);
    SumConstant(Done, Begin(c).client, 0);
  }

  /** A complete run counts at most one per wave, and exactly one per wave when
      no two waves share a work-group. */
  lemma {:induction false} CounterBounds(c: Config, moves: seq<Move>)
    requires c.shareable && Complete(Play(c, Begin(c), moves))
    ensures Play(c, Begin(c), moves).counter <= |c.group|
    ensures OneWavePerGroup(c) ==> Play(c, Begin(c), moves).counter == |c.group|
  {
    BeginInv(c);
    PlayInv(c, Begin(c), moves);
    SumConstant(Done, Play(c, Begin(c), moves).client, 1);
  }

  // ----- the launches of the fixture -----

  function WavesPerGroup(block: nat): nat {
    (block + WF_SIZE - 1) / WF_SIZE
  }

  /** `grid` work-groups of `block` threads each, cut into waves. */
  function Launch(block: nat, grid: nat): Config {
    var w := WavesPerGroup(block);
    Config(true, seq(grid * w, i requires 0 <= i < grid * w => if w == 0 then 0 else i / w))
  }

  lemma FewerWaves(block: nat)
    requires block > 1
    ensures WavesPerGroup(block) < block
  {
  }

  lemma StrictlyMore(k: nat, a: nat, b: nat)
    requires k > 0 && a < b
    ensures k * a < k * b
  {
    assert k * b == k * a + k * (b - a);
  }

  lemma SingleThreadLaunch(grid: nat)
    ensures OneWavePerGroup(Launch(1, grid)) && |Launch(1, grid).group| == grid
  {
    assert WavesPerGroup(1) == 1;
  }

  lemma LaunchShape(block: nat, grid: nat)
    requires block > 1 && grid > 0
    ensures |Launch(block, grid).group| < block * grid
  {
    FewerWaves(block);
    StrictlyMore(grid, WavesPerGroup(block), block);
  }

  /** What the fixture asserts, counter == threads, is met by a complete run
      exactly when the work-groups have one thread (or there is none). */
  lemma {:induction false} FixtureAssertIff(block: nat, grid: nat, moves: seq<Move>)
    requires block >= 1
    requires Complete(Play(Launch(block, grid), Begin(Launch(block, grid)), moves))
    ensures Play(Launch(block, grid), Begin(Launch(block, grid)), moves).counter == block * grid
            <==> block == 1 || grid == 0
  {
    var c := Launch(block, grid);
    CounterBounds(c, moves);
    if block == 1 {
      SingleThreadLaunch(grid);
    } else if grid > 0 {
      LaunchShape(block, grid);
    }
  }

  // ----- runs that lose an update -----

  /** Nobody is in a call; each wave is still to start or has finished. */
  ghost predicate Idle(c: Config, j: Job) {
    && Matches(c, j) && Inv(c, j.lock) && j.lock.ctxLock == 0
    && (forall i :: 0 <= i < |j.client| ==> j.lock.waves[i].pc == Outside && !j.client[i].Loaded?)
  }

  lemma IdleUnowned(c: Config, j: Job)
    requires Idle(c, j)
    ensures j.lock.owner == NO_OWNER
  {
    if j.lock.count > 0 {
      var i := SumWitness(Share, j.lock.waves);
    }
  }

  lemma {:induction false} LiftCritical(c: Config, j: Job, i: nat)
    requires c.shareable && Matches(c, j) && Inv(c, j.lock)
    requires i < |j.client| && !j.client[i].Loaded? && Critical(j.lock.waves[i].pc)
    ensures var n := StepsToRelease(c, j.lock, i);
      Play(c, j, Alone(i, n)) == j.(lock := Exec(c, j.lock, Alone(i, n)))
    decreases StepsToRelease(c, j.lock, i)
  {
    var n := StepsToRelease(c, j.lock, i);
    var r := Tick(c, j, Move(i, 1));
    StepInv(c, j.lock, Move(i, 1));
    HolderStep(c, j.lock, i);
    AloneFirst(c, j.lock, i, n - 1);
    assert Alone(i, n)[1..] == Alone(i, n - 1);
    if Critical(r.lock.waves[i].pc) {
      LiftCritical(c, r, i);
    } else {
      assert Alone(i, 0) == [];
    }
  }

  ghost predicate SameButPc(j: Job, r: Job, i: nat, pc: Pc) {
    && i < |j.lock.waves| && OnlyMoved(j.lock, r.lock, i) && r.lock.waves[i].pc == pc
    && r.client == j.client && r.counter == j.counter && r.lock.ctxLock == 0
  }

  /** From the CAS on the short lock until its release, nobody else moving. */
  lemma ThroughShortLock(c: Config, j: Job, i: nat) returns (moves: seq<Move>)
    requires c.shareable && Matches(c, j) && Inv(c, j.lock) && j.lock.ctxLock == 0
    requires i < |j.client| && !j.client[i].Loaded?
    requires j.lock.waves[i].pc == AcquireOut ||
             (j.lock.waves[i].pc == Acquire && j.lock.owner in {NO_OWNER, c.group[i] as int})
    ensures var r := Play(c, j, moves);
      Inv(c, r.lock) && SameButPc(j, r, i, if j.lock.waves[i].pc == Acquire then Inside else Outside)
  {
    var r := Tick(c, j, Move(i, 1));
    StepInv(c, j.lock, Move(i, 1));
    var n := StepsToRelease(c, r.lock, i);
    LiftCritical(c, r, i);
    ReleaseAlone(c, r.lock, i);
    moves := [Move(i, 1)] + Alone(i, n);
    assert moves[1..] == Alone(i, n);
  }

  lemma EnterJob(c: Config, j: Job, i: nat) returns (moves: seq<Move>)
    requires c.shareable && Matches(c, j) && Inv(c, j.lock) && j.lock.ctxLock == 0
    requires i < |j.client| && j.client[i] == Ready && j.lock.waves[i].pc == Outside
    requires j.lock.owner in {NO_OWNER, c.group[i] as int}
    ensures var r := Play(c, j, moves);
      Inv(c, r.lock) && SameButPc(j, r, i, Inside) && r.lock.owner == c.group[i]
  {
    StepInv(c, j.lock, Move(i, 1));
    var rest := ThroughShortLock(c, Tick(c, j, Move(i, 1)), i);
    moves := [Move(i, 1)] + rest;
    assert moves[1..] == rest;
    assert Counted(Play(c, j, moves).lock.waves[i].pc);
  }

  lemma LeaveJob(c: Config, j: Job, i: nat) returns (moves: seq<Move>)
    requires c.shareable && Matches(c, j) && Inv(c, j.lock) && j.lock.ctxLock == 0
    requires i < |j.client| && j.client[i] == Stored && j.lock.waves[i].pc == Inside
    ensures var r := Play(c, j, moves); Inv(c, r.lock) && SameButPc(j, r, i, Outside)
  {
    StepInv(c, j.lock, Move(i, 1));
    var rest := ThroughShortLock(c, Tick(c, j, Move(i, 1)), i);
    moves := [Move(i, 1)] + rest;
    assert moves[1..] == rest;
  }

  lemma {:induction false} PlayTwo(c: Config, j: Job, a: Move, b: Move)
    requires Matches(c, j)
    ensures Play(c, j, [a, b]) == Tick(c, Tick(c, j, a), b)
  {
    var j1 := Tick(c, j, a);
    assert [a, b][1..] == [b] && [b][1..] == [];
    assert Play(c, j1, [b]) == Play(c, Tick(c, j1, b), []);
  }

  /** One wave goes through on its own and counts one. */
  lemma SoloCall(c: Config, j: Job, i: nat) returns (moves: seq<Move>)
    requires c.shareable && Idle(c, j) && i < |j.client| && j.client[i] == Ready
    ensures var r := Play(c, j, moves);
      Idle(c, r) && r.client == j.client[i := Stored] && r.counter == j.counter + 1
  {
    IdleUnowned(c, j);
    var enter := EnterJob(c, j, i);
    var j1 := Play(c, j, enter);
    var work := [Move(i, 1), Move(i, 1)];
    PlayTwo(c, j1, Move(i, 1), Move(i, 1));
    var j2 := Play(c, j1, work);
    assert j2.client == j.client[i := Stored];
    var leave := LeaveJob(c, j2, i);
    PlayConcat(c, j, enter, work);
    PlayConcat(c, j, enter + work, leave);
    moves := enter + work + leave;
  }

  /** Two waves inside: both load before either stores. */
  lemma Race(c: Config, j: Job, a: nat, b: nat) returns (moves: seq<Move>)
    requires Matches(c, j) && a < b < |j.client|
    requires j.lock.waves[a].pc == Inside && j.lock.waves[b].pc == Inside
    requires j.client[a] == Ready && j.client[b] == Ready
    ensures var r := Play(c, j, moves);
      r.lock == j.lock && r.client == j.client[a := Stored][b := Stored] && r.counter == j.counter + 1
  {
    var both := [Move(a, 1), Move(b, 1)];
    PlayTwo(c, j, Move(a, 1), Move(b, 1));
    var r := Play(c, j, both);
    assert r.client == j.client[a := Loaded(j.counter)][b := Loaded(j.counter)];
    PlayTwo(c, r, Move(a, 1), Move(b, 1));
    PlayConcat(c, j, both, both);
    moves := both + both;
  }

  /** Two waves of one work-group race and count one between them. */
  lemma RacingCalls(c: Config, j: Job, a: nat, b: nat) returns (moves: seq<Move>)
    requires c.shareable && Idle(c, j) && a < b < |j.client| && c.group[a] == c.group[b]
    requires j.client[a] == Ready && j.client[b] == Ready
    ensures var r := Play(c, j, moves);
      Idle(c, r) && r.client == j.client[a := Stored][b := Stored] && r.counter == j.counter + 1
  {
    IdleUnowned(c, j);
    var enterA := EnterJob(c, j, a);
    var j1 := Play(c, j, enterA);
    var enterB := EnterJob(c, j1, b);
    var j2 := Play(c, j1, enterB);
    var race := Race(c, j2, a, b);
    var j3 := Play(c, j2, race);
    var leaveA := LeaveJob(c, j3, a);
    var j4 := Play(c, j3, leaveA);
    var leaveB := LeaveJob(c, j4, b);
    PlayConcat(c, j, enterA, enterB);
    PlayConcat(c, j, enterA + enterB, race);
    PlayConcat(c, j, enterA + enterB + race, leaveA);
    moves := enterA + enterB + race + leaveA;
    PlayConcat(c, j, moves, leaveB);
    moves := moves + leaveB;
  }

  lemma {:induction false} FinishRest(c: Config, j: Job) returns (moves: seq<Move>)
    requires c.shareable && Idle(c, j)
    ensures var r := Play(c, j, moves);
      Complete(r) && r.counter == j.counter + Sum(Waiting, j.client)
    decreases Sum(Waiting, j.client)
  {
    if Sum(Waiting, j.client) == 0 {
      moves := [];
      forall i | 0 <= i < |j.client| ensures j.client[i] == Stored {
        SumAtLeast(Waiting, j.client, i);
      }
    } else {
      var i := SumWitness(Waiting, j.client);
      var first := SoloCall(c, j, i);
      SumUpdate(Waiting, j.client, i, Stored);
      var rest := FinishRest(c, Play(c, j, first));
      PlayConcat(c, j, first, rest);
      moves := first + rest;
    }
  }

  ghost predicate LosesNoUpdate(c: Config) {
    forall moves: seq<Move> ::
      Complete(Play(c, Begin(c), moves)) ==> Play(c, Begin(c), moves).counter == |c.group|
  }

  lemma SomeRunLosesAnUpdate(c: Config, a: nat, b: nat) returns (moves: seq<Move>)
    requires c.shareable && a < b < |c.group| && c.group[a] == c.group[b]
    ensures var r := Play(c, Begin(c), moves); Complete(r) && r.counter == |c.group| - 1
  {
    InitInv(c);
    var j := Begin(c);
    var race := RacingCalls(c, j, a, b);
    var r := Play(c, j, race);
    var rest := FinishRest(c, r);
    PlayConcat(c, j, race, rest);
    SumConstant(Waiting, j.client, 1);
    SumUpdate(Waiting, j.client, a, Stored);
    SumUpdate(Waiting, j.client[a := Stored], b, Stored);
    moves := race + rest;
  }

  /** The lock protects the counter in every run exactly when no work-group sends
      two waves: it does not exclude waves of the same work-group. */
  lemma ProtectsCounterIff(c: Config)
    requires c.shareable
    ensures LosesNoUpdate(c) <==> OneWavePerGroup(c)
  {
    if OneWavePerGroup(c) {
      forall moves: seq<Move> | Complete(Play(c, Begin(c), moves))
        ensures Play(c, Begin(c), moves).counter == |c.group|
      {
        CounterBounds(c, moves);
      }
    } else {
      var a, b :| 0 <= a < b < |c.group| && c.group[a] == c.group[b];
      var moves := SomeRunLosesAnUpdate(c, a, b);
    }
  }
}
