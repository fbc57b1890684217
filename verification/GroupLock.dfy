/**
 The work-group re-entrant device lock.

 One leader lane per wave runs the code, so the unit of scheduling is the wave.
 Every CAS, load, store and release of the source is one step; a failed CAS and
 the clock-based back-off leave the state unchanged. A run is any sequence of
 moves, so a theorem about all sequences of moves is about every interleaving.
 */
module GroupLock {
  import opened Sums

  const WF_SIZE: nat := 64
  const NO_OWNER := -1

  /** Where a wave is in `lock` or `unlock`. */
  datatype Pc =
    | Outside    // not in a locked call
    | Acquire    // lock: CAS on the short lock
    | TestOwner  // lock: load the owner, compare with my group
    | TestFree   // lock: load the owner, compare with -1
    | TakeOwner  // lock: store my group
    | DropLock   // lock: another group owns the context
    | Reacquire  // lock: CAS again after dropping
    | ReadIn     // lock: load the thread count
    | WriteIn    // lock: store the increased count
    | ReleaseIn  // lock: release the short lock
    | Inside     // between return of lock and entry of unlock
    | AcquireOut // unlock: CAS on the short lock
    | ReadOut    // unlock: load the thread count
    | WriteOut   // unlock: store the decreased count
    | TestLast   // unlock: load the count, compare with 0
    | ClearOwner // unlock: last one out stores -1
    | ReleaseOut // unlock: release the short lock

  /** `lanes` is the active-lane count of the current call, `tmp` a register. */
  datatype Wave = Wave(pc: Pc, lanes: nat, tmp: int)

  datatype State = State(ctxLock: int, owner: int, count: int, waves: seq<Wave>) {
    function With(i: nat, w: Wave): State
      requires i < |waves|
    {
      this.(waves := waves[i := w])
    }
  }

  /** `group[i]` is the work-group of wave i. */
  datatype Config = Config(shareable: bool, group: seq<nat>)

  /** Schedule wave `wave`; `lanes` is used only when it enters `lock`. */
  datatype Move = Move(wave: nat, lanes: nat)

  function Init(c: Config): State {
    State(0, NO_OWNER, 0, seq(|c.group|, i => Wave(Outside, 0, 0)))
  }

  /** One iteration of `while (atomicCAS(&ctx_lock_, 0, 1) == 1)`. */
  function Cas(s: State, i: nat, next: Pc): State
    requires i < |s.waves|
  {
    if s.ctxLock == 1 then s
    else s.With(i, s.waves[i].(pc := next)).(ctxLock := if s.ctxLock == 0 then 1 else s.ctxLock)
  }

  function Step(c: Config, s: State, m: Move): (r: State)
    requires |s.waves| == |c.group|
    ensures |r.waves| == |c.group|
  {
    if m.wave >= |s.waves| then s else
    var i, g, w := m.wave, c.group[m.wave], s.waves[m.wave];
    match w.pc
    case Outside =>
      if 1 <= m.lanes <= WF_SIZE
      then s.With(i, w.(pc := if c.shareable then Acquire else Inside, lanes := m.lanes)) else s
    case Acquire => Cas(s, i, TestOwner)
    case TestOwner => s.With(i, w.(pc := if s.owner != g then TestFree else ReadIn))
    case TestFree => s.With(i, w.(pc := if s.owner == NO_OWNER then TakeOwner else DropLock))
    case TakeOwner => s.With(i, w.(pc := TestOwner)).(owner := g)
    case DropLock => s.With(i, w.(pc := Reacquire)).(ctxLock := 0)
    case Reacquire => Cas(s, i, TestOwner)
    case ReadIn => s.With(i, w.(pc := WriteIn, tmp := s.count))
    case WriteIn => s.With(i, w.(pc := ReleaseIn)).(count := w.tmp + w.lanes)
    case ReleaseIn => s.With(i, w.(pc := Inside)).(ctxLock := 0)
    case Inside => s.With(i, w.(pc := if c.shareable then AcquireOut else Outside))
    case AcquireOut => Cas(s, i, ReadOut)
    case ReadOut => s.With(i, w.(pc := WriteOut, tmp := s.count))
    case WriteOut => s.With(i, w.(pc := TestLast)).(count := w.tmp - w.lanes)
    case TestLast => s.With(i, w.(pc := if s.count == 0 then ClearOwner else ReleaseOut))
    case ClearOwner => s.With(i, w.(pc := ReleaseOut)).(owner := NO_OWNER)
    case ReleaseOut => s.With(i, w.(pc := Outside)).(ctxLock := 0)
  }

  function Exec(c: Config, s: State, moves: seq<Move>): (r: State)
    requires |s.waves| == |c.group|
    ensures |r.waves| == |c.group|
    decreases |moves|
  {
    if moves == [] then s else Exec(c, Step(c, s, moves[0]), moves[1..])
  }

  lemma {:induction false} ExecConcat(c: Config, s: State, a: seq<Move>, b: seq<Move>)
    requires |s.waves| == |c.group|
    ensures Exec(c, s, a + b) == Exec(c, Exec(c, s, a), b)
    decreases |a|
  {
    if a == [] {
      assert a + b == b;
    } else {
      assert (a + b)[1..] == a[1..] + b;
      ExecConcat(c, Step(c, s, a[0]), a[1..], b);
    }
  }

  lemma {:induction false} ExecTwo(c: Config, s: State, a: Move, b: Move)
    requires |s.waves| == |c.group|
    ensures Exec(c, s, [a, b]) == Step(c, Step(c, s, a), b)
  {
    var s1 := Step(c, s, a);
    assert [a, b][1..] == [b] && [b][1..] == [];
    assert Exec(c, s1, [b]) == Exec(c, Step(c, s1, b), []);
  }

  // ----- the inductive invariant -----

  /** The wave's leader holds the short lock. */
  predicate Critical(pc: Pc) {
    pc in {TestOwner, TestFree, TakeOwner, DropLock, ReadIn, WriteIn, ReleaseIn,
           ReadOut, WriteOut, TestLast, ClearOwner, ReleaseOut}
  }

  /** The wave's lanes are included in the shared count. */
  predicate Counted(pc: Pc) {
    pc in {ReleaseIn, Inside, AcquireOut, ReadOut, WriteOut}
  }

  function Share(w: Wave): nat {
    if Counted(w.pc) then w.lanes else 0
  }

  /** Owner and count agree. False only while one wave holds the short lock. */
  predicate Settled(s: State) {
    s.owner == NO_OWNER <==> s.count == 0
  }

  /** What the holder of the short lock knows at each point. */
  predicate HolderKnows(c: Config, s: State, i: nat)
    requires i < |s.waves| == |c.group|
  {
    var w, g := s.waves[i], c.group[i];
    match w.pc
    case TestOwner => s.owner == g || Settled(s)
    case TestFree => s.owner != g && Settled(s)
    case TakeOwner => s.owner == NO_OWNER && s.count == 0
    case DropLock => s.owner != g && s.owner != NO_OWNER && s.count != 0
    case ReadIn => s.owner == g
    case WriteIn => s.owner == g && w.tmp == s.count
    case WriteOut => w.tmp == s.count
    case TestLast => s.owner == g
    case ClearOwner => s.owner == g && s.count == 0
    case ReleaseOut => Settled(s)
    case _ => true
  }

  /** The short lock: held exactly when one wave is critical. */
  predicate ShortLock(s: State) {
    && s.ctxLock in {0, 1}
    && (s.ctxLock == 0 ==> forall i :: 0 <= i < |s.waves| ==> !Critical(s.waves[i].pc))
    && (s.ctxLock == 1 ==> exists i :: 0 <= i < |s.waves| && HoldsAlone(s, i))
  }

  predicate HoldsAlone(s: State, i: nat)
    requires i < |s.waves|
  {
    forall j :: 0 <= j < |s.waves| ==> (Critical(s.waves[j].pc) <==> j == i)
  }

  /** The shared fields against the waves' program counters. */
  predicate Books(c: Config, s: State)
    requires |s.waves| == |c.group|
  {
    && (forall i :: 0 <= i < |s.waves| && s.waves[i].pc != Outside ==> 1 <= s.waves[i].lanes <= WF_SIZE)
    && s.count == Sum(Share, s.waves)
    && (forall i :: 0 <= i < |s.waves| && Counted(s.waves[i].pc) ==> s.owner == c.group[i])
    && (forall i :: 0 <= i < |s.waves| && Critical(s.waves[i].pc) ==> HolderKnows(c, s, i))
    && (s.ctxLock == 0 ==> Settled(s))
  }

  predicate Inv(c: Config, s: State) {
    |s.waves| == |c.group| && ShortLock(s) && Books(c, s)
  }

  lemma InitInv(c: Config)
    ensures Inv(c, Init(c))
  {
    SumConstant(Share, Init(c).waves, 0);
  }

  lemma StepShortLock(c: Config, s: State, m: Move)
    requires c.shareable && |s.waves| == |c.group| && ShortLock(s)
    ensures ShortLock(Step(c, s, m))
  {
    if m.wave < |s.waves| {
      var i, t := m.wave, Step(c, s, m);
      if s.ctxLock == 1 {
        var h :| 0 <= h < |s.waves| && HoldsAlone(s, h);
        assert t.ctxLock == 1 ==> HoldsAlone(t, h);
      } else if t.ctxLock == 1 {
        assert HoldsAlone(t, i);
      }
    }
  }

  /** The count follows the waves, and a wave with a share keeps it positive. */
  lemma StepCount(c: Config, s: State, m: Move)
    requires c.shareable && Inv(c, s) && m.wave < |s.waves|
    ensures Step(c, s, m).count == Sum(Share, Step(c, s, m).waves)
  {
    var i, t := m.wave, Step(c, s, m);
    assert t.waves == s.waves[i := t.waves[i]];
    SumUpdate(Share, s.waves, i, t.waves[i]);
    assert Critical(s.waves[i].pc) ==> HolderKnows(c, s, i);
  }

  lemma StepOwner(c: Config, s: State, m: Move)
    requires c.shareable && Inv(c, s) && m.wave < |s.waves|
    ensures var t := Step(c, s, m);
      forall j :: 0 <= j < |t.waves| && Counted(t.waves[j].pc) ==> t.owner == c.group[j]
  {
    var i, t := m.wave, Step(c, s, m);
    assert Critical(s.waves[i].pc) ==> HolderKnows(c, s, i);
    forall j | 0 <= j < |t.waves| && Counted(t.waves[j].pc) ensures t.owner == c.group[j] {
      if s.waves[i].pc in {TakeOwner, ClearOwner} {
        SumAtLeast(Share, s.waves, j);
      }
    }
  }

  predicate UnlockSide(pc: Pc) {
    pc in {Inside, AcquireOut, ReadOut, WriteOut, TestLast, ClearOwner, ReleaseOut}
  }

  /** What the mover knows after its own step. */
  predicate MoverKnows(c: Config, t: State, i: nat)
    requires i < |t.waves| == |c.group|
  {
    && (Critical(t.waves[i].pc) ==> HolderKnows(c, t, i))
    && (t.ctxLock == 0 ==> Settled(t))
  }

  lemma StepMoverIn(c: Config, s: State, m: Move)
    requires c.shareable && Inv(c, s) && m.wave < |s.waves| && !UnlockSide(s.waves[m.wave].pc)
    ensures MoverKnows(c, Step(c, s, m), m.wave)
  {
    SumAtLeast(Share, s.waves, m.wave);
  }

  lemma StepMoverOut(c: Config, s: State, m: Move)
    requires c.shareable && Inv(c, s) && m.wave < |s.waves| && UnlockSide(s.waves[m.wave].pc)
    ensures MoverKnows(c, Step(c, s, m), m.wave)
  {
    if s.waves[m.wave].pc == TestLast && s.count > 0 {
      var j := SumWitness(Share, s.waves);
    }
  }

  /** While one wave holds the short lock, the others cannot touch the fields. */
  lemma StepBystander(c: Config, s: State, m: Move, j: nat)
    requires c.shareable && Inv(c, s) && m.wave < |s.waves|
    requires j < |s.waves| && j != m.wave && Critical(Step(c, s, m).waves[j].pc)
    ensures HolderKnows(c, Step(c, s, m), j)
  {
    var t := Step(c, s, m);
    assert s.waves[j] == t.waves[j];
    assert !Critical(s.waves[m.wave].pc);
    assert t.owner == s.owner && t.count == s.count;
    assert HolderKnows(c, s, j);
  }

  lemma StepLanes(c: Config, s: State, m: Move)
    requires c.shareable && Inv(c, s) && m.wave < |s.waves|
    ensures var t := Step(c, s, m);
      forall i :: 0 <= i < |t.waves| && t.waves[i].pc != Outside ==> 1 <= t.waves[i].lanes <= WF_SIZE
  {
  }

  lemma StepBooks(c: Config, s: State, m: Move)
    requires c.shareable && Inv(c, s) && m.wave < |s.waves|
    ensures Books(c, Step(c, s, m))
  {
    StepCount(c, s, m);
    StepOwner(c, s, m);
    if UnlockSide(s.waves[m.wave].pc) {
      StepMoverOut(c, s, m);
    } else {
      StepMoverIn(c, s, m);
    }
    StepLanes(c, s, m);
    var t := Step(c, s, m);
    forall j | 0 <= j < |t.waves| && Critical(t.waves[j].pc) ensures HolderKnows(c, t, j) {
      if j != m.wave {
        StepBystander(c, s, m, j);
      }
    }
  }

  /** Every single step of every wave keeps the invariant. */
  lemma StepInv(c: Config, s: State, m: Move)
    requires c.shareable && Inv(c, s)
    ensures Inv(c, Step(c, s, m))
  {
    StepShortLock(c, s, m);
    if m.wave < |s.waves| {
      StepBooks(c, s, m);
    }
  }

  lemma {:induction false} ExecInv(c: Config, s: State, moves: seq<Move>)
    requires c.shareable && Inv(c, s)
    ensures Inv(c, Exec(c, s, moves))
    decreases |moves|
  {
    if moves != [] {
      StepInv(c, s, moves[0]);
      ExecInv(c, Step(c, s, moves[0]), moves[1..]);
    }
  }

  // ----- exclusion between work-groups -----

  /** Waves i and j are both between the return of lock and the entry of unlock. */
  predicate BothInside(s: State, i: nat, j: nat) {
    i < |s.waves| && j < |s.waves| && s.waves[i].pc == Inside && s.waves[j].pc == Inside
  }

  ghost predicate ExcludesGroups(c: Config) {
    forall moves: seq<Move>, i: nat, j: nat ::
      BothInside(Exec(c, Init(c), moves), i, j) ==> c.group[i] == c.group[j]
  }

  /** A non-shareable lock lets everybody through and never writes its fields. */
  lemma {:induction false} PrivateFieldsConstant(c: Config, s: State, moves: seq<Move>)
    requires !c.shareable && |s.waves| == |c.group|
    requires forall i :: 0 <= i < |s.waves| ==> s.waves[i].pc in {Outside, Inside}
    ensures var t := Exec(c, s, moves);
      && (t.ctxLock, t.owner, t.count) == (s.ctxLock, s.owner, s.count)
      && forall i :: 0 <= i < |t.waves| ==> t.waves[i].pc in {Outside, Inside}
    decreases |moves|
  {
    if moves != [] {
      PrivateFieldsConstant(c, Step(c, s, moves[0]), moves[1..]);
    }
  }

  /** It lets any wave in and out at once, whoever else is inside. */
  lemma PrivateCall(c: Config, s: State, i: nat, k: nat)
    requires !c.shareable && i < |s.waves| == |c.group| && s.waves[i].pc == Outside && 1 <= k <= 64
    ensures var t := Step(c, s, Move(i, k));
      var u := Step(c, t, Move(i, k));
      && t == s.With(i, s.waves[i].(pc := Inside, lanes := k)) && u == s.With(i, s.waves[i].(lanes := k))
  {
  }

  /** Locked calls of different work-groups never overlap, in any run, exactly
      when the lock is shareable or there is only one work-group. */
  lemma ExclusionIff(c: Config)
    ensures ExcludesGroups(c) <==>
            c.shareable || forall i, j :: 0 <= i < |c.group| && 0 <= j < |c.group| ==> c.group[i] == c.group[j]
  {
    if c.shareable {
      forall moves: seq<Move>, i: nat, j: nat | BothInside(Exec(c, Init(c), moves), i, j)
        ensures c.group[i] == c.group[j]
      {
        InitInv(c);
        ExecInv(c, Init(c), moves);
      }
    } else if i, j :| 0 <= i < |c.group| && 0 <= j < |c.group| && c.group[i] != c.group[j] {
      var moves := [Move(i, 1), Move(j, 1)];
      ExecTwo(c, Init(c), moves[0], moves[1]);
      assert BothInside(Exec(c, Init(c), moves), i, j);
    }
  }

  // ----- accounting -----

  predicate InsideCall(pc: Pc) {
    pc in {Inside, AcquireOut}
  }

  function LanesInside(w: Wave): nat {
    if InsideCall(w.pc) then w.lanes else 0
  }

  function One(): nat -> nat -> nat {
    g => h => if h == g then 1 else 0
  }

  /** At most 1024 threads fit in the waves of 64 of one work-group. */
  ghost predicate FitsHardware(c: Config) {
    forall g: nat :: 64 * Sum(One()(g), c.group) <= 1024
  }

  /** The active lanes of wave i in its latest call of `lock`, read off the moves. */
  function LatestCall(c: Config, s: State, moves: seq<Move>, i: nat, latest: nat): nat
    requires i < |s.waves| == |c.group|
    decreases |moves|
  {
    if moves == [] then latest
    else
      var m := moves[0];
      var calls := m.wave == i && s.waves[i].pc == Outside && 1 <= m.lanes <= WF_SIZE;
      LatestCall(c, Step(c, s, m), moves[1..], i, if calls then m.lanes else latest)
  }

  /** A wave keeps the number it called with until its next call. */
  lemma {:induction false} LanesAreTheCallers(c: Config, s: State, moves: seq<Move>, i: nat)
    requires i < |s.waves| == |c.group|
    ensures Exec(c, s, moves).waves[i].lanes == LatestCall(c, s, moves, i, s.waves[i].lanes)
    decreases |moves|
  {
    if moves != [] {
      LanesAreTheCallers(c, Step(c, s, moves[0]), moves[1..], i);
    }
  }

  /** With the short lock free, the count is the sum, over the waves inside, of the
      lanes they called with; the owner is their common group, and there is none iff
      none is inside. */
  lemma {:induction false} Accounting(c: Config, moves: seq<Move>)
    requires c.shareable
    ensures var s := Exec(c, Init(c), moves);
      forall i :: 0 <= i < |s.waves| ==> s.waves[i].lanes == LatestCall(c, Init(c), moves, i, 0)
    ensures var s := Exec(c, Init(c), moves);
      s.ctxLock == 0 ==>
        && s.count == Sum(LanesInside, s.waves)
        && (forall i :: 0 <= i < |s.waves| && InsideCall(s.waves[i].pc) ==> s.owner == c.group[i])
        && (s.owner == NO_OWNER <==> forall i :: 0 <= i < |s.waves| ==> !InsideCall(s.waves[i].pc))
  {
    InitInv(c);
    ExecInv(c, Init(c), moves);
    var s := Exec(c, Init(c), moves);
    forall i | 0 <= i < |s.waves| ensures s.waves[i].lanes == LatestCall(c, Init(c), moves, i, 0) {
      LanesAreTheCallers(c, Init(c), moves, i);
    }
    if s.ctxLock == 0 {
      forall i | 0 <= i < |s.waves| ensures LanesInside(s.waves[i]) == Share(s.waves[i]) {
        assert !Critical(s.waves[i].pc);
      }
      SameShares(LanesInside, Share, s.waves);
      if s.owner == NO_OWNER {
        forall i | 0 <= i < |s.waves| ensures !InsideCall(s.waves[i].pc) {
          SumAtLeast(Share, s.waves, i);
        }
      } else {
        var i := SumWitness(LanesInside, s.waves);
        assert InsideCall(s.waves[i].pc);
      }
    }
  }

  lemma {:induction false} SameShares(f: Wave -> nat, g: Wave -> nat, ws: seq<Wave>)
    requires forall i :: 0 <= i < |ws| ==> f(ws[i]) == g(ws[i])
    ensures Sum(f, ws) == Sum(g, ws)
  {
    if ws != [] {
      forall i | 0 <= i < |ws[1..]| ensures f(ws[1..][i]) == g(ws[1..][i]) {
        assert f(ws[i + 1]) == g(ws[i + 1]);
      }
      SameShares(f, g, ws[1..]);
    }
  }

  /** The count never leaves 0..1024, at any step of any run. */
  lemma {:induction false} CountInRange(c: Config, moves: seq<Move>)
    requires c.shareable && FitsHardware(c)
    ensures 0 <= Exec(c, Init(c), moves).count <= 1024
  {
    InitInv(c);
    ExecInv(c, Init(c), moves);
    var s := Exec(c, Init(c), moves);
    if s.count > 0 {
      var k := SumWitness(Share, s.waves);
      var g := c.group[k];
      forall i | 0 <= i < |s.waves| ensures Share(s.waves[i]) <= WF_SIZE * One()(g)(c.group[i]) {
      }
      SumDominated(Share, s.waves, One()(g), c.group, WF_SIZE);
    }
  }

  // ----- refinement of an abstract group lock -----

  /** The specification: a set of waves that all belong to one work-group. */
  datatype Abstract = Abstract(owner: int, members: set<nat>)

  datatype Label = Enter(wave: nat) | Exit(wave: nat) | Stutter

  predicate Allowed(c: Config, a: Abstract, l: Label) {
    match l
    case Enter(w) => w < |c.group| && w !in a.members && a.owner in {NO_OWNER, c.group[w] as int}
    case Exit(w) => w in a.members
    case Stutter => true
  }

  function Do(c: Config, a: Abstract, l: Label): Abstract
    requires Allowed(c, a, l)
  {
    match l
    case Enter(w) => Abstract(c.group[w], a.members + {w})
    case Exit(w) =>
      var rest := a.members - {w};
      Abstract(if rest == {} then NO_OWNER else a.owner, rest)
    case Stutter => a
  }

  function Members(s: State): set<nat> {
    set i: nat | i < |s.waves| && Counted(s.waves[i].pc)
  }

  function Abs(s: State): Abstract {
    Abstract(if Members(s) == {} then NO_OWNER else s.owner, Members(s))
  }

  /** The store to the count is where a wave enters or leaves. */
  function LabelOf(s: State, m: Move): Label {
    if m.wave >= |s.waves| then Stutter
    else if s.waves[m.wave].pc == WriteIn then Enter(m.wave)
    else if s.waves[m.wave].pc == WriteOut then Exit(m.wave)
    else Stutter
  }

  lemma StepMembers(c: Config, s: State, m: Move)
    requires c.shareable && |s.waves| == |c.group|
    ensures var t, l := Step(c, s, m), LabelOf(s, m);
      Members(t) == match l
        case Enter(w) => Members(s) + {w}
        case Exit(w) => Members(s) - {w}
        case Stutter => Members(s)
  {
    if m.wave < |s.waves| {
      var t := Step(c, s, m);
      assert t.waves == s.waves[m.wave := t.waves[m.wave]];
      assert forall j: nat :: j != m.wave ==> (j in Members(t) <==> j in Members(s));
      assert m.wave in Members(t) <==> Counted(t.waves[m.wave].pc);
      assert m.wave in Members(s) <==> Counted(s.waves[m.wave].pc);
    }
  }

  /** One concrete step is one abstract step, or none. */
  lemma StepRefines(c: Config, s: State, m: Move)
    requires c.shareable && Inv(c, s)
    ensures Allowed(c, Abs(s), LabelOf(s, m))
    ensures Abs(Step(c, s, m)) == Do(c, Abs(s), LabelOf(s, m))
  {
    StepMembers(c, s, m);
    if m.wave < |s.waves| {
      var t := Step(c, s, m);
      assert Critical(s.waves[m.wave].pc) ==> HolderKnows(c, s, m.wave);
      if Members(t) != {} && LabelOf(s, m).Stutter? {
        var j :| j in Members(s);
        SumAtLeast(Share, s.waves, j);
      }
    }
  }

  function Labels(c: Config, s: State, moves: seq<Move>): seq<Label>
    requires |s.waves| == |c.group|
    decreases |moves|
  {
    if moves == [] then [] else [LabelOf(s, moves[0])] + Labels(c, Step(c, s, moves[0]), moves[1..])
  }

  /** The labels are a legal behaviour of the abstract lock from a to b. */
  predicate AbstractRun(c: Config, a: Abstract, labels: seq<Label>, b: Abstract)
    decreases |labels|
  {
    if labels == [] then a == b
    else Allowed(c, a, labels[0]) && AbstractRun(c, Do(c, a, labels[0]), labels[1..], b)
  }

  /** Every run of any number of waves is a run of the abstract group lock. */
  lemma {:induction false} RunRefines(c: Config, s: State, moves: seq<Move>)
    requires c.shareable && Inv(c, s)
    ensures AbstractRun(c, Abs(s), Labels(c, s, moves), Abs(Exec(c, s, moves)))
    decreases |moves|
  {
    if moves != [] {
      var s1 := Step(c, s, moves[0]);
      StepInv(c, s, moves[0]);
      StepRefines(c, s, moves[0]);
      RunRefines(c, s1, moves[1..]);
      var ls := Labels(c, s, moves);
      assert ls[0] == LabelOf(s, moves[0]) && ls[1..] == Labels(c, s1, moves[1..]);
    }
  }

  lemma {:induction false} RunsFromStartRefine(c: Config, moves: seq<Move>)
    requires c.shareable
    ensures AbstractRun(c, Abstract(NO_OWNER, {}), Labels(c, Init(c), moves), Abs(Exec(c, Init(c), moves)))
    ensures var s := Exec(c, Init(c), moves);
      forall i: nat :: i < |s.waves| ==>
        && (s.waves[i].pc == Inside ==> i in Abs(s).members)
        && (s.waves[i].pc == Outside ==> i !in Abs(s).members)
  {
    InitInv(c);
    assert Abs(Init(c)) == Abstract(NO_OWNER, {});
    RunRefines(c, Init(c), moves);
  }

  // ----- no dead ends -----

  function Alone(i: nat, n: nat): seq<Move> {
    seq(n, _ => Move(i, 1))
  }

  /** Steps the holder of the short lock needs, on its own, to release it. */
  function StepsToRelease(c: Config, s: State, i: nat): nat
    requires i < |s.waves| == |c.group|
  {
    match s.waves[i].pc
    case TestOwner => if s.owner == c.group[i] then 4 else if s.owner == NO_OWNER then 7 else 3
    case TestFree => if s.owner == NO_OWNER then 6 else 2
    case TakeOwner => 5
    case ReadIn => 3
    case WriteIn => 2
    case ReleaseIn => 1
    case DropLock => 1
    case ReadOut => 4 + (if s.count == s.waves[i].lanes then 1 else 0)
    case WriteOut => 3 + (if s.count == s.waves[i].lanes then 1 else 0)
    case TestLast => if s.count == 0 then 3 else 2
    case ClearOwner => 2
    case ReleaseOut => 1
    case _ => 0
  }

  /** Where the holder ends up: through, out, or waiting for the other group. */
  function Landing(c: Config, s: State, i: nat): Pc
    requires i < |s.waves| == |c.group|
  {
    match s.waves[i].pc
    case TestOwner => if s.owner in {NO_OWNER, c.group[i] as int} then Inside else Reacquire
    case TestFree => if s.owner == NO_OWNER then Inside else Reacquire
    case DropLock => Reacquire
    case TakeOwner => Inside
    case ReadIn => Inside
    case WriteIn => Inside
    case ReleaseIn => Inside
    case _ => Outside
  }

  /** What the count is when the holder has released the short lock. */
  function CountAfter(c: Config, s: State, i: nat): int
    requires i < |s.waves| == |c.group|
  {
    var w := s.waves[i];
    if w.pc in {ReadOut, WriteOut} then s.count - w.lanes
    else if Landing(c, s, i) == Inside && w.pc != ReleaseIn then s.count + w.lanes
    else s.count
  }

  ghost predicate OnlyMoved(s: State, t: State, i: nat)
    requires i < |s.waves|
  {
    |t.waves| == |s.waves| && t.waves == s.waves[i := t.waves[i]]
  }

  lemma {:induction false} AloneFirst(c: Config, s: State, i: nat, n: nat)
    requires |s.waves| == |c.group|
    ensures Exec(c, s, Alone(i, n + 1)) == Exec(c, Step(c, s, Move(i, 1)), Alone(i, n))
  {
    assert Alone(i, n + 1)[1..] == Alone(i, n);
  }

  lemma HolderStep(c: Config, s: State, i: nat)
    requires c.shareable && Inv(c, s) && i < |s.waves| && Critical(s.waves[i].pc)
    ensures var t := Step(c, s, Move(i, 1));
      && OnlyMoved(s, t, i) && t.waves[i].lanes == s.waves[i].lanes
      && (if Critical(t.waves[i].pc)
          then && StepsToRelease(c, t, i) + 1 == StepsToRelease(c, s, i) && Landing(c, t, i) == Landing(c, s, i)
               && CountAfter(c, t, i) == CountAfter(c, s, i)
          else && StepsToRelease(c, s, i) == 1 && t.waves[i].pc == Landing(c, s, i) && t.ctxLock == 0
               && t.count == CountAfter(c, s, i))
  {
    assert HolderKnows(c, s, i);
  }

  /** Whoever holds the short lock can release it in at most seven own steps; where it
      then is, and what it has added to the count or taken off. */
  lemma {:induction false} ReleaseAlone(c: Config, s: State, i: nat)
    requires c.shareable && Inv(c, s) && i < |s.waves| && Critical(s.waves[i].pc)
    ensures var t := Exec(c, s, Alone(i, StepsToRelease(c, s, i)));
      && Inv(c, t) && OnlyMoved(s, t, i) && t.ctxLock == 0 && t.waves[i].pc == Landing(c, s, i)
      && t.waves[i].lanes == s.waves[i].lanes && t.count == CountAfter(c, s, i)
    decreases StepsToRelease(c, s, i)
  {
    var t := Step(c, s, Move(i, 1));
    StepInv(c, s, Move(i, 1));
    HolderStep(c, s, i);
    AloneFirst(c, s, i, StepsToRelease(c, s, i) - 1);
    if Critical(t.waves[i].pc) {
      ReleaseAlone(c, t, i);
    } else {
      assert Alone(i, 0) == [];
    }
  }

  /** A wave whose group owns the context enters in five own steps after it gets
      the short lock, and is never sent to the waiting loop. */
  lemma {:induction false} OwnerGroupEnters(c: Config, s: State, i: nat)
    requires c.shareable && Inv(c, s) && i < |s.waves|
    requires s.ctxLock == 0 && s.waves[i].pc in {Acquire, Reacquire} && s.owner == c.group[i]
    ensures var t := Exec(c, s, Alone(i, 5));
      t.waves[i].pc == Inside && t.ctxLock == 0 && t.owner == s.owner && Inv(c, t)
    ensures forall n :: 0 <= n <= 5 ==> Exec(c, s, Alone(i, n)).waves[i].pc !in {TestFree, DropLock}
  {
    var s1 := Step(c, s, Move(i, 1));
    StepInv(c, s, Move(i, 1));
    AloneFirst(c, s, i, 4);
    ReleaseAlone(c, s1, i);
    var t := Exec(c, s, Alone(i, 5));
    assert Counted(t.waves[i].pc);
    forall n | 0 <= n <= 5 ensures Exec(c, s, Alone(i, n)).waves[i].pc !in {TestFree, DropLock} {
      if n > 0 {
        AloneFirst(c, s, i, n - 1);
        OwnerNeverWaits(c, s1, i, n - 1);
      } else {
        assert Alone(i, 0) == [];
      }
    }
  }

  lemma {:induction false} OwnerNeverWaits(c: Config, s: State, i: nat, n: nat)
    requires i < |s.waves| == |c.group| && c.shareable && s.owner == c.group[i]
    requires s.waves[i].pc in {TestOwner, ReadIn, WriteIn, ReleaseIn, Inside}
    requires n <= match s.waves[i].pc
      case TestOwner => 4 case ReadIn => 3 case WriteIn => 2 case ReleaseIn => 1 case _ => 0
    ensures Exec(c, s, Alone(i, n)).waves[i].pc !in {TestFree, DropLock}
    decreases n
  {
    if n > 0 {
      AloneFirst(c, s, i, n - 1);
      OwnerNeverWaits(c, Step(c, s, Move(i, 1)), i, n - 1);
    } else {
      assert Alone(i, 0) == [];
    }
  }

  ghost predicate OwnMoves(moves: seq<Move>, i: nat) {
    forall n :: 0 <= n < |moves| ==> moves[n].wave == i
  }

  /** A wave that is not blocked by another group finishes its call on its own. */
  lemma LeaveAlone(c: Config, s: State, i: nat) returns (moves: seq<Move>)
    requires c.shareable && Inv(c, s) && i < |s.waves| && s.ctxLock == 0
    requires s.waves[i].pc in {Inside, AcquireOut}
    ensures OwnMoves(moves, i)
    ensures var t := Exec(c, s, moves);
      && Inv(c, t) && OnlyMoved(s, t, i) && t.ctxLock == 0 && t.waves[i].pc == Outside
      && t.count == s.count - s.waves[i].lanes
    decreases s.waves[i].pc == Inside
  {
    var s1 := Step(c, s, Move(i, 1));
    StepInv(c, s, Move(i, 1));
    if s.waves[i].pc == AcquireOut {
      moves := Alone(i, 1 + StepsToRelease(c, s1, i));
      AloneFirst(c, s, i, StepsToRelease(c, s1, i));
      ReleaseAlone(c, s1, i);
    } else {
      var rest := LeaveAlone(c, s1, i);
      moves := [Move(i, 1)] + rest;
      assert moves[1..] == rest;
    }
  }

  lemma EnterAlone(c: Config, s: State, i: nat) returns (moves: seq<Move>)
    requires c.shareable && Inv(c, s) && i < |s.waves| && s.ctxLock == 0
    requires s.waves[i].pc in {Acquire, Reacquire} && s.owner in {NO_OWNER, c.group[i] as int}
    ensures OwnMoves(moves, i)
    ensures var t := Exec(c, s, moves);
      && Inv(c, t) && OnlyMoved(s, t, i) && t.ctxLock == 0 && t.waves[i].pc == Inside
      && t.waves[i].lanes == s.waves[i].lanes && t.count == s.count + s.waves[i].lanes
  {
    var s1 := Step(c, s, Move(i, 1));
    StepInv(c, s, Move(i, 1));
    moves := Alone(i, 1 + StepsToRelease(c, s1, i));
    AloneFirst(c, s, i, StepsToRelease(c, s1, i));
    ReleaseAlone(c, s1, i);
  }

  /** `lock` by a wave with k active lanes, with nobody else moving: it gets through
      and the count grows by k; a following `unlock` takes exactly k off, and the
      shared fields are as they were. */
  lemma CallCountsItsLanes(c: Config, s: State, i: nat, k: nat) returns (enter: seq<Move>, leave: seq<Move>)
    requires c.shareable && Inv(c, s) && i < |s.waves| && s.ctxLock == 0 && s.waves[i].pc == Outside
    requires 1 <= k <= 64 && s.owner in {NO_OWNER, c.group[i] as int}
    ensures enter != [] && enter[0] == Move(i, k) && OwnMoves(enter, i) && OwnMoves(leave, i)
    ensures var t := Exec(c, s, enter);
      && OnlyMoved(s, t, i) && t.waves[i].pc == Inside && t.ctxLock == 0
      && t.count == s.count + k && t.owner == c.group[i]
    ensures var u := Exec(c, Exec(c, s, enter), leave);
      && OnlyMoved(s, u, i) && u.waves[i].pc == Outside
      && (u.ctxLock, u.owner, u.count) == (s.ctxLock, s.owner, s.count)
  {
    var first := Move(i, k);
    var s1 := Step(c, s, first);
    StepInv(c, s, first);
    var rest := EnterAlone(c, s1, i);
    enter := [first] + rest;
    assert enter[1..] == rest;
    var t := Exec(c, s, enter);
    leave := LeaveAlone(c, t, i);
    SameOwner(c, s, Exec(c, t, leave), i);
  }

  /** With equal counts and one wave outside in both, the owner is the same. */
  lemma SameOwner(c: Config, s: State, u: State, i: nat)
    requires Inv(c, s) && Inv(c, u) && s.ctxLock == u.ctxLock == 0 && s.count == u.count
    requires i < |s.waves| && OnlyMoved(s, u, i) && s.waves[i].pc == u.waves[i].pc == Outside
    ensures s.owner == u.owner
  {
    if s.count != 0 {
      var j := SumWitness(Share, s.waves);
      assert j != i && u.waves[j] == s.waves[j];
    }
  }

  function Busy(w: Wave): nat {
    if w.pc == Outside then 0 else 1
  }

  /** Some wave other than a waiting one can move, so one call can be completed. */
  lemma FinishOne(c: Config, s: State) returns (i: nat, moves: seq<Move>)
    requires c.shareable && Inv(c, s) && s.ctxLock == 0 && Sum(Busy, s.waves) > 0
    ensures i < |s.waves| && s.waves[i].pc != Outside
    ensures var t := Exec(c, s, moves);
      Inv(c, t) && OnlyMoved(s, t, i) && t.ctxLock == 0 && t.waves[i].pc == Outside
  {
    if s.count > 0 {
      i := SumWitness(Share, s.waves);
      moves := LeaveAlone(c, s, i);
    } else {
      i := SumWitness(Busy, s.waves);
      SumAtLeast(Share, s.waves, i);
      var enter := EnterAlone(c, s, i);
      var leave := LeaveAlone(c, Exec(c, s, enter), i);
      ExecConcat(c, s, enter, leave);
      moves := enter + leave;
    }
  }

  /** Deadlock freedom: from every reachable state the waves that are in a call
      can all finish, and the lock is then as it was initially. */
  lemma {:induction false} Drain(c: Config, s: State) returns (moves: seq<Move>)
    requires c.shareable && Inv(c, s)
    ensures var t := Exec(c, s, moves);
      && (forall i :: 0 <= i < |t.waves| ==> t.waves[i].pc == Outside)
      && t.ctxLock == 0 && t.owner == NO_OWNER && t.count == 0
    decreases Sum(Busy, s.waves), s.ctxLock
  {
    if s.ctxLock == 1 {
      var h :| 0 <= h < |s.waves| && HoldsAlone(s, h);
      var release := Alone(h, StepsToRelease(c, s, h));
      ReleaseAlone(c, s, h);
      var t := Exec(c, s, release);
      SumUpdate(Busy, s.waves, h, t.waves[h]);
      var rest := Drain(c, t);
      ExecConcat(c, s, release, rest);
      moves := release + rest;
    } else if Sum(Busy, s.waves) > 0 {
      var i, first := FinishOne(c, s);
      var t := Exec(c, s, first);
      SumUpdate(Busy, s.waves, i, t.waves[i]);
      var rest := Drain(c, t);
      ExecConcat(c, s, first, rest);
      moves := first + rest;
    } else {
      moves := [];
      forall i | 0 <= i < |s.waves| ensures s.waves[i].pc == Outside {
        SumAtLeast(Busy, s.waves, i);
      }
      if s.count > 0 {
        var i := SumWitness(Share, s.waves);
      }
    }
  }

  /** The same, said of runs: no finite run is a dead end. */
  lemma NoDeadEnd(c: Config, moves: seq<Move>) returns (more: seq<Move>)
    requires c.shareable
    ensures var t := Exec(c, Init(c), moves + more);
      && (forall i :: 0 <= i < |t.waves| ==> t.waves[i].pc == Outside)
      && t.ctxLock == 0 && t.owner == NO_OWNER && t.count == 0
  {
    InitInv(c);
    ExecInv(c, Init(c), moves);
    more := Drain(c, Exec(c, Init(c), moves));
    ExecConcat(c, Init(c), moves, more);
  }
}
