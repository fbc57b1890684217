/**
 Barriers make progress: on calls that agree some move has an effect until
 everybody has left every barrier, and on any calls a run has boundedly many moves
 with an effect.
 */
module BarrierProgress {
  import opened Arith
  import opened Sums
  import opened SyncBarrier
  import opened BarrierInvariant

  // ----- deadlock freedom -----

  ghost predicate InFlight(s: State, p: int, i: int) {
    0 <= p < |s.puts| && 0 <= i < |s.puts[p]| && s.puts[p][i] > 0
  }

  ghost predicate AddInFlight(s: State, p: int) {
    0 <= p < |s.adds| && s.adds[p] > 0
  }

  ghost predicate NothingInFlight(s: State) {
    (forall p, i :: !InFlight(s, p, i)) && forall p :: !AddInFlight(s, p)
  }

  lemma {:induction false} Hindmost(pes: seq<Local>) returns (p: nat)
    requires pes != []
    ensures p < |pes| && forall q :: 0 <= q < |pes| ==> pes[p].at <= pes[q].at
  {
    p := 0;
    if |pes| > 1 {
      var r := Hindmost(pes[1..]);
      if pes[r + 1].at < pes[0].at {
        p := r + 1;
      }
      forall q | 0 <= q < |pes| ensures pes[p].at <= pes[q].at {
        assert q > 0 ==> pes[q] == pes[1..][q - 1];
      }
    }
  }

  lemma OwnChange(c: Config, s: State, m: Move, p: nat)
    requires Shape(c, s) && p < c.n && Step(c, s, m).pes[p] != s.pes[p]
    ensures Step(c, s, m) != s
  {
  }

  /** The root of a direct call that everybody has reached. */
  lemma DirectRootMove(c: Config, s: State, r: nat) returns (m: Move)
    requires Inv(c, s) && r < c.n && s.pes[r].phase == Collect && !Atomic(c.calls[s.pes[r].at])
    requires (forall q :: 0 <= q < c.n ==> s.pes[r].at <= s.pes[q].at) && NothingInFlight(s)
    ensures Step(c, s, m) != s
  {
    var l := s.pes[r];
    m := Run(r);
    if l.next < |c.calls[l.at]| && s.words[r][l.next] != 1 {
      var q := c.calls[l.at][l.next];
      assert PairOk(c, s, l.at, l.next) && !InFlight(s, r, l.next);
      m := Enter(q);
      OwnChange(c, s, m, q);
    } else {
      OwnChange(c, s, m, r);
    }
  }

  /** While the count is short, some member has yet to enter. */
  lemma SomeoneMissing(c: Config, s: State, r: nat) returns (p: nat)
    requires Inv(c, s) && r < c.n && s.pes[r].phase == Collect && Atomic(c.calls[s.pes[r].at])
    requires (forall q :: 0 <= q < c.n ==> s.pes[r].at <= s.pes[q].at) && s.adds[r] == 0
    requires s.words[r][0] != |c.calls[s.pes[r].at]| - 1
    ensures p in c.calls[s.pes[r].at] && p < c.n && s.pes[p].at == s.pes[r].at && s.pes[p].phase == Idle
  {
    var g := s.pes[r].at;
    var a := c.calls[g];
    assert CountOk(c, s, g);
    OwingAll(c, s, a, |a|);
    var i :| 1 <= i < |a| && !Owes(c, s, a[i], a[0]);
    assert PairOk(c, s, g, i) && LocalOk(c, a[i], s.pes[a[i]]);
    p := a[i];
  }

  /** The root of an atomic call that everybody has reached. */
  lemma AtomicRootMove(c: Config, s: State, r: nat) returns (m: Move)
    requires Inv(c, s) && r < c.n && s.pes[r].phase == Collect && Atomic(c.calls[s.pes[r].at])
    requires (forall q :: 0 <= q < c.n ==> s.pes[r].at <= s.pes[q].at) && NothingInFlight(s)
    ensures Step(c, s, m) != s
  {
    assert !AddInFlight(s, r);
    if s.words[r][0] == |c.calls[s.pes[r].at]| - 1 {
      m := Run(r);
      OwnChange(c, s, m, r);
    } else {
      var p := SomeoneMissing(c, s, r);
      m := Enter(p);
      OwnChange(c, s, m, p);
    }
  }

  lemma RootMove(c: Config, s: State, r: nat) returns (m: Move)
    requires Inv(c, s) && r < c.n && s.pes[r].phase in {Collect, Release}
    requires (forall q :: 0 <= q < c.n ==> s.pes[r].at <= s.pes[q].at) && NothingInFlight(s)
    ensures Step(c, s, m) != s
  {
    if s.pes[r].phase == Release {
      m := Run(r);
      OwnChange(c, s, m, r);
    } else if Atomic(c.calls[s.pes[r].at]) {
      m := AtomicRootMove(c, s, r);
    } else {
      m := DirectRootMove(c, s, r);
    }
  }

  /** A waiting member of a call that everybody has reached. */
  lemma LeafMove(c: Config, s: State, p: nat) returns (m: Move)
    requires Inv(c, s) && p < c.n && s.pes[p].phase == Waiting
    requires (forall q :: 0 <= q < c.n ==> s.pes[p].at <= s.pes[q].at) && NothingInFlight(s)
    ensures Step(c, s, m) != s
  {
    var g := s.pes[p].at;
    var r := c.calls[g][0];
    assert PairOk(c, s, g, SlotOf(c.calls[g], p)) && !InFlight(s, p, 0);
    if s.pes[r].at > g {
      m := Run(p);
      OwnChange(c, s, m, p);
    } else if s.pes[r].phase == Idle {
      m := Enter(r);
      OwnChange(c, s, m, r);
    } else {
      m := RootMove(c, s, r);
    }
  }

  /** While some PE has calls left, some move has an effect. */
  lemma NeverStuck(c: Config, s: State) returns (m: Move)
    requires Inv(c, s) && !AllLeft(c, s)
    ensures Step(c, s, m) != s
  {
    if p, i :| InFlight(s, p, i) {
      m := DeliverPut(p, i);
      assert Step(c, s, m).puts[p][i] != s.puts[p][i];
    } else if p :| AddInFlight(s, p) {
      m := DeliverAdd(p);
      assert Step(c, s, m).adds[p] != s.adds[p];
    } else {
      var q :| 0 <= q < c.n && s.pes[q].at != |c.calls|;
      assert LocalOk(c, q, s.pes[q]);
      var p := Hindmost(s.pes);
      match s.pes[p].phase {
        case Idle =>
          m := Enter(p);
          OwnChange(c, s, m, p);
        case Waiting => m := LeafMove(c, s, p);
        case _ => m := RootMove(c, s, p);
      }
    }
  }

  // ----- termination, for any calls -----

  /** More than a PE can do in one call. */
  function CallCost(c: Config): nat {
    3 * c.n + 1
  }

  function LocalRank(c: Config, l: Local): nat {
    match l.phase
    case Idle => 0
    case Waiting => 2
    case Collect => l.next
    case Release => c.n + 2 * l.next
  }

  function Rank(c: Config): Local -> nat {
    (l: Local) => CallCost(c) * l.at + LocalRank(c, l)
  }

  function Count(): nat -> nat {
    (k: nat) => k
  }

  function RowSum(): seq<nat> -> nat {
    (row: seq<nat>) => Sum(Count(), row)
  }

  /** How far all PEs have come, less what is still under way. */
  function Progress(c: Config, s: State): int {
    Sum(Rank(c), s.pes) - Sum(RowSum(), s.puts) - Sum(Count(), s.adds)
  }

  lemma {:induction false} StoreSum(rows: seq<seq<nat>>, p: nat, i: nat, v: nat)
    requires p < |rows| && i < |rows[p]|
    ensures Sum(RowSum(), Store(rows, p, i, v)) + rows[p][i] == Sum(RowSum(), rows) + v
  {
    var row: seq<nat> := rows[p][i := v];
    SumUpdate(Count(), rows[p], i, v);
    SumUpdate(RowSum(), rows, p, row);
  }

  lemma NextCall(c: Config, l: Local)
    ensures Rank(c)(Local(l.at + 1, Idle, 0)) == CallCost(c) * l.at + CallCost(c)
    ensures Rank(c)(l.(at := l.at + 1)) == Rank(c)(l) + CallCost(c)
  {
    Distribute(CallCost(c), l.at, 1);
  }

  lemma LocalRankBelow(c: Config, p: nat, l: Local)
    requires CallsOk(c) && p < c.n && LocalOk(c, p, l)
    ensures LocalRank(c, l) < CallCost(c)
  {
  }

  lemma JoinProgress(c: Config, s: State, p: nat)
    requires Shape(c, s) && p < c.n && AboutToJoin(c, s, p)
    ensures Progress(c, EnterStep(c, s, p)) > Progress(c, s)
  {
    var t, l := EnterStep(c, s, p), s.pes[p];
    var r := c.calls[l.at];
    var i := SlotOf(r, p);
    SumUpdate(Rank(c), s.pes, p, t.pes[p]);
    if Atomic(r) {
      SumUpdate(Count(), s.adds, r[0], s.adds[r[0]] + 1);
    } else {
      StoreSum(s.puts, r[0], i, s.puts[r[0]][i] + 1);
    }
  }

  lemma EnterProgress(c: Config, s: State, p: nat)
    requires Shape(c, s) && p < c.n && EnterStep(c, s, p) != s
    ensures Progress(c, EnterStep(c, s, p)) > Progress(c, s)
  {
    if AboutToJoin(c, s, p) {
      JoinProgress(c, s, p);
    } else {
      NextCall(c, s.pes[p]);
      SumUpdate(Rank(c), s.pes, p, EnterStep(c, s, p).pes[p]);
    }
  }

  lemma CollectProgress(c: Config, s: State, p: nat)
    requires Shape(c, s) && p < c.n && s.pes[p].phase == Collect && CollectStep(c, s, p) != s
    ensures Progress(c, CollectStep(c, s, p)) > Progress(c, s)
  {
    SumUpdate(Rank(c), s.pes, p, CollectStep(c, s, p).pes[p]);
  }

  lemma ReleaseProgress(c: Config, s: State, p: nat)
    requires Shape(c, s) && p < c.n && s.pes[p].phase == Release
    ensures Progress(c, ReleaseStep(c, s, p)) > Progress(c, s)
  {
    var l := s.pes[p];
    NextCall(c, l);
    LocalRankBelow(c, p, l);
    SumUpdate(Rank(c), s.pes, p, ReleaseStep(c, s, p).pes[p]);
    if l.next < |c.calls[l.at]| {
      var q := c.calls[l.at][l.next];
      StoreSum(s.puts, q, 0, s.puts[q][0] + 1);
    }
  }

  lemma LeaveProgress(c: Config, s: State, p: nat)
    requires Shape(c, s) && p < c.n && s.pes[p].phase == Waiting && RunStep(c, s, p) != s
    ensures Progress(c, RunStep(c, s, p)) > Progress(c, s)
  {
    NextCall(c, s.pes[p]);
    LocalRankBelow(c, p, s.pes[p]);
    SumUpdate(Rank(c), s.pes, p, RunStep(c, s, p).pes[p]);
  }

  lemma StepProgress(c: Config, s: State, m: Move)
    requires Shape(c, s)
    ensures Progress(c, Step(c, s, m)) >= Progress(c, s) + if Step(c, s, m) == s then 0 else 1
  {
    if Step(c, s, m) != s {
      match m
      case Enter(p) => EnterProgress(c, s, p);
      case Run(p) =>
        if s.pes[p].phase == Collect {
          CollectProgress(c, s, p);
        } else if s.pes[p].phase == Release {
          ReleaseProgress(c, s, p);
        } else {
          LeaveProgress(c, s, p);
        }
      case DeliverPut(p, i) => StoreSum(s.puts, p, i, s.puts[p][i] - 1);
      case DeliverAdd(p) => SumUpdate(Count(), s.adds, p, s.adds[p] - 1);
    }
  }

  function Effective(c: Config, s: State, moves: seq<Move>): nat
    requires Shape(c, s)
    decreases |moves|
  {
    if moves == [] then 0
    else (if Step(c, s, moves[0]) == s then 0 else 1) + Effective(c, Step(c, s, moves[0]), moves[1..])
  }

  lemma {:induction false} EffectiveIsProgress(c: Config, s: State, moves: seq<Move>)
    requires Shape(c, s)
    ensures Progress(c, s) + Effective(c, s, moves) <= Progress(c, Exec(c, s, moves))
    decreases |moves|
  {
    if moves != [] {
      StepProgress(c, s, moves[0]);
      EffectiveIsProgress(c, Step(c, s, moves[0]), moves[1..]);
    }
  }

  lemma RankBounded(c: Config, p: nat, l: Local)
    requires CallsOk(c) && p < c.n && LocalOk(c, p, l)
    ensures Rank(c)(l) <= CallCost(c) * |c.calls|
  {
    LocalRankBelow(c, p, l);
    if l.at < |c.calls| {
      MulStep(CallCost(c), l.at, |c.calls|);
    }
  }

  function Limit(c: Config): nat {
    CallCost(c) * |c.calls| * c.n
  }

  lemma ProgressBounded(c: Config, s: State)
    requires Shape(c, s)
    ensures Progress(c, s) <= Limit(c)
  {
    forall p | 0 <= p < c.n ensures Rank(c)(s.pes[p]) <= CallCost(c) * |c.calls| {
      RankBounded(c, p, s.pes[p]);
    }
    SumBounded(Rank(c), s.pes, CallCost(c) * |c.calls|);
  }

  lemma StartProgress(c: Config)
    requires CallsOk(c)
    ensures Progress(c, Start(c)) >= 0
  {
    var s := Start(c);
    forall p | 0 <= p < c.n ensures RowSum()(s.puts[p]) == 0 {
      SumConstant(Count(), s.puts[p], 0);
    }
    SumConstant(RowSum(), s.puts, 0);
    SumConstant(Count(), s.adds, 0);
  }

  lemma {:induction false} EffectiveBounded(c: Config, moves: seq<Move>)
    requires CallsOk(c)
    ensures Effective(c, Start(c), moves) <= Limit(c)
  {
    StartProgress(c);
    EffectiveIsProgress(c, Start(c), moves);
    ProgressBounded(c, Exec(c, Start(c), moves));
  }

  /** Every state can be run until nothing is left to do. */
  lemma {:induction false} RunsOut(c: Config, s: State) returns (moves: seq<Move>)
    requires Shape(c, s)
    ensures Stuck(c, Exec(c, s, moves))
    decreases Limit(c) - Progress(c, s)
  {
    if m :| Step(c, s, m) != s {
      StepProgress(c, s, m);
      ProgressBounded(c, Step(c, s, m));
      var rest := RunsOut(c, Step(c, s, m));
      moves := [m] + rest;
      assert moves[1..] == rest;
    } else {
      moves := [];
    }
  }

  /** Total correctness: a run has boundedly many moves with an effect, and when
      none is left every PE has left every barrier of its program. */
  lemma {:induction false} EveryRunFinishes(c: Config, moves: seq<Move>)
    requires CallsOk(c) && AllAgree(c)
    ensures Effective(c, Start(c), moves) <= Limit(c)
    ensures Stuck(c, Exec(c, Start(c), moves)) ==> AllLeft(c, Exec(c, Start(c), moves))
  {
    EffectiveBounded(c, moves);
    StartInv(c);
    ExecInv(c, Start(c), moves);
    var s := Exec(c, Start(c), moves);
    if Stuck(c, s) && !AllLeft(c, s) {
      var m := NeverStuck(c, s);
      assert false;
    }
  }
}
