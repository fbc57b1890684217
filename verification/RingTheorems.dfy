/**
 What the ring reduction delivers: the reference fold, and termination of every
 interleaving.
 */
module RingTheorems {
  import opened Sums
  import opened RingReduce
  import opened RingInvariant

  // ----- the ring order against the reference order -----

  /** Reference: the contributions of PEs 0, 1, ..., in that order. */
  function Fold<T>(op: (T, T) -> T, xs: seq<T>): T
    requires xs != []
  {
    var last := |xs| - 1;
    if last == 0 then xs[0] else op(xs[last], Fold(op, xs[..last]))
  }

  ghost predicate Associative<T(!new)>(op: (T, T) -> T) {
    forall a, b, c :: op(a, op(b, c)) == op(op(a, b), c)
  }

  ghost predicate Commutative<T(!new)>(op: (T, T) -> T) {
    forall a, b :: op(a, b) == op(b, a)
  }

  lemma {:induction false} FoldConcat<T(!new)>(op: (T, T) -> T, xs: seq<T>, ys: seq<T>)
    requires Associative(op) && xs != [] && ys != []
    ensures Fold(op, xs + ys) == op(Fold(op, ys), Fold(op, xs))
    decreases |ys|
  {
    var last := |ys| - 1;
    assert (xs + ys)[..|xs + ys| - 1] == xs + ys[..last];
    if last == 0 {
      assert xs + ys[..last] == xs;
    } else {
      FoldConcat(op, xs, ys[..last]);
      var x, y := Fold(op, xs), Fold(op, ys[..last]);
      assert op(ys[last], op(y, x)) == op(op(ys[last], y), x);
    }
  }

  lemma {:induction false} FoldRotate<T(!new)>(op: (T, T) -> T, xs: seq<T>, k: nat)
    requires Associative(op) && Commutative(op) && k < |xs|
    ensures Fold(op, xs[k..] + xs[..k]) == Fold(op, xs)
  {
    assert xs == xs[..k] + xs[k..];
    if k == 0 {
      assert xs[k..] + xs[..k] == xs;
    } else {
      FoldConcat(op, xs[k..], xs[..k]);
      FoldConcat(op, xs[..k], xs[k..]);
    }
  }

  function Contributions<T>(c: Config<T>, s: nat, i: nat): seq<T> {
    seq(c.n, (p: nat) => c.x(p, s, i))
  }

  /** The contributions in the order in which chunk i meets the PEs. */
  function Way<T>(c: Config<T>, s: nat, i: nat, j: nat): seq<T>
    requires i < c.n && j < c.n
  {
    seq(j + 1, (m: nat) requires m <= j => c.x(OnTheWay(c.n, i, m), s, i))
  }

  lemma {:induction false} PartialIsFold<T>(c: Config<T>, s: nat, i: nat, j: nat)
    requires i < c.n && j < c.n
    ensures Partial(c, s, i, j) == Fold(c.op, Way(c, s, i, j))
    decreases j
  {
    if j > 0 {
      PartialIsFold(c, s, i, j - 1);
      assert Way(c, s, i, j)[..j] == Way(c, s, i, j - 1);
    }
  }

  lemma WayIsRotation<T>(c: Config<T>, s: nat, i: nat)
    requires c.n >= 2 && i < c.n
    ensures var xs, k := Contributions(c, s, i), OnTheWay(c.n, i, 0);
      Way(c, s, i, c.n - 1) == xs[k..] + xs[..k]
  {
    var xs, k, way := Contributions(c, s, i), OnTheWay(c.n, i, 0), Way(c, s, i, c.n - 1);
    forall m | 0 <= m < c.n ensures way[m] == (xs[k..] + xs[..k])[m] {
      assert OnTheWay(c.n, i, m) == if k + m < c.n then k + m else k + m - c.n;
    }
  }

  /** For any operation, the result is the fold that starts at PE i - 1. */
  lemma ResultIsRotated<T>(c: Config<T>, s: nat, i: nat)
    requires c.n >= 2 && i < c.n
    ensures var xs, k := Contributions(c, s, i), OnTheWay(c.n, i, 0);
      Result(c, s, i) == Fold(c.op, xs[k..] + xs[..k])
  {
    PartialIsFold(c, s, i, c.n - 1);
    WayIsRotation(c, s, i);
  }

  /** For an associative and commutative operation it is the reference. */
  lemma ResultIsFold<T(!new)>(c: Config<T>, s: nat, i: nat)
    requires c.n >= 2 && i < c.n && Associative(c.op) && Commutative(c.op)
    ensures Result(c, s, i) == Fold(c.op, Contributions(c, s, i))
  {
    ResultIsRotated(c, s, i);
    FoldRotate(c.op, Contributions(c, s, i), OnTheWay(c.n, i, 0));
  }

  /** The collective's promise, in every interleaving. */
  lemma {:induction false} ReturnsReduction<T(!new)>(c: Config<T>, init: State<T>, moves: seq<Move>,
      p: nat, s: nat, i: nat)
    requires Initial(c, init) && p < c.n && s < c.nSeg && i < c.n && Associative(c.op) && Commutative(c.op)
    requires Exec(c, init, moves).pes[p].phase == Finished
    ensures Exec(c, init, moves).pes[p].dst[s][i] == Fold(c.op, Contributions(c, s, i))
  {
    ReturnsResult(c, init, moves, p, s, i);
    ResultIsFold(c, s, i);
  }

  // ----- progress -----

  ghost predicate Running<T>(s: State<T>, p: int) {
    0 <= p < |s.pes| && s.pes[p].phase != Finished
  }

  /** PE p's next own step, when it is not waiting. */
  function OwnMove<T>(c: Config<T>, p: nat, pe: Pe<T>): Move
    requires c.n >= 2
  {
    match pe.phase
    case Outside => Begin(p)
    case Ready => if pe.done < Total(c) then Put(p) else Reset(p)
    case Waiting => Wait(p)
    case Arrived => Reduce(p)
    case Finished => Reset(p)
  }

  lemma OwnMoveWorks<T>(c: Config<T>, s: State<T>, p: nat)
    requires Inv(c, s) && p < c.n && s.pes[p].phase in {Outside, Ready, Arrived}
    ensures Step(c, s, OwnMove(c, p, s.pes[p])) != s
  {
    var m := OwnMove(c, p, s.pes[p]);
    assert Step(c, s, m).pes[p] == RunPe(c, p, s.pes[p], m);
  }

  function Transfer<T>(p: nat, l: Link<T>): Move {
    if l.flag < l.data then DeliverFlag(p) else if l.data in l.net then DeliverData(p) else Fetch(p, l.data)
  }

  lemma TransferWorks<T>(c: Config<T>, s: State<T>, p: nat)
    requires Inv(c, s) && p < c.n && s.links[p].flag < Sent(s.pes[p])
    ensures Step(c, s, Transfer(p, s.links[p])) != s
  {
    assert Step(c, s, Transfer(p, s.links[p])).links[p] != s.links[p];
  }

  lemma {:induction false} Hindmost<T>(pes: seq<Pe<T>>) returns (p: nat)
    requires pes != []
    ensures p < |pes| && forall q :: 0 <= q < |pes| ==> pes[p].done <= pes[q].done
  {
    p := 0;
    if |pes| > 1 {
      var r := Hindmost(pes[1..]);
      if pes[r + 1].done < pes[0].done {
        p := r + 1;
      }
      forall q | 0 <= q < |pes| ensures pes[p].done <= pes[q].done {
        assert q > 0 ==> pes[q] == pes[1..][q - 1];
      }
    }
  }

  /** With all flags delivered, a hindmost waiting PE has the one it waits for. */
  lemma WaitWorks<T>(c: Config<T>, s: State<T>, o: nat, p: nat)
    requires Inv(c, s) && p < c.n && o == Prev(c.n, p) && s.pes[p].phase == Waiting
    requires s.links[o].flag > s.pes[p].done
    ensures Step(c, s, Wait(p)) != s
  {
    assert LinkOk(c, o, s.links[o], s.pes[p]);
    assert Raised(c, s.pes[p], s.pes[p].done);
    assert Step(c, s, Wait(p)).pes[p].phase == Arrived;
  }

  ghost predicate Lagging<T>(s: State<T>, p: int) {
    0 <= p < |s.pes| == |s.links| && s.links[p].flag < Sent(s.pes[p])
  }

  ghost predicate Active<T>(s: State<T>, p: int) {
    0 <= p < |s.pes| && s.pes[p].phase in {Outside, Ready, Arrived}
  }

  /** When every link is quiet and every PE waits or has returned, a hindmost PE
      waits, and its predecessor's flag is there. */
  lemma HindmostWaits<T>(c: Config<T>, s: State<T>, p: nat)
    requires Inv(c, s) && p < c.n && (exists q :: Running(s, q))
    requires forall q :: 0 <= q < c.n ==> s.pes[p].done <= s.pes[q].done
    requires forall q :: !Lagging(s, q) && !Active(s, q)
    ensures s.pes[p].phase == Waiting && s.links[Prev(c.n, p)].flag > s.pes[p].done
  {
    var q :| Running(s, q);
    var o := Prev(c.n, p);
    assert LinkOk(c, o, s.links[o], s.pes[p]);
    assert LinkOk(c, Prev(c.n, o), s.links[Prev(c.n, o)], s.pes[o]);
    assert !Lagging(s, o) && !Active(s, o) && !Active(s, p) && !Active(s, q);
    assert s.pes[p].done <= s.pes[q].done < Total(c);
  }

  lemma AllWait<T>(c: Config<T>, s: State<T>) returns (m: Move)
    requires Inv(c, s) && (exists q :: Running(s, q)) && forall q :: !Lagging(s, q) && !Active(s, q)
    ensures Step(c, s, m) != s
  {
    var p := Hindmost(s.pes);
    HindmostWaits(c, s, p);
    WaitWorks(c, s, Prev(c.n, p), p);
    m := Wait(p);
  }

  /** Deadlock freedom: while some PE has not returned, some move has an effect. */
  lemma NeverStuck<T>(c: Config<T>, s: State<T>) returns (m: Move)
    requires Inv(c, s) && exists p :: Running(s, p)
    ensures Step(c, s, m) != s
  {
    if p :| Lagging(s, p) {
      m := Transfer(p, s.links[p]);
      TransferWorks(c, s, p);
    } else if p :| Active(s, p) {
      m := OwnMove(c, p, s.pes[p]);
      OwnMoveWorks(c, s, p);
    } else {
      m := AllWait(c, s);
    }
  }

  // ----- termination -----

  function PeWork<T>(pe: Pe<T>): nat {
    3 * pe.done + match pe.phase
      case Outside => 0 case Ready => 1 case Waiting => 2 case Arrived => 3 case Finished => 2
  }

  function LinkWork<T>(l: Link<T>): nat {
    l.data + |l.net| + l.data + l.flag
  }

  function WorkOfPe<T>(): Pe<T> -> nat {
    (pe: Pe<T>) => PeWork(pe)
  }

  function WorkOfLink<T>(): Link<T> -> nat {
    (l: Link<T>) => LinkWork(l)
  }

  /** Steps made so far, all PEs and links together. */
  function Work<T>(s: State<T>): nat {
    Sum(WorkOfPe<T>(), s.pes) + Sum(WorkOfLink<T>(), s.links)
  }

  lemma RunWork<T>(c: Config<T>, p: nat, pe: Pe<T>, m: Move)
    requires c.n >= 2 && p < c.n && PeShape(c, pe)
    ensures var r := RunPe(c, p, pe, m); PeWork(r) == PeWork(pe) + if r == pe then 0 else 1
  {
  }

  /** A step of PE p: its work, and everybody else's. */
  lemma OwnWork<T>(c: Config<T>, s: State<T>, p: nat, m: Move)
    requires Shape(c, s) && p < c.n
    ensures var t := s.(pes := s.pes[p := RunPe(c, p, s.pes[p], m)]);
      Work(t) == Work(s) + if t == s then 0 else 1
  {
    var pe := RunPe(c, p, s.pes[p], m);
    RunWork(c, p, s.pes[p], m);
    SumUpdate(WorkOfPe<T>(), s.pes, p, pe);
    assert s.pes[p := pe][p] == pe;
    assert pe == s.pes[p] ==> s.pes[p := pe] == s.pes;
  }

  /** A step of link p, which leaves all rounds and phases alone. */
  lemma OneLinkWork<T>(s: State<T>, p: nat, q: nat, l: Link<T>, pe: Pe<T>)
    requires p < |s.links| && q < |s.pes| && PeWork(pe) == PeWork(s.pes[q]) && LinkWork(l) == LinkWork(s.links[p]) + 1
    ensures Work(State(s.pes[q := pe], s.links[p := l])) == Work(s) + 1
    ensures State(s.pes[q := pe], s.links[p := l]) != s
  {
    SumUpdate(WorkOfPe<T>(), s.pes, q, pe);
    SumUpdate(WorkOfLink<T>(), s.links, p, l);
    assert s.links[p := l][p] == l;
  }

  lemma OneMoreRead<T>(net: map<nat, T>, k: nat, v: T)
    requires k !in net
    ensures |net[k := v]| == |net| + 1
  {
    assert net[k := v].Keys == net.Keys + {k};
  }

  lemma OneLessRead<T>(net: map<nat, T>, k: nat)
    requires k in net
    ensures |net - {k}| == |net| - 1
  {
    assert (net - {k}).Keys == net.Keys - {k};
  }

  lemma TransferWork<T>(c: Config<T>, s: State<T>, m: Move)
    requires Shape(c, s) && m.p < c.n && (m.Fetch? || m.DeliverData? || m.DeliverFlag?)
    ensures Work(Step(c, s, m)) == Work(s) + if Step(c, s, m) == s then 0 else 1
  {
    var t, q := Step(c, s, m), Next(c.n, m.p);
    if t != s {
      var l := s.links[m.p];
      if m.Fetch? {
        OneMoreRead(l.net, m.k, Read(c, m.p, s.pes[m.p], m.k));
      } else if m.DeliverData? {
        OneLessRead(l.net, l.data);
      }
      OneLinkWork(s, m.p, q, t.links[m.p], t.pes[q]);
      assert t.pes == s.pes[q := t.pes[q]] && t.links == s.links[m.p := t.links[m.p]];
    }
  }

  /** Every move that has an effect is one unit of work. */
  lemma StepWork<T>(c: Config<T>, s: State<T>, m: Move)
    requires Shape(c, s)
    ensures Work(Step(c, s, m)) == Work(s) + if Step(c, s, m) == s then 0 else 1
  {
    if m.p < c.n {
      if m.Fetch? || m.DeliverData? || m.DeliverFlag? {
        TransferWork(c, s, m);
      } else {
        OwnWork(c, s, m.p, m);
      }
    }
  }

  ghost function Effective<T>(c: Config<T>, s: State<T>, moves: seq<Move>): nat
    requires Shape(c, s)
    decreases |moves|
  {
    if moves == [] then 0
    else (if Step(c, s, moves[0]) == s then 0 else 1) + Effective(c, Step(c, s, moves[0]), moves[1..])
  }

  lemma {:induction false} EffectiveIsWork<T>(c: Config<T>, s: State<T>, moves: seq<Move>)
    requires Shape(c, s)
    ensures Work(Exec(c, s, moves)) == Work(s) + Effective(c, s, moves)
    decreases |moves|
  {
    if moves != [] {
      StepWork(c, s, moves[0]);
      EffectiveIsWork(c, Step(c, s, moves[0]), moves[1..]);
    }
  }

  lemma {:induction false} RangeSize(keys: set<nat>, lo: nat, hi: nat)
    requires lo <= hi && forall k :: k in keys ==> lo <= k < hi
    ensures |keys| <= hi - lo
    decreases hi
  {
    if lo == hi {
      assert keys == {};
    } else {
      RangeSize(keys - {hi - 1}, lo, hi - 1);
    }
  }

  lemma WorkBounded<T>(c: Config<T>, s: State<T>)
    requires Shape(c, s)
    ensures Work(s) <= (6 * Total(c) + 2) * c.n
  {
    var k := Total(c);
    forall p | 0 <= p < c.n ensures WorkOfPe<T>()(s.pes[p]) <= 3 * k + 2 && WorkOfLink<T>()(s.links[p]) <= 3 * k {
      assert PeShape(c, s.pes[p]);
      RangeSize(s.links[p].net.Keys, s.links[p].data, Sent(s.pes[p]));
    }
    SumBounded(WorkOfPe<T>(), s.pes, 3 * k + 2);
    SumBounded(WorkOfLink<T>(), s.links, 3 * k);
    AddBounds(3 * k + 2, 3 * k, c.n);
  }

  lemma AddBounds(a: nat, b: nat, n: nat)
    ensures a * n + b * n == (a + b) * n
  {
  }

  /** Total correctness: a run has boundedly many moves with an effect, and when
      none is left every PE has returned. */
  lemma {:induction false} EveryRunFinishes<T>(c: Config<T>, init: State<T>, moves: seq<Move>)
    requires Initial(c, init)
    ensures Effective(c, init, moves) <= (6 * Total(c) + 2) * c.n
    ensures var s := Exec(c, init, moves);
      (forall m :: Step(c, s, m) == s) ==> forall p :: 0 <= p < c.n ==> s.pes[p].phase == Finished
  {
    EffectiveIsWork(c, init, moves);
    WorkBounded(c, Exec(c, init, moves));
    InitialInv(c, init);
    ExecInv(c, init, moves);
    var s := Exec(c, init, moves);
    if p :| Running(s, p) {
      var m := NeverStuck(c, s);
    } else {
      forall p | 0 <= p < c.n ensures s.pes[p].phase == Finished {
        assert !Running(s, p);
      }
    }
  }

  /** From every reachable state all PEs can return. */
  lemma {:induction false} CanFinish<T>(c: Config<T>, s: State<T>) returns (moves: seq<Move>)
    requires Inv(c, s)
    ensures forall p :: 0 <= p < c.n ==> Exec(c, s, moves).pes[p].phase == Finished
    decreases (6 * Total(c) + 2) * c.n - Work(s)
  {
    if p :| Running(s, p) {
      var m := NeverStuck(c, s);
      StepInv(c, s, m);
      StepWork(c, s, m);
      WorkBounded(c, Step(c, s, m));
      var rest := CanFinish(c, Step(c, s, m));
      moves := [m] + rest;
      assert moves[1..] == rest;
    } else {
      moves := [];
      forall p | 0 <= p < c.n ensures s.pes[p].phase == Finished {
        assert !Running(s, p);
      }
    }
  }
}
