/**
 What a PE may rely on when it returns from the ring reduction, and what not: all
 PEs must have called, and its own last puts may still have to read their source.
 */
module RingReturn {
  import opened RingReduce
  import opened RingInvariant
  import opened RingTheorems

  lemma InvInStep<T>(c: Config<T>, s: State<T>)
    requires Inv(c, s)
    ensures InStep(c, s)
  {
    forall p | 0 <= p < c.n ensures Counters(s.links[p], s.pes[Next(c.n, p)]) {
      assert LinkOk(c, p, s.links[p], s.pes[Next(c.n, p)]);
    }
  }

  lemma Apart<T>(c: Config<T>, s: State<T>, p: nat, q: nat)
    requires Inv(c, s) && p < c.n && q < c.n
    ensures s.pes[q].done <= s.pes[p].done + c.n - 1
  {
    InvInStep(c, s);
    var d := if q >= p then q - p else q - p + c.n;
    Behind(c, s, p, d);
  }

  lemma TotalAtLeast<T>(c: Config<T>)
    requires c.n >= 2 && c.nSeg >= 1
    ensures Total(c) >= Rounds(c.n)
  {
    BaseOrdered(c.n, 0, c.nSeg);
  }

  // ----- all PEs must call -----

  lemma {:induction false} StaysOutside<T>(c: Config<T>, s: State<T>, moves: seq<Move>, z: nat)
    requires Shape(c, s) && z < c.n && s.pes[z].phase == Outside && Begin(z) !in moves
    ensures Exec(c, s, moves).pes[z].phase == Outside
    decreases |moves|
  {
    if moves != [] {
      assert moves[0] != Begin(z);
      StaysOutside(c, Step(c, s, moves[0]), moves[1..], z);
    }
  }

  /** The ring runs over all PEs, whatever the team: while one of them does not call,
      nobody returns. */
  lemma {:induction false} NobodyReturnsWithout<T>(c: Config<T>, init: State<T>, moves: seq<Move>, z: nat, p: nat)
    requires Initial(c, init) && c.nSeg >= 1 && z < c.n && p < c.n && Begin(z) !in moves
    ensures Exec(c, init, moves).pes[p].phase != Finished
  {
    InitialInv(c, init);
    ExecInv(c, init, moves);
    StaysOutside(c, init, moves, z);
    var s := Exec(c, init, moves);
    Apart(c, s, z, p);
    TotalAtLeast(c);
    assert LinkOk(c, Prev(c.n, z), s.links[Prev(c.n, z)], s.pes[z]);
    assert LinkOk(c, Prev(c.n, p), s.links[Prev(c.n, p)], s.pes[p]);
  }

  // ----- returning before one's last put has been read -----

  /** The put of PE p's last round has not read its source. */
  predicate LastUnread<T>(c: Config<T>, s: State<T>, p: nat)
    requires Shape(c, s) && p < c.n
  {
    s.links[p].data < Total(c) && Total(c) - 1 !in s.links[p].net
  }

  /** Every link is quiet, but p's may be held up at its last put. */
  ghost predicate QuietBut<T>(c: Config<T>, s: State<T>, p: nat)
    requires Shape(c, s) && p < c.n
  {
    && (forall o :: !Active(s, o))
    && (forall o :: Lagging(s, o) ==> o == p && s.links[p].flag == s.links[p].data == Total(c) - 1)
  }

  lemma QuietLink<T>(c: Config<T>, s: State<T>, p: nat, o: nat, d: nat)
    requires Inv(c, s) && p < c.n && QuietBut(c, s, p) && o < c.n && d < Total(c) && d <= s.pes[o].done
    requires o != p || d < Total(c) - 1
    ensures s.links[o].flag > d
  {
    assert !Active(s, o);
    assert LinkOk(c, Prev(c.n, o), s.links[Prev(c.n, o)], s.pes[o]);
    if !Lagging(s, o) {
      assert s.links[o].flag == Sent(s.pes[o]);
    }
  }

  /** Somebody who waits has its flag: a hindmost PE, or p itself. */
  lemma SomebodyGoesOn<T>(c: Config<T>, s: State<T>, p: nat) returns (x: nat)
    requires Inv(c, s) && p < c.n && s.pes[p].phase != Finished && QuietBut(c, s, p)
    ensures x < c.n && s.pes[x].phase == Waiting && s.links[Prev(c.n, x)].flag > s.pes[x].done
  {
    var h := Hindmost(s.pes);
    assert !Active(s, p) && !Active(s, h);
    assert s.pes[h].done <= s.pes[p].done < Total(c);
    assert LinkOk(c, Prev(c.n, h), s.links[Prev(c.n, h)], s.pes[h]);
    x := if Prev(c.n, h) == p && s.pes[h].done == Total(c) - 1 then p else h;
    QuietLink(c, s, p, Prev(c.n, x), s.pes[x].done);
  }

  lemma WithoutLastFetch<T>(c: Config<T>, s: State<T>, p: nat) returns (m: Move)
    requires Inv(c, s) && p < c.n && s.pes[p].phase != Finished && c.nSeg >= 1
    ensures Step(c, s, m) != s && m != Fetch(p, Total(c) - 1)
  {
    TotalAtLeast(c);
    if o :| Lagging(s, o) && !(o == p && s.links[p].flag == s.links[p].data == Total(c) - 1) {
      m := Transfer(o, s.links[o]);
      TransferWorks(c, s, o);
    } else if o :| Active(s, o) {
      m := OwnMove(c, o, s.pes[o]);
      OwnMoveWorks(c, s, o);
    } else {
      var x := SomebodyGoesOn(c, s, p);
      WaitWorks(c, s, Prev(c.n, x), x);
      m := Wait(x);
    }
  }

  lemma StepUnread<T>(c: Config<T>, s: State<T>, m: Move, p: nat)
    requires Shape(c, s) && p < c.n && LastUnread(c, s, p) && m != Fetch(p, Total(c) - 1)
    ensures LastUnread(c, Step(c, s, m), p)
  {
    if m.p < c.n {
      match m
      case Fetch(o, k) => assert o != p ==> Step(c, s, m).links[p] == s.links[p];
      case DeliverData(o) => assert o != p ==> Step(c, s, m).links[p] == s.links[p];
      case DeliverFlag(o) => assert o != p ==> Step(c, s, m).links[p] == s.links[p];
      case _ =>
    }
  }

  /** p can return from every such state without its last put being read. */
  lemma {:induction false} CanReturnUnread<T>(c: Config<T>, s: State<T>, p: nat) returns (moves: seq<Move>)
    requires Inv(c, s) && p < c.n && c.nSeg >= 1 && LastUnread(c, s, p)
    ensures Exec(c, s, moves).pes[p].phase == Finished && LastUnread(c, Exec(c, s, moves), p)
    decreases (6 * Total(c) + 2) * c.n - Work(s)
  {
    if s.pes[p].phase == Finished {
      moves := [];
    } else {
      var m := WithoutLastFetch(c, s, p);
      StepInv(c, s, m);
      StepUnread(c, s, m, p);
      StepWork(c, s, m);
      WorkBounded(c, Step(c, s, m));
      var rest := CanReturnUnread(c, Step(c, s, m), p);
      moves := [m] + rest;
      assert moves[1..] == rest;
    }
  }

  /** Every PE can return while its last put has yet to read its source, so its
      successor has not returned. */
  lemma ReturnsUnread<T>(c: Config<T>, init: State<T>, p: nat) returns (moves: seq<Move>)
    requires Initial(c, init) && p < c.n && c.nSeg >= 1
    ensures var s := Exec(c, init, moves);
      && s.pes[p].phase == Finished && LastUnread(c, s, p)
      && s.pes[Next(c.n, p)].phase != Finished
  {
    InitialInv(c, init);
    TotalAtLeast(c);
    moves := CanReturnUnread(c, init, p);
    ExecInv(c, init, moves);
    var s := Exec(c, init, moves);
    assert LinkOk(c, p, s.links[p], s.pes[Next(c.n, p)]);
  }

  // ----- overwriting the result after returning -----

  /** The caller stores v in its result. */
  function Overwritten<T>(c: Config<T>, s: State<T>, p: nat, x: nat, i: nat, v: T): (t: State<T>)
    requires Shape(c, s) && p < c.n && x < c.nSeg && i < c.n
    ensures Shape(c, t)
  {
    s.(pes := s.pes[p := s.pes[p].(dst := Store(s.pes[p].dst, x, i, v))])
  }

  /** Put k of PE p has been issued and has not read its source. */
  predicate Pending<T>(s: State<T>, p: nat, k: nat)
    requires p < |s.pes| && p < |s.links|
  {
    s.links[p].data <= k < Sent(s.pes[p]) && k !in s.links[p].net
  }

  /** The source of put k is chunk i of segment x. */
  predicate ReadsChunk(n: nat, p: nat, k: nat, x: nat, i: nat)
    requires n >= 2 && p < n
  {
    Seg(n, k) == x && SendChunk(n, p, Round(n, k)) == i
  }

  ghost predicate Settled<T>(c: Config<T>, s: State<T>, p: nat, x: nat, i: nat)
    requires Shape(c, s) && p < c.n
  {
    forall k: nat :: Pending(s, p, k) ==> !ReadsChunk(c.n, p, k, x, i)
  }

  ghost predicate RightAfter<T>(c: Config<T>, s: State<T>, moves: seq<Move>, q: nat)
    requires Shape(c, s) && q < c.n
  {
    Exec(c, s, moves).pes[q].phase == Finished ==>
      forall x, i :: 0 <= x < c.nSeg && 0 <= i < c.n ==> Exec(c, s, moves).pes[q].dst[x][i] == Result(c, x, i)
  }

  /** Whatever is stored there, and however the run goes on, all others still get the
      result. */
  ghost predicate Harmless<T(!new)>(c: Config<T>, s: State<T>, p: nat, x: nat, i: nat)
    requires Shape(c, s) && p < c.n && x < c.nSeg && i < c.n
  {
    forall v: T, moves: seq<Move>, q: nat :: q < c.n && q != p ==>
      RightAfter(c, Overwritten(c, s, p, x, i, v), moves, q)
  }

  /** The same state but for the result of p, who has returned; what is still to be
      read there is the same. */
  ghost predicate SameButResult<T>(c: Config<T>, s: State<T>, t: State<T>, p: nat) {
    && Shape(c, s) && Shape(c, t) && p < c.n && s.links == t.links && s.pes[p].phase == Finished
    && (forall q :: 0 <= q < c.n && q != p ==> s.pes[q] == t.pes[q])
    && t.pes[p] == s.pes[p].(dst := t.pes[p].dst)
    && s.links[Prev(c.n, p)].flag == s.links[Prev(c.n, p)].data == Total(c)
    && (forall k: nat :: Pending(s, p, k) && k < Total(c) ==> Read(c, p, s.pes[p], k) == Read(c, p, t.pes[p], k))
  }

  lemma SameTransfer<T>(c: Config<T>, s: State<T>, t: State<T>, p: nat, m: Move)
    requires SameButResult(c, s, t, p) && m.p < c.n && (m.DeliverData? || m.DeliverFlag?)
    ensures SameButResult(c, Step(c, s, m), Step(c, t, m), p)
  {
    var s1, t1 := Step(c, s, m), Step(c, t, m);
    if Next(c.n, m.p) == p {
      assert m.p == Prev(c.n, p);
      assert s1 == s && t1 == t;
    } else {
      assert s1.pes[p] == s.pes[p] && t1.pes[p] == t.pes[p];
      assert m.p != Prev(c.n, p);
      forall k: nat | Pending(s1, p, k) && k < Total(c) ensures Read(c, p, s1.pes[p], k) == Read(c, p, t1.pes[p], k) {
        assert Pending(s, p, k);
      }
    }
  }

  lemma SameFetch<T>(c: Config<T>, s: State<T>, t: State<T>, p: nat, o: nat, k: nat)
    requires SameButResult(c, s, t, p) && o < c.n
    ensures SameButResult(c, FetchStep(c, s, o, k), FetchStep(c, t, o, k), p)
  {
    var s1, t1 := FetchStep(c, s, o, k), FetchStep(c, t, o, k);
    assert o == p && Pending(s, p, k) ==> k < Total(c);
    assert s1.links == t1.links;
    forall l: nat | Pending(s1, p, l) && l < Total(c) ensures Read(c, p, s1.pes[p], l) == Read(c, p, t1.pes[p], l) {
      assert Pending(s, p, l);
    }
  }

  lemma SameOwn<T>(c: Config<T>, s: State<T>, t: State<T>, p: nat, m: Move)
    requires SameButResult(c, s, t, p) && m.p < c.n && !m.Fetch? && !m.DeliverData? && !m.DeliverFlag?
    ensures SameButResult(c, Step(c, s, m), Step(c, t, m), p)
  {
    var s1, t1 := Step(c, s, m), Step(c, t, m);
    if m.p == p {
      assert s1 == s && t1 == t;
    } else {
      assert s1.pes[p] == s.pes[p] && t1.pes[p] == t.pes[p];
      forall k: nat | Pending(s1, p, k) && k < Total(c) ensures Read(c, p, s1.pes[p], k) == Read(c, p, t1.pes[p], k) {
        assert Pending(s, p, k);
      }
    }
  }

  lemma SameStep<T>(c: Config<T>, s: State<T>, t: State<T>, p: nat, m: Move)
    requires SameButResult(c, s, t, p)
    ensures SameButResult(c, Step(c, s, m), Step(c, t, m), p)
  {
    if m.p < c.n {
      match m
      case Fetch(o, k) => SameFetch(c, s, t, p, o, k);
      case DeliverData(_) => SameTransfer(c, s, t, p, m);
      case DeliverFlag(_) => SameTransfer(c, s, t, p, m);
      case _ => SameOwn(c, s, t, p, m);
    }
  }

  lemma {:induction false} SameExec<T>(c: Config<T>, s: State<T>, t: State<T>, p: nat, moves: seq<Move>)
    requires SameButResult(c, s, t, p)
    ensures SameButResult(c, Exec(c, s, moves), Exec(c, t, moves), p)
    decreases |moves|
  {
    if moves != [] {
      SameStep(c, s, t, p, moves[0]);
      SameExec(c, Step(c, s, moves[0]), Step(c, t, moves[0]), p, moves[1..]);
    }
  }

  lemma RightFromInv<T>(c: Config<T>, s: State<T>, moves: seq<Move>, q: nat)
    requires Inv(c, s) && q < c.n
    ensures RightAfter(c, s, moves, q)
  {
    ExecInv(c, s, moves);
    var t, o := Exec(c, s, moves), Prev(c.n, q);
    assert LinkOk(c, o, t.links[o], t.pes[q]);
    if t.pes[q].phase == Finished {
      forall x, i | 0 <= x < c.nSeg && 0 <= i < c.n ensures t.pes[q].dst[x][i] == Result(c, x, i) {
        assert ChunkOk(c, q, t.pes[q], t.links[o].data, x, i);
        ExpectedAtEnd(c, q, x, i, t.links[o].data);
      }
    }
  }

  lemma SettledIsSame<T>(c: Config<T>, s: State<T>, p: nat, x: nat, i: nat, v: T)
    requires Inv(c, s) && p < c.n && x < c.nSeg && i < c.n && s.pes[p].phase == Finished && Settled(c, s, p, x, i)
    ensures SameButResult(c, s, Overwritten(c, s, p, x, i, v), p)
  {
    var t, o := Overwritten(c, s, p, x, i, v), Prev(c.n, p);
    assert LinkOk(c, o, s.links[o], s.pes[p]);
    Window(c, s, o);
    forall k: nat | Pending(s, p, k) && k < Total(c) ensures Read(c, p, s.pes[p], k) == Read(c, p, t.pes[p], k) {
      assert !ReadsChunk(c.n, p, k, x, i);
      SegBound(c, k);
    }
  }

  lemma SettledIsHarmless<T(!new)>(c: Config<T>, s: State<T>, p: nat, x: nat, i: nat)
    requires Inv(c, s) && p < c.n && x < c.nSeg && i < c.n && s.pes[p].phase == Finished && Settled(c, s, p, x, i)
    ensures Harmless(c, s, p, x, i)
  {
    forall v: T, moves: seq<Move>, q: nat | q < c.n && q != p
      ensures RightAfter(c, Overwritten(c, s, p, x, i, v), moves, q)
    {
      SettledIsSame(c, s, p, x, i, v);
      SameExec(c, s, Overwritten(c, s, p, x, i, v), p, moves);
      RightFromInv(c, s, moves, q);
    }
  }

  // ----- the successor of a PE that overwrites too early -----

  /** Equal but for the contents of buffers and messages. */
  predicate SameControl<T>(s: State<T>, t: State<T>) {
    && |s.pes| == |t.pes| && |s.links| == |t.links|
    && (forall q :: 0 <= q < |s.pes| ==> SamePhase(s.pes[q], t.pes[q]))
    && (forall q :: 0 <= q < |s.links| ==> SameProgress(s.links[q], t.links[q]))
  }

  predicate SamePhase<T>(a: Pe<T>, b: Pe<T>) {
    a.phase == b.phase && a.done == b.done && a.pSync == b.pSync
  }

  predicate SameProgress<T>(a: Link<T>, b: Link<T>) {
    a.data == b.data && a.flag == b.flag && a.net.Keys == b.net.Keys
  }

  lemma ControlOwn<T>(c: Config<T>, p: nat, a: Pe<T>, b: Pe<T>, m: Move)
    requires c.n >= 2 && p < c.n && PeShape(c, a) && PeShape(c, b) && SamePhase(a, b)
    ensures SamePhase(RunPe(c, p, a, m), RunPe(c, p, b, m))
  {
  }

  lemma ControlFetch<T>(c: Config<T>, s: State<T>, t: State<T>, p: nat, k: nat)
    requires Shape(c, s) && Shape(c, t) && SameControl(s, t) && p < c.n
    ensures SameControl(FetchStep(c, s, p, k), FetchStep(c, t, p, k))
  {
    assert SamePhase(s.pes[p], t.pes[p]) && SameProgress(s.links[p], t.links[p]);
  }

  lemma ControlDeliver<T>(c: Config<T>, s: State<T>, t: State<T>, p: nat)
    requires Shape(c, s) && Shape(c, t) && SameControl(s, t) && p < c.n
    ensures SameControl(DataStep(c, s, p), DataStep(c, t, p))
    ensures SameControl(FlagStep(c, s, p), FlagStep(c, t, p))
  {
    assert SameProgress(s.links[p], t.links[p]) && SamePhase(s.pes[Next(c.n, p)], t.pes[Next(c.n, p)]);
  }

  lemma ControlStep<T>(c: Config<T>, s: State<T>, t: State<T>, m: Move)
    requires Shape(c, s) && Shape(c, t) && SameControl(s, t)
    ensures SameControl(Step(c, s, m), Step(c, t, m))
  {
    if m.p < c.n {
      match m
      case Fetch(p, k) => ControlFetch(c, s, t, p, k);
      case DeliverData(p) => ControlDeliver(c, s, t, p);
      case DeliverFlag(p) => ControlDeliver(c, s, t, p);
      case _ => ControlOwn(c, m.p, s.pes[m.p], t.pes[m.p], m);
    }
  }

  /** A put of a PE that has returned is one of the last n - 1 of the last segment. */
  lemma {:induction false} LastRounds<T>(c: Config<T>, k: nat)
    requires c.n >= 2 && k < Total(c) <= k + c.n - 1
    ensures Round(c.n, k) >= c.n - 1 && Seg(c.n, k) == c.nSeg - 1
  {
    Position(c.n, k);
    SegBound(c, k);
    if Seg(c.n, k) < c.nSeg - 1 {
      BaseOrdered(c.n, Seg(c.n, k), c.nSeg - 1);
    }
  }

  /** The stored value is on its way to the successor, or there. */
  predicate OnItsWay<T(==)>(c: Config<T>, t: State<T>, p: nat, k: nat, v: T)
    requires Shape(c, t) && p < c.n && k < Total(c)
  {
    SegBound(c, k);
    var l, x, i := t.links[p], Seg(c.n, k), SendChunk(c.n, p, Round(c.n, k));
    if l.data <= k then k in l.net && l.net[k] == v else t.pes[Next(c.n, p)].dst[x][i] == v
  }

  /** In its last n - 1 rounds a PE does not change its own result. */
  lemma OwnKeepsResult<T>(c: Config<T>, q: nat, b: Pe<T>, m: Move)
    requires c.n >= 2 && q < c.n && PeShape(c, b) && b.phase != Outside && Total(c) <= b.done + c.n - 1
    ensures RunPe(c, q, b, m).dst == b.dst
  {
    if b.phase == Arrived {
      LastRounds(c, b.done);
    }
  }

  /** Nor do two of the last deliveries write the same chunk. */
  lemma {:induction false} OtherChunk<T>(c: Config<T>, p: nat, b: Pe<T>, k: nat, l: nat, v: T)
    requires c.n >= 2 && p < c.n && PeShape(c, b) && k < l < Total(c) <= k + c.n - 1
    ensures Seg(c.n, k) < c.nSeg
    ensures var x, i := Seg(c.n, k), SendChunk(c.n, p, Round(c.n, k));
      Write(c, p, b, l, v).dst[x][i] == b.dst[x][i]
  {
    LastRounds(c, k);
    LastRounds(c, l);
    Position(c.n, k);
    Position(c.n, l);
    SegBound(c, k);
    SegBound(c, l);
  }

  lemma OnItsWayData<T>(c: Config<T>, t: State<T>, p: nat, k: nat, v: T)
    requires Shape(c, t) && p < c.n && k < Total(c) <= k + c.n - 1 && OnItsWay(c, t, p, k, v)
    ensures OnItsWay(c, DataStep(c, t, p), p, k, v)
  {
    var l := t.links[p];
    SegBound(c, k);
    LastRounds(c, k);
    if l.data in l.net && l.data > k {
      OtherChunk(c, p, t.pes[Next(c.n, p)], k, l.data, l.net[l.data]);
    }
  }

  lemma OnItsWayElsewhere<T>(c: Config<T>, t: State<T>, u: State<T>, p: nat, k: nat, v: T)
    requires Shape(c, t) && Shape(c, u) && p < c.n && k < Total(c) && OnItsWay(c, t, p, k, v)
    requires u.links[p].data == t.links[p].data && u.pes[Next(c.n, p)].dst == t.pes[Next(c.n, p)].dst
    requires k in t.links[p].net ==> k in u.links[p].net && u.links[p].net[k] == t.links[p].net[k]
    ensures OnItsWay(c, u, p, k, v)
  {
    SegBound(c, k);
  }

  lemma OnItsWayTransfer<T>(c: Config<T>, t: State<T>, m: Move, p: nat, k: nat, v: T)
    requires Shape(c, t) && p < c.n && k < Total(c) <= k + c.n - 1 && OnItsWay(c, t, p, k, v)
    requires m.p < c.n && (m.Fetch? || m.DeliverData? || m.DeliverFlag?)
    ensures OnItsWay(c, Step(c, t, m), p, k, v)
  {
    if m == DeliverData(p) {
      OnItsWayData(c, t, p, k, v);
    } else {
      assert m.p != p ==> Next(c.n, m.p) != Next(c.n, p);
      OnItsWayElsewhere(c, t, Step(c, t, m), p, k, v);
    }
  }

  lemma OnItsWayStep<T>(c: Config<T>, s: State<T>, t: State<T>, m: Move, p: nat, k: nat, v: T)
    requires Inv(c, s) && Shape(c, t) && SameControl(s, t) && p < c.n && s.pes[p].phase == Finished
    requires k < Total(c) <= k + c.n - 1 && OnItsWay(c, t, p, k, v)
    ensures OnItsWay(c, Step(c, t, m), p, k, v)
  {
    var q := Next(c.n, p);
    if m.p < c.n {
      if m.Fetch? || m.DeliverData? || m.DeliverFlag? {
        OnItsWayTransfer(c, t, m, p, k, v);
      } else if m.p == q {
        Apart(c, s, q, p);
        assert LinkOk(c, p, s.links[p], s.pes[q]) && LinkOk(c, Prev(c.n, p), s.links[Prev(c.n, p)], s.pes[p]);
        TotalAtLeast(c);
        assert SamePhase(s.pes[q], t.pes[q]);
        OwnKeepsResult(c, q, t.pes[q], m);
      }
    }
  }

  lemma StaysFinished<T>(c: Config<T>, s: State<T>, m: Move, p: nat)
    requires Shape(c, s) && p < c.n && s.pes[p].phase == Finished
    ensures Step(c, s, m).pes[p].phase == Finished
  {
  }

  lemma {:induction false} OnItsWayExec<T>(c: Config<T>, s: State<T>, t: State<T>, moves: seq<Move>,
                                           p: nat, k: nat, v: T)
    requires Inv(c, s) && Shape(c, t) && SameControl(s, t) && p < c.n && s.pes[p].phase == Finished
    requires k < Total(c) <= k + c.n - 1 && OnItsWay(c, t, p, k, v)
    ensures OnItsWay(c, Exec(c, t, moves), p, k, v) && SameControl(Exec(c, s, moves), Exec(c, t, moves))
    decreases |moves|
  {
    if moves != [] {
      var m := moves[0];
      StepInv(c, s, m);
      StaysFinished(c, s, m, p);
      ControlStep(c, s, t, m);
      OnItsWayStep(c, s, t, m, p, k, v);
      OnItsWayExec(c, Step(c, s, m), Step(c, t, m), moves[1..], p, k, v);
    }
  }

  /** A put that is still to be read carries the new value into the result that the
      successor returns with. */
  lemma PendingIsHarmful<T(!new)>(c: Config<T>, s: State<T>, p: nat, k: nat, v: T) returns (moves: seq<Move>)
    requires Inv(c, s) && p < c.n && s.pes[p].phase == Finished && Pending(s, p, k)
    ensures k < Total(c) && Seg(c.n, k) < c.nSeg
    ensures var x, i := Seg(c.n, k), SendChunk(c.n, p, Round(c.n, k));
      var r := Exec(c, Overwritten(c, s, p, x, i, v), moves).pes[Next(c.n, p)];
      r.phase == Finished && r.dst[x][i] == v
  {
    PendingIsLast(c, s, p, k);
    SegBound(c, k);
    var x, i := Seg(c.n, k), SendChunk(c.n, p, Round(c.n, k));
    var t, m := Overwritten(c, s, p, x, i, v), Fetch(p, k);
    var s1, t1 := Step(c, s, m), Step(c, t, m);
    StepInv(c, s, m);
    StaysFinished(c, s, m, p);
    FetchCarries(c, s, p, k, v);
    var rest := CanFinish(c, s1);
    OnItsWayExec(c, s1, t1, rest, p, k, v);
    ExecInv(c, s1, rest);
    FinishedHasAll(c, Exec(c, s1, rest), Exec(c, t1, rest), p);
    moves := [m] + rest;
    ExecCons(c, t, m, rest);
  }

  lemma {:induction false} ExecCons<T>(c: Config<T>, s: State<T>, m: Move, rest: seq<Move>)
    requires Shape(c, s)
    ensures Exec(c, s, [m] + rest) == Exec(c, Step(c, s, m), rest)
  {
    assert ([m] + rest)[1..] == rest;
  }

  lemma PendingIsLast<T>(c: Config<T>, s: State<T>, p: nat, k: nat)
    requires Inv(c, s) && p < c.n && s.pes[p].phase == Finished && Pending(s, p, k)
    ensures k < Total(c) <= k + c.n - 1
  {
    var q, o := Next(c.n, p), Prev(c.n, p);
    assert LinkOk(c, p, s.links[p], s.pes[q]) && LinkOk(c, o, s.links[o], s.pes[p]);
    Apart(c, s, q, p);
  }

  lemma {:induction false} FetchCarries<T>(c: Config<T>, s: State<T>, p: nat, k: nat, v: T)
    requires Inv(c, s) && p < c.n && Pending(s, p, k) && k < Total(c)
    ensures Seg(c.n, k) < c.nSeg
    ensures var x, i := Seg(c.n, k), SendChunk(c.n, p, Round(c.n, k));
      var t1 := Step(c, Overwritten(c, s, p, x, i, v), Fetch(p, k));
      SameControl(Step(c, s, Fetch(p, k)), t1) && OnItsWay(c, t1, p, k, v)
  {
    SegBound(c, k);
    var t := Overwritten(c, s, p, Seg(c.n, k), SendChunk(c.n, p, Round(c.n, k)), v);
    assert SameControl(s, t);
    ControlFetch(c, s, t, p, k);
  }

  lemma FinishedHasAll<T>(c: Config<T>, s: State<T>, t: State<T>, p: nat)
    requires Inv(c, s) && Shape(c, t) && SameControl(s, t) && p < c.n && s.pes[Next(c.n, p)].phase == Finished
    ensures t.pes[Next(c.n, p)].phase == Finished && t.links[p].data == Total(c)
  {
    assert LinkOk(c, p, s.links[p], s.pes[Next(c.n, p)]);
    assert SamePhase(s.pes[Next(c.n, p)], t.pes[Next(c.n, p)]) && SameProgress(s.links[p], t.links[p]);
    Window(c, s, p);
  }

  /** After returning, a chunk of the result may be overwritten without harm exactly
      when no put of the PE has yet to read it. */
  lemma {:induction false} OverwriteIff<T(!new)>(c: Config<T>, init: State<T>, moves: seq<Move>,
      p: nat, x: nat, i: nat, other: T)
    requires Initial(c, init) && p < c.n && x < c.nSeg && i < c.n && other != Result(c, x, i)
    requires Exec(c, init, moves).pes[p].phase == Finished
    ensures Harmless(c, Exec(c, init, moves), p, x, i) <==> Settled(c, Exec(c, init, moves), p, x, i)
  {
    InitialInv(c, init);
    ExecInv(c, init, moves);
    var s := Exec(c, init, moves);
    if Settled(c, s, p, x, i) {
      SettledIsHarmless(c, s, p, x, i);
    } else {
      var k: nat :| Pending(s, p, k) && ReadsChunk(c.n, p, k, x, i);
      var rest := PendingIsHarmful(c, s, p, k, other);
      assert !RightAfter(c, Overwritten(c, s, p, x, i, other), rest, Next(c.n, p));
    }
  }
}
