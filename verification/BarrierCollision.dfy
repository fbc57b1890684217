/**
 Two barrier calls that do not agree: runs in which a member leaves too early, or
 in which the barrier never ends.
 */
module BarrierCollision {
  import opened SyncBarrier
  import opened BarrierProgress

  lemma {:induction false} ExecConcat(c: Config, s: State, a: seq<Move>, b: seq<Move>)
    requires Shape(c, s)
    ensures Exec(c, s, a + b) == Exec(c, Exec(c, s, a), b)
    decreases |a|
  {
    if a == [] {
      assert a + b == b;
    } else {
      assert (a + b)[1..] == a[1..] + b;
      ExecConcat(c, Step(c, s, a[0]), a[1..], b);
    }
  }

  lemma {:induction false} ExecOne(c: Config, s: State, m: Move)
    requires Shape(c, s)
    ensures Exec(c, s, [m]) == Step(c, s, m)
  {
    assert [m][1..] == [];
  }

  lemma {:induction false} ExecTwo(c: Config, s: State, a: Move, b: Move)
    requires Shape(c, s)
    ensures Exec(c, s, [a, b]) == Step(c, Step(c, s, a), b)
  {
    assert [a, b][1..] == [b];
    ExecOne(c, Step(c, s, a), b);
  }

  // ----- running through the first call -----

  predicate TwoCalls(c: Config) {
    CallsOk(c) && |c.calls| == 2
  }

  predicate Outside(s: State, p: nat) {
    p < |s.pes| && s.pes[p] == Local(0, Idle, 0)
  }

  /** Member i of call g has entered and its signal has arrived. */
  function Arrived(c: Config, s: State, g: nat, i: nat): (t: State)
    requires TwoCalls(c) && Shape(c, s) && g < 2 && 1 <= i < |c.calls[g]|
    ensures Shape(c, t)
  {
    var r := c.calls[g];
    var w := SetPe(s, r[i], Local(g, Waiting, 0));
    if Atomic(r) then SetWord(w, r[0], 0, s.words[r[0]][0] + 1) else SetWord(w, r[0], i, 1)
  }

  lemma {:induction false} SlotOfMember(n: nat, r: seq<nat>, i: nat)
    requires RosterOk(n, r) && i < |r|
    ensures SlotOf(r, r[i]) == i
  {
  }

  lemma Arrive(c: Config, s: State, g: nat, i: nat) returns (moves: seq<Move>)
    requires TwoCalls(c) && Shape(c, s) && g < 2 && 1 <= i < |c.calls[g]| && s.pes[c.calls[g][i]] == Local(g, Idle, 0)
    ensures Exec(c, s, moves) == Arrived(c, s, g, i)
  {
    var r := c.calls[g];
    SlotOfMember(c.n, r, i);
    var m := if Atomic(r) then DeliverAdd(r[0]) else DeliverPut(r[0], i);
    moves := [Enter(r[i]), m];
    ExecTwo(c, s, Enter(r[i]), m);
    StoreBack(s.puts, r[0], i, s.puts[r[0]][i] + 1);
    assert s.adds[r[0] := s.adds[r[0]] + 1][r[0] := s.adds[r[0]]] == s.adds;
  }

  lemma StoreBack(rows: seq<seq<nat>>, p: nat, i: nat, v: nat)
    requires p < |rows| && i < |rows[p]|
    ensures Store(Store(rows, p, i, v), p, i, rows[p][i]) == rows
  {
    assert rows[p][i := v][i := rows[p][i]] == rows[p];
  }

  /** The members from k on have arrived, and nothing else has happened. */
  predicate AllArrived(c: Config, s: State, t: State, k: nat)
    requires TwoCalls(c) && Shape(c, s) && Shape(c, t) && 1 <= k <= |c.calls[0]|
  {
    var r := c.calls[0];
    && t.puts == s.puts && t.adds == s.adds
    && (forall q :: 0 <= q < c.n && q !in r[k..] ==> t.pes[q] == s.pes[q])
    && (forall i :: k <= i < |r| ==> t.pes[r[i]] == Local(0, Waiting, 0))
    && (forall q :: 0 <= q < c.n && q != r[0] ==> t.words[q] == s.words[q])
    && (Atomic(r) ==> t.words[r[0]][0] == s.words[r[0]][0] + |r| - k)
    && (!Atomic(r) ==> forall i :: 1 <= i < |r| ==> t.words[r[0]][i] == if i < k then s.words[r[0]][i] else 1)
  }

  lemma {:induction false} ArriveFrom(c: Config, s: State, k: nat) returns (moves: seq<Move>)
    requires TwoCalls(c) && Shape(c, s) && 1 <= k <= |c.calls[0]|
    requires forall i :: k <= i < |c.calls[0]| ==> Outside(s, c.calls[0][i])
    ensures AllArrived(c, s, Exec(c, s, moves), k)
    decreases |c.calls[0]| - k
  {
    if k == |c.calls[0]| {
      moves := [];
    } else {
      var first := Arrive(c, s, 0, k);
      var t := Arrived(c, s, 0, k);
      var rest := ArriveFrom(c, t, k + 1);
      moves := first + rest;
      ExecConcat(c, s, first, rest);
      OneMoreArrived(c, s, Exec(c, t, rest), k);
    }
  }

  lemma OneMoreArrived(c: Config, s: State, u: State, k: nat)
    requires TwoCalls(c) && Shape(c, s) && Shape(c, u) && 1 <= k < |c.calls[0]|
    requires AllArrived(c, Arrived(c, s, 0, k), u, k + 1)
    ensures AllArrived(c, s, u, k)
  {
    var r := c.calls[0];
    assert r[k..] == [r[k]] + r[k + 1..];
    assert r[k] !in r[k + 1..];
  }

  /** The root has every signal of the first call. */
  predicate Complete(c: Config, s: State)
    requires TwoCalls(c) && Shape(c, s)
  {
    var r := c.calls[0];
    if Atomic(r) then s.words[r[0]][0] == |r| - 1 else forall i :: 1 <= i < |r| ==> s.words[r[0]][i] == 1
  }

  /** Only the root and what it has sent and zeroed may differ. */
  predicate OnlyRoot(c: Config, s: State, t: State)
    requires TwoCalls(c) && Shape(c, s) && Shape(c, t)
  {
    var r := c.calls[0];
    && t.adds == s.adds
    && (forall q :: 0 <= q < c.n && q != r[0] ==> t.pes[q] == s.pes[q] && t.words[q] == s.words[q])
  }

  lemma {:induction false} CollectDirect(c: Config, s: State) returns (moves: seq<Move>)
    requires TwoCalls(c) && Shape(c, s) && !Atomic(c.calls[0])
    requires s.pes[c.calls[0][0]].at == 0 && s.pes[c.calls[0][0]].phase == Collect
    requires forall i :: s.pes[c.calls[0][0]].next <= i < |c.calls[0]| ==> s.words[c.calls[0][0]][i] == 1
    ensures var t := Exec(c, s, moves);
      OnlyRoot(c, s, t) && t.puts == s.puts && t.pes[c.calls[0][0]] == Local(0, Release, 1)
    decreases |c.calls[0]| - s.pes[c.calls[0][0]].next
  {
    var r := c.calls[0][0];
    var t := Step(c, s, Run(r));
    assert LocalOk(c, r, s.pes[r]);
    ExecOne(c, s, Run(r));
    if s.pes[r].next == |c.calls[0]| {
      moves := [Run(r)];
    } else {
      var rest := CollectDirect(c, t);
      moves := [Run(r)] + rest;
      ExecConcat(c, s, [Run(r)], rest);
    }
  }

  lemma Collected(c: Config, s: State) returns (moves: seq<Move>)
    requires TwoCalls(c) && Shape(c, s) && Complete(c, s) && Outside(s, c.calls[0][0])
    ensures var t := Exec(c, s, moves);
      OnlyRoot(c, s, t) && t.puts == s.puts && t.pes[c.calls[0][0]] == Local(0, Release, 1)
  {
    var r := c.calls[0][0];
    SlotOfMember(c.n, c.calls[0], 0);
    var t := Step(c, s, Enter(r));
    if Atomic(c.calls[0]) {
      moves := [Enter(r), Run(r)];
      ExecTwo(c, s, Enter(r), Run(r));
    } else {
      var rest := CollectDirect(c, t);
      ExecOne(c, s, Enter(r));
      ExecConcat(c, s, [Enter(r)], rest);
      moves := [Enter(r)] + rest;
    }
  }

  /** Word 0 of every member from k on has one more write under way. */
  predicate ReleasedFrom(c: Config, s: State, t: State, k: nat)
    requires TwoCalls(c) && Shape(c, s) && Shape(c, t) && 1 <= k <= |c.calls[0]|
  {
    forall i :: k <= i < |c.calls[0]| ==> t.puts[c.calls[0][i]][0] == s.puts[c.calls[0][i]][0] + 1
  }

  lemma {:induction false} ReleaseAll(c: Config, s: State) returns (moves: seq<Move>)
    requires TwoCalls(c) && Shape(c, s)
    requires s.pes[c.calls[0][0]].at == 0 && s.pes[c.calls[0][0]].phase == Release
    ensures var t := Exec(c, s, moves);
      && OnlyRoot(c, s, t) && t.pes[c.calls[0][0]] == Local(1, Idle, 0)
      && ReleasedFrom(c, s, t, s.pes[c.calls[0][0]].next)
      && forall i :: 1 <= i < s.pes[c.calls[0][0]].next ==> t.puts[c.calls[0][i]][0] == s.puts[c.calls[0][i]][0]
    decreases |c.calls[0]| - s.pes[c.calls[0][0]].next
  {
    var r, k := c.calls[0][0], s.pes[c.calls[0][0]].next;
    assert LocalOk(c, r, s.pes[r]);
    var t := Step(c, s, Run(r));
    ExecOne(c, s, Run(r));
    if k == |c.calls[0]| {
      moves := [Run(r)];
    } else {
      var rest := ReleaseAll(c, t);
      moves := [Run(r)] + rest;
      ExecConcat(c, s, [Run(r)], rest);
    }
  }

  /** The root goes through its part alone. */
  lemma RootThrough(c: Config, s: State) returns (moves: seq<Move>)
    requires TwoCalls(c) && Shape(c, s) && Complete(c, s) && Outside(s, c.calls[0][0])
    ensures var t := Exec(c, s, moves);
      OnlyRoot(c, s, t) && t.pes[c.calls[0][0]] == Local(1, Idle, 0) && ReleasedFrom(c, s, t, 1)
  {
    var a := Collected(c, s);
    var b := ReleaseAll(c, Exec(c, s, a));
    moves := a + b;
    ExecConcat(c, s, a, b);
  }

  // ----- a stranger's signal -----

  /** The second call's member i, who is not in the first. */
  predicate Stranger(c: Config, i: nat)
    requires TwoCalls(c)
  {
    1 <= i < |c.calls[1]| && c.calls[1][i] !in c.calls[0]
  }

  /** It passes over the first call and joins the second, and its signal arrives. */
  function Signalled(c: Config, i: nat): (t: State)
    requires TwoCalls(c) && Stranger(c, i)
    ensures Shape(c, t)
  {
    Arrived(c, SetPe(Start(c), c.calls[1][i], Local(1, Idle, 0)), 1, i)
  }

  lemma StrangerSignals(c: Config, i: nat) returns (moves: seq<Move>)
    requires TwoCalls(c) && Stranger(c, i)
    ensures Exec(c, Start(c), moves) == Signalled(c, i)
  {
    var s, p := Start(c), c.calls[1][i];
    var t := Step(c, s, Enter(p));
    assert t == SetPe(s, p, Local(1, Idle, 0));
    var rest := Arrive(c, t, 1, i);
    moves := [Enter(p)] + rest;
    ExecConcat(c, s, [Enter(p)], rest);
    ExecOne(c, s, Enter(p));
  }

  /** The stranger's signal stands in for member 1 of the first call. */
  predicate StandsIn(c: Config, i: nat)
    requires TwoCalls(c)
  {
    && Stranger(c, i) && |c.calls[0]| >= 2 && c.calls[0][0] == c.calls[1][0]
    && Atomic(c.calls[0]) == Atomic(c.calls[1]) && (!Atomic(c.calls[0]) ==> i == 1)
  }

  /** Then the root leaves the first call before its member 1 has entered. */
  lemma LeavesEarly(c: Config, i: nat) returns (moves: seq<Move>)
    requires TwoCalls(c) && StandsIn(c, i)
    ensures !Safe(c, Exec(c, Start(c), moves))
  {
    var r, s := c.calls[0], Signalled(c, i);
    var a := StrangerSignals(c, i);
    var b := ArriveFrom(c, s, 2);
    var t := Exec(c, s, b);
    StoodIn(c, i, t);
    var d := RootThrough(c, t);
    moves := a + (b + d);
    ExecConcat(c, Start(c), a, b + d);
    ExecConcat(c, s, b, d);
    var u := Exec(c, Start(c), moves);
    assert HasLeft(u.pes[r[0]], 0) && !Entered(u.pes[r[1]], 0);
  }

  lemma StoodIn(c: Config, i: nat, t: State)
    requires TwoCalls(c) && StandsIn(c, i) && Shape(c, t) && AllArrived(c, Signalled(c, i), t, 2)
    ensures Complete(c, t) && Outside(t, c.calls[0][0]) && Outside(t, c.calls[0][1])
  {
    var r := c.calls[0];
    assert r[0] !in r[2..] && r[1] !in r[2..];
  }

  /** An atomic call's root is a member of the first call, and a stranger adds to
      its word 0 while it waits there for its release. */
  lemma LeavesBeforeRoot(c: Config, i: nat) returns (moves: seq<Move>)
    requires TwoCalls(c) && Stranger(c, i) && Atomic(c.calls[1]) && c.calls[1][0] in c.calls[0][1..]
    ensures !Safe(c, Exec(c, Start(c), moves))
  {
    var x, s := c.calls[0], Signalled(c, i);
    var p := c.calls[1][0];
    var j := SlotOf(x, p);
    var a := StrangerSignals(c, i);
    moves := a + [Enter(p), Run(p)];
    ExecConcat(c, Start(c), a, [Enter(p), Run(p)]);
    ExecTwo(c, s, Enter(p), Run(p));
    var t := Step(c, s, Enter(p));
    assert t.pes == s.pes[p := Local(0, Waiting, 0)] && t.words[p][0] == 1;
    var u := Step(c, t, Run(p));
    assert x[j] == p && HasLeft(u.pes[x[j]], 0) && !Entered(u.pes[x[0]], 0);
  }

  // ----- a release that is counted -----

  /** PE p waits in the first call, its word 0 is past 1 and will not come back. */
  predicate Jammed(c: Config, s: State, p: nat)
    requires TwoCalls(c) && Shape(c, s) && p < c.n
  {
    && c.calls[1][0] == p && s.pes[p].at == 0 && s.pes[p].phase == Waiting
    && s.words[p][0] >= 2 && s.puts[p][0] == 0 && s.pes[c.calls[0][0]].at >= 1
  }

  lemma JamStays(c: Config, s: State, p: nat, m: Move)
    requires TwoCalls(c) && Shape(c, s) && p < c.n && Jammed(c, s, p)
    ensures Jammed(c, Step(c, s, m), p)
  {
    if m.p < c.n {
      assert LocalOk(c, m.p, s.pes[m.p]);
    }
  }

  lemma {:induction false} JamRuns(c: Config, s: State, p: nat, moves: seq<Move>)
    requires TwoCalls(c) && Shape(c, s) && p < c.n && Jammed(c, s, p)
    ensures Jammed(c, Exec(c, s, moves), p)
    decreases |moves|
  {
    if moves != [] {
      JamStays(c, s, p, moves[0]);
      JamRuns(c, Step(c, s, moves[0]), p, moves[1..]);
    }
  }

  /** All of the atomic second call are in the first, in which its root is a member. */
  predicate Nested(c: Config)
    requires TwoCalls(c)
  {
    && Atomic(c.calls[1]) && c.calls[1][0] in c.calls[0][1..]
    && forall i :: 1 <= i < |c.calls[1]| ==> c.calls[1][i] in c.calls[0]
  }

  /** Everybody has entered the first call, and the root has released them all. */
  predicate AllReleased(c: Config, s: State)
    requires TwoCalls(c) && Shape(c, s)
  {
    var x := c.calls[0];
    && s.pes[x[0]] == Local(1, Idle, 0) && (forall q :: 0 <= q < c.n ==> s.adds[q] == 0)
    && forall i :: 1 <= i < |x| ==>
         s.pes[x[i]] == Local(0, Waiting, 0) && s.puts[x[i]][0] == 1 && s.words[x[i]][0] == 0
  }

  lemma ReachReleased(c: Config) returns (moves: seq<Move>)
    requires TwoCalls(c)
    ensures AllReleased(c, Exec(c, Start(c), moves))
  {
    var x, s := c.calls[0], Start(c);
    var a := ArriveFrom(c, s, 1);
    var t := Exec(c, s, a);
    assert x[0] !in x[1..];
    var b := RootThrough(c, t);
    moves := a + b;
    ExecConcat(c, s, a, b);
    forall i | 1 <= i < |x| ensures t.pes[x[i]] == Local(0, Waiting, 0) && x[i] != x[0] {
    }
  }

  /** Member y of both calls goes on to the second one. */
  lemma GoesOn(c: Config, s: State, y: nat) returns (moves: seq<Move>)
    requires TwoCalls(c) && Shape(c, s) && AllReleased(c, s) && y in c.calls[0]
    ensures var t := Exec(c, s, moves);
      && t.adds == s.adds && t.pes == s.pes[y := Local(1, Idle, 0)]
      && forall q :: 0 <= q < c.n && q != y ==> t.words[q] == s.words[q] && t.puts[q] == s.puts[q]
  {
    var x := c.calls[0];
    if y == x[0] {
      moves := [];
      assert s.pes[y := Local(1, Idle, 0)] == s.pes;
    } else {
      var i := SlotOf(x, y);
      moves := [DeliverPut(y, 0), Run(y)];
      ExecTwo(c, s, DeliverPut(y, 0), Run(y));
      assert s.pes[x[i]] == Local(0, Waiting, 0);
    }
  }

  /** Then it adds to the word in which its new root still awaits its release. */
  lemma ReachJam(c: Config) returns (moves: seq<Move>)
    requires TwoCalls(c) && Nested(c)
    ensures Jammed(c, Exec(c, Start(c), moves), c.calls[1][0])
  {
    var x, y := c.calls[0], c.calls[1];
    var p, q := y[0], y[1];
    var a := ReachReleased(c);
    var s := Exec(c, Start(c), a);
    var b := GoesOn(c, s, q);
    var t := Exec(c, s, b);
    var d := AddsOn(c, s, t);
    moves := a + (b + d);
    ExecConcat(c, Start(c), a, b + d);
    ExecConcat(c, s, b, d);
  }

  lemma AddsOn(c: Config, s: State, t: State) returns (moves: seq<Move>)
    requires TwoCalls(c) && Nested(c) && Shape(c, s) && Shape(c, t) && AllReleased(c, s)
    requires t.adds == s.adds && t.pes == s.pes[c.calls[1][1] := Local(1, Idle, 0)]
    requires var p := c.calls[1][0]; t.words[p] == s.words[p] && t.puts[p] == s.puts[p]
    ensures Jammed(c, Exec(c, t, moves), c.calls[1][0])
  {
    var x, y := c.calls[0], c.calls[1];
    var p, q := y[0], y[1];
    var i := SlotOf(x, p);
    assert x[i] == p && p != x[0] && p != q;
    SlotOfMember(c.n, y, 1);
    moves := [DeliverPut(p, 0)] + [Enter(q), DeliverAdd(p)];
    ExecConcat(c, t, [DeliverPut(p, 0)], [Enter(q), DeliverAdd(p)]);
    ExecOne(c, t, DeliverPut(p, 0));
    var u := Step(c, t, DeliverPut(p, 0));
    assert u.words[p][0] == 1 && u.puts[p][0] == 0 && u.pes == t.pes && u.adds == t.adds;
    ExecTwo(c, u, Enter(q), DeliverAdd(p));
    var v := Step(c, u, Enter(q));
    assert v.adds[p] == 1 && v.words == u.words && v.puts == u.puts;
  }

  /** And the run ends with that root still in the first call. */
  lemma NeverEnds(c: Config) returns (moves: seq<Move>)
    requires TwoCalls(c) && Nested(c)
    ensures var s := Exec(c, Start(c), moves); Stuck(c, s) && !AllLeft(c, s)
  {
    var a := ReachJam(c);
    var s := Exec(c, Start(c), a);
    var b := RunsOut(c, s);
    JamRuns(c, s, c.calls[1][0], b);
    moves := a + b;
    ExecConcat(c, Start(c), a, b);
  }
}
