/**
 Barriers on calls that agree: every signal has a waiting member that sent it, so
 nobody leaves a barrier early, and some move has an effect until all is done.
 */
module BarrierInvariant {
  import opened SyncBarrier

  function Bit(b: bool): nat {
    if b then 1 else 0
  }

  /** Signals that exist for word i of PE p, under way or arrived. */
  function Pending(s: State, p: nat, i: nat): nat
    requires p < |s.words| == |s.puts| && i < |s.words[p]| == |s.puts[p]|
  {
    s.puts[p][i] + s.words[p][i]
  }

  /** The root has seen member i's arrival at call g. */
  predicate Seen(root: Local, g: nat, i: nat) {
    root.at > g || (root.at == g && (root.phase == Release || (root.phase == Collect && root.next > i)))
  }

  predicate Released(root: Local, g: nat, i: nat) {
    root.at > g || (root.at == g && root.phase == Release && root.next > i)
  }

  predicate WaitsAt(l: Local, g: nat) {
    l.at == g && l.phase == Waiting
  }

  /** Everything about member i of call g, but the root's counter. */
  predicate PairOk(c: Config, s: State, g: nat, i: nat)
    requires Shape(c, s) && g < |c.calls| && 1 <= i < |c.calls[g]|
  {
    var r, p := c.calls[g][0], c.calls[g][i];
    && (Seen(s.pes[r], g, i) ==> Entered(s.pes[p], g))
    && (HasLeft(s.pes[p], g) ==> Released(s.pes[r], g, i))
    && (WaitsAt(s.pes[p], g) ==>
          && (!Atomic(c.calls[g]) ==> Pending(s, r, i) == Bit(!Seen(s.pes[r], g, i)))
          && Pending(s, p, 0) == Bit(Released(s.pes[r], g, i)))
  }

  /** Word 0 of PE p counts the arrivals at call g. */
  predicate CountsAt(c: Config, p: nat, g: int)
    requires CallsOk(c)
  {
    0 <= g < |c.calls| && Atomic(c.calls[g]) && c.calls[g][0] == p
  }

  ghost predicate Counter(c: Config, p: nat)
    requires CallsOk(c)
  {
    exists g :: CountsAt(c, p, g)
  }

  predicate Sender(c: Config, s: State, r: nat, i: nat, g: int)
    requires Shape(c, s)
  {
    && 0 <= g < |c.calls| && !Atomic(c.calls[g]) && c.calls[g][0] == r && 1 <= i < |c.calls[g]|
    && WaitsAt(s.pes[c.calls[g][i]], g)
  }

  /** A signal at word i of PE r has a waiting member that sent it, and a release a
      waiting PE; only counters are added to. */
  ghost predicate SlotOk(c: Config, s: State, r: nat, i: nat)
    requires Shape(c, s) && r < c.n && i < c.n
  {
    if i > 0 then Pending(s, r, i) > 0 ==> exists g :: Sender(c, s, r, i, g)
    else if Counter(c, r) then s.puts[r][0] == 0
    else s.adds[r] == 0 && (Pending(s, r, 0) > 0 ==> s.pes[r].phase == Waiting)
  }

  /** PE p has added to root r's counter, and r has not seen it. */
  predicate Owes(c: Config, s: State, p: nat, r: nat)
    requires Shape(c, s) && p < c.n && r < c.n
  {
    var l := s.pes[p];
    l.phase == Waiting && Atomic(c.calls[l.at]) && c.calls[l.at][0] == r && !Seen(s.pes[r], l.at, 1)
  }

  /** How many of the members 1..k-1 of roster a owe their root. */
  function Owing(c: Config, s: State, a: seq<nat>, k: nat): nat
    requires Shape(c, s) && RosterOk(c.n, a) && k <= |a|
  {
    if k <= 1 then 0 else Owing(c, s, a, k - 1) + Bit(Owes(c, s, a[k - 1], a[0]))
  }

  predicate CountOk(c: Config, s: State, g: nat)
    requires Shape(c, s) && g < |c.calls|
  {
    var a := c.calls[g];
    Atomic(a) ==> s.adds[a[0]] + s.words[a[0]][0] == Owing(c, s, a, |a|)
  }

  ghost predicate Inv(c: Config, s: State) {
    && Shape(c, s) && AllAgree(c)
    && (forall g, i :: 0 <= g < |c.calls| && 1 <= i < |c.calls[g]| ==> PairOk(c, s, g, i))
    && (forall r, i :: 0 <= r < c.n && 0 <= i < c.n ==> SlotOk(c, s, r, i))
    && (forall g :: 0 <= g < |c.calls| ==> CountOk(c, s, g))
  }

  // ----- counting -----

  lemma {:induction false} OwingStays(c: Config, s: State, t: State, a: seq<nat>, k: nat)
    requires Shape(c, s) && Shape(c, t) && RosterOk(c.n, a) && k <= |a|
    requires forall i :: 1 <= i < k ==> Owes(c, s, a[i], a[0]) == Owes(c, t, a[i], a[0])
    ensures Owing(c, s, a, k) == Owing(c, t, a, k)
  {
    if k > 1 {
      OwingStays(c, s, t, a, k - 1);
    }
  }

  lemma {:induction false} OwingGrows(c: Config, s: State, t: State, a: seq<nat>, k: nat, j: nat)
    requires Shape(c, s) && Shape(c, t) && RosterOk(c.n, a) && 1 <= j < k <= |a|
    requires forall i :: 1 <= i < k && i != j ==> Owes(c, s, a[i], a[0]) == Owes(c, t, a[i], a[0])
    requires !Owes(c, s, a[j], a[0]) && Owes(c, t, a[j], a[0])
    ensures Owing(c, t, a, k) == Owing(c, s, a, k) + 1
  {
    if j == k - 1 {
      OwingStays(c, s, t, a, k - 1);
    } else {
      OwingGrows(c, s, t, a, k - 1, j);
    }
  }

  /** Not all owe iff the count is short. */
  lemma {:induction false} OwingAll(c: Config, s: State, a: seq<nat>, k: nat)
    requires Shape(c, s) && RosterOk(c.n, a) && 1 <= k <= |a|
    ensures Owing(c, s, a, k) <= k - 1
    ensures Owing(c, s, a, k) == k - 1 <==> forall i :: 1 <= i < k ==> Owes(c, s, a[i], a[0])
    ensures (forall i :: 1 <= i < k ==> !Owes(c, s, a[i], a[0])) ==> Owing(c, s, a, k) == 0
  {
    if k > 1 {
      OwingAll(c, s, a, k - 1);
    }
  }

  // ----- what stays as it is -----

  /** Waiting PEs stay, and new signals only release a waiting PE or are counted. */
  lemma SlotsStay(c: Config, s: State, t: State)
    requires Inv(c, s) && Shape(c, t) && t.adds == s.adds
    requires forall p :: 0 <= p < c.n && s.pes[p].phase == Waiting ==> t.pes[p] == s.pes[p]
    requires forall q, i :: 0 <= q < c.n && 0 <= i < c.n && Pending(t, q, i) > Pending(s, q, i) ==>
      i == 0 && !Counter(c, q) && t.pes[q].phase == Waiting
    requires forall q :: 0 <= q < c.n && Counter(c, q) ==> t.puts[q][0] <= s.puts[q][0]
    ensures forall r, i :: 0 <= r < c.n && 0 <= i < c.n ==> SlotOk(c, t, r, i)
  {
    forall r, i | 0 <= r < c.n && 0 <= i < c.n ensures SlotOk(c, t, r, i) {
      assert SlotOk(c, s, r, i);
      if Pending(t, r, i) > 0 && i > 0 {
        var g :| Sender(c, s, r, i, g);
        assert Sender(c, t, r, i, g);
      }
    }
  }

  lemma CountsStay(c: Config, s: State, t: State)
    requires Inv(c, s) && Shape(c, t) && t.adds == s.adds
    requires forall p, r :: 0 <= p < c.n && 0 <= r < c.n ==> Owes(c, t, p, r) == Owes(c, s, p, r)
    requires forall q :: 0 <= q < c.n && Counter(c, q) ==> t.words[q][0] == s.words[q][0]
    ensures forall g :: 0 <= g < |c.calls| ==> CountOk(c, t, g)
  {
    forall g | 0 <= g < |c.calls| ensures CountOk(c, t, g) {
      assert CountOk(c, s, g);
      if Atomic(c.calls[g]) {
        assert CountsAt(c, c.calls[g][0], g);
        OwingStays(c, s, t, c.calls[g], |c.calls[g]|);
      }
    }
  }

  /** A member that waits or may wait is no counter. */
  lemma MemberNoCounter(c: Config, g: nat, i: nat)
    requires CallsOk(c) && AllAgree(c) && g < |c.calls| && 1 <= i < |c.calls[g]|
    ensures !Counter(c, c.calls[g][i])
  {
    assert c.calls[g][i] == c.calls[g][1..][i - 1];
    forall h | 0 <= h < |c.calls| ensures !CountsAt(c, c.calls[g][i], h) {
      assert Agree(c.calls[h], c.calls[g]);
    }
  }

  // ----- every step keeps the invariant -----

  /** Steps in which PE p sends and receives nothing: passing over a call, entering
      as root, and the ends of the root's loops. */
  predicate QuietMove(c: Config, p: nat, l: Local, m: Local)
    requires CallsOk(c) && LocalOk(c, p, l)
  {
    match l.phase
    case Idle =>
      || (l.at < |c.calls| && p !in c.calls[l.at] && m == l.(at := l.at + 1))
      || m == l.(phase := Collect, next := 1)
    case Collect =>
      !Atomic(c.calls[l.at]) && l.next == |c.calls[l.at]| && m == l.(phase := Release, next := 1)
    case Release => l.next == |c.calls[l.at]| && m == Local(l.at + 1, Idle, 0)
    case Waiting => false
  }

  lemma QuietPairs(c: Config, s: State, p: nat, l: Local)
    requires Inv(c, s) && p < c.n && LocalOk(c, p, l) && QuietMove(c, p, s.pes[p], l)
    ensures var t := SetPe(s, p, l);
      Shape(c, t) && forall g, i :: 0 <= g < |c.calls| && 1 <= i < |c.calls[g]| ==> PairOk(c, t, g, i)
  {
    var t := SetPe(s, p, l);
    assert Shape(c, t);
    forall g, i | 0 <= g < |c.calls| && 1 <= i < |c.calls[g]| ensures PairOk(c, t, g, i) {
      assert PairOk(c, s, g, i);
      assert c.calls[g][0] in c.calls[g] && c.calls[g][i] in c.calls[g];
    }
  }

  lemma QuietOwes(c: Config, s: State, p: nat, l: Local, q: nat, r: nat)
    requires Shape(c, s) && p < c.n && q < c.n && r < c.n && LocalOk(c, p, l) && QuietMove(c, p, s.pes[p], l)
    ensures Shape(c, SetPe(s, p, l)) && Owes(c, SetPe(s, p, l), q, r) == Owes(c, s, q, r)
  {
    var k := s.pes[q].at;
    if s.pes[q].phase == Waiting {
      assert LocalOk(c, q, s.pes[q]);
      assert c.calls[k][0] in c.calls[k];
    }
  }

  lemma QuietInv(c: Config, s: State, p: nat, l: Local)
    requires Inv(c, s) && p < c.n && LocalOk(c, p, l) && QuietMove(c, p, s.pes[p], l)
    ensures Inv(c, SetPe(s, p, l))
  {
    var t := SetPe(s, p, l);
    QuietPairs(c, s, p, l);
    SlotsStay(c, s, t);
    forall q, r | 0 <= q < c.n && 0 <= r < c.n ensures Owes(c, t, q, r) == Owes(c, s, q, r) {
      QuietOwes(c, s, p, l, q, r);
    }
    CountsStay(c, s, t);
  }

  /** A member that is about to enter has no signal of its own anywhere. */
  lemma NothingPending(c: Config, s: State, g: nat, i: nat)
    requires Inv(c, s) && g < |c.calls| && 1 <= i < |c.calls[g]|
    requires s.pes[c.calls[g][i]].phase != Waiting
    ensures !Atomic(c.calls[g]) ==> Pending(s, c.calls[g][0], i) == 0
    ensures Pending(s, c.calls[g][i], 0) == 0
  {
    var r, p := c.calls[g][0], c.calls[g][i];
    assert SlotOk(c, s, r, i) && SlotOk(c, s, p, 0);
    MemberNoCounter(c, g, i);
    if !Atomic(c.calls[g]) {
      forall h | 0 <= h < |c.calls| ensures !Sender(c, s, r, i, h) {
        assert Agree(c.calls[g], c.calls[h]);
      }
    }
  }

  /** PE p is at a call in which it is a member other than the root. */
  predicate AboutToJoin(c: Config, s: State, p: nat)
    requires Shape(c, s) && p < c.n
  {
    var l := s.pes[p];
    l.phase == Idle && l.at < |c.calls| && p in c.calls[l.at] && c.calls[l.at][0] != p
  }

  lemma JoinPairs(c: Config, s: State, p: nat)
    requires Inv(c, s) && p < c.n && AboutToJoin(c, s, p)
    ensures var t := EnterStep(c, s, p);
      forall g, i :: 0 <= g < |c.calls| && 1 <= i < |c.calls[g]| ==> PairOk(c, t, g, i)
  {
    var t, g0 := EnterStep(c, s, p), s.pes[p].at;
    var i0 := SlotOf(c.calls[g0], p);
    NothingPending(c, s, g0, i0);
    forall g, i | 0 <= g < |c.calls| && 1 <= i < |c.calls[g]| ensures PairOk(c, t, g, i) {
      assert PairOk(c, s, g, i);
      assert PairOk(c, s, g0, i0);
      assert Agree(c.calls[g], c.calls[g0]);
    }
  }

  lemma JoinSlots(c: Config, s: State, p: nat)
    requires Inv(c, s) && p < c.n && AboutToJoin(c, s, p)
    ensures var t := EnterStep(c, s, p); forall r, i :: 0 <= r < c.n && 0 <= i < c.n ==> SlotOk(c, t, r, i)
  {
    var t, g0 := EnterStep(c, s, p), s.pes[p].at;
    var r0, i0 := c.calls[g0][0], SlotOf(c.calls[g0], p);
    assert Atomic(c.calls[g0]) ==> CountsAt(c, r0, g0);
    forall q, i | 0 <= q < c.n && 0 <= i < c.n ensures SlotOk(c, t, q, i) {
      assert SlotOk(c, s, q, i);
      if q == r0 && i == i0 && !Atomic(c.calls[g0]) {
        assert Sender(c, t, q, i, g0);
      } else if Pending(t, q, i) > 0 && i > 0 {
        var g :| Sender(c, s, q, i, g);
        assert Sender(c, t, q, i, g);
      }
    }
  }

  /** The joining member is the only one whose debt changes. */
  lemma JoinOwes(c: Config, s: State, p: nat, q: nat, r: nat)
    requires Inv(c, s) && p < c.n && AboutToJoin(c, s, p) && q < c.n && r < c.n
    ensures var t, a := EnterStep(c, s, p), c.calls[s.pes[p].at];
      Owes(c, t, q, r) == (Owes(c, s, q, r) || (q == p && r == a[0] && Atomic(a)))
    ensures !Owes(c, s, p, r)
  {
    var g0 := s.pes[p].at;
    assert PairOk(c, s, g0, SlotOf(c.calls[g0], p));
  }

  lemma JoinCounts(c: Config, s: State, p: nat, g: nat)
    requires Inv(c, s) && p < c.n && AboutToJoin(c, s, p) && g < |c.calls|
    ensures CountOk(c, EnterStep(c, s, p), g)
  {
    var t, a, b := EnterStep(c, s, p), c.calls[g], c.calls[s.pes[p].at];
    assert CountOk(c, s, g);
    forall i | 1 <= i < |a|
      ensures Owes(c, t, a[i], a[0]) == (Owes(c, s, a[i], a[0]) || (a[i] == p && a[0] == b[0] && Atomic(b)))
      ensures a[i] == p ==> !Owes(c, s, a[i], a[0])
    {
      JoinOwes(c, s, p, a[i], a[0]);
    }
    if Atomic(a) && Atomic(b) && a[0] == b[0] {
      assert Agree(a, b);
      OwingGrows(c, s, t, a, |a|, SlotOf(a, p));
    } else if Atomic(a) {
      OwingStays(c, s, t, a, |a|);
    }
  }

  lemma JoinInv(c: Config, s: State, p: nat)
    requires Inv(c, s) && p < c.n && AboutToJoin(c, s, p)
    ensures Inv(c, EnterStep(c, s, p))
  {
    JoinPairs(c, s, p);
    JoinSlots(c, s, p);
    forall g | 0 <= g < |c.calls| ensures CountOk(c, EnterStep(c, s, p), g) {
      JoinCounts(c, s, p, g);
    }
  }

  /** The root looks at a word that holds 1, in the direct algorithm. */
  predicate SeesWord(c: Config, s: State, p: nat)
    requires Shape(c, s) && p < c.n
  {
    var l := s.pes[p];
    l.phase == Collect && !Atomic(c.calls[l.at]) && l.next < |c.calls[l.at]| && s.words[p][l.next] == 1
  }

  /** The word the root sees is from the member it waits for, at this call. */
  lemma RightSender(c: Config, s: State, p: nat)
    requires Inv(c, s) && p < c.n && SeesWord(c, s, p)
    ensures WaitsAt(s.pes[c.calls[s.pes[p].at][s.pes[p].next]], s.pes[p].at)
    ensures Pending(s, p, s.pes[p].next) == 1
  {
    var g, i := s.pes[p].at, s.pes[p].next;
    assert SlotOk(c, s, p, i);
    var h :| Sender(c, s, p, i, h);
    assert Agree(c.calls[g], c.calls[h]);
    assert PairOk(c, s, h, i) && PairOk(c, s, g, i);
  }

  lemma SeePairs(c: Config, s: State, p: nat)
    requires Inv(c, s) && p < c.n && SeesWord(c, s, p)
    ensures var t := CollectStep(c, s, p);
      forall g, i :: 0 <= g < |c.calls| && 1 <= i < |c.calls[g]| ==> PairOk(c, t, g, i)
  {
    var t, g0 := CollectStep(c, s, p), s.pes[p].at;
    RightSender(c, s, p);
    forall g, i | 0 <= g < |c.calls| && 1 <= i < |c.calls[g]| ensures PairOk(c, t, g, i) {
      assert PairOk(c, s, g, i);
      assert Agree(c.calls[g], c.calls[g0]);
    }
  }

  lemma SeeInv(c: Config, s: State, p: nat)
    requires Inv(c, s) && p < c.n && SeesWord(c, s, p)
    ensures Inv(c, CollectStep(c, s, p))
  {
    var t := CollectStep(c, s, p);
    SeePairs(c, s, p);
    SlotsStay(c, s, t);
    CountsStay(c, s, t);
  }

  /** The root's counter is complete, in the atomic algorithm. */
  predicate SeesCount(c: Config, s: State, p: nat)
    requires Shape(c, s) && p < c.n
  {
    var l := s.pes[p];
    l.phase == Collect && Atomic(c.calls[l.at]) && s.words[p][0] == |c.calls[l.at]| - 1
  }

  /** Then every member waits at this call, and nothing is under way to the counter. */
  lemma AllHaveCome(c: Config, s: State, p: nat, i: nat)
    requires Inv(c, s) && p < c.n && SeesCount(c, s, p) && 1 <= i < |c.calls[s.pes[p].at]|
    ensures WaitsAt(s.pes[c.calls[s.pes[p].at][i]], s.pes[p].at) && s.adds[p] == 0
  {
    var g := s.pes[p].at;
    var a := c.calls[g];
    assert CountOk(c, s, g);
    OwingAll(c, s, a, |a|);
    assert Owes(c, s, a[i], a[0]);
    assert PairOk(c, s, g, i);
  }

  lemma CountPairs(c: Config, s: State, p: nat)
    requires Inv(c, s) && p < c.n && SeesCount(c, s, p)
    ensures var t := CollectStep(c, s, p);
      forall g, i :: 0 <= g < |c.calls| && 1 <= i < |c.calls[g]| ==> PairOk(c, t, g, i)
  {
    var t, g0 := CollectStep(c, s, p), s.pes[p].at;
    assert CountsAt(c, p, g0);
    forall g, i | 0 <= g < |c.calls| && 1 <= i < |c.calls[g]| ensures PairOk(c, t, g, i) {
      assert PairOk(c, s, g, i);
      MemberNoCounter(c, g, i);
      if g == g0 {
        AllHaveCome(c, s, p, i);
      }
    }
  }

  lemma CountCounts(c: Config, s: State, p: nat, g: nat)
    requires Inv(c, s) && p < c.n && SeesCount(c, s, p) && g < |c.calls|
    ensures CountOk(c, CollectStep(c, s, p), g)
  {
    var t, g0, a := CollectStep(c, s, p), s.pes[p].at, c.calls[g];
    assert CountOk(c, s, g);
    AllHaveCome(c, s, p, 1);
    if Atomic(a) && a[0] == p {
      assert Agree(a, c.calls[g0]);
      forall i | 1 <= i < |a| ensures !Owes(c, t, a[i], a[0]) {
        AllHaveCome(c, s, p, i);
      }
      OwingAll(c, t, a, |a|);
    } else if Atomic(a) {
      OwingStays(c, s, t, a, |a|);
    }
  }

  lemma CountInv(c: Config, s: State, p: nat)
    requires Inv(c, s) && p < c.n && SeesCount(c, s, p)
    ensures Inv(c, CollectStep(c, s, p))
  {
    var t := CollectStep(c, s, p);
    CountPairs(c, s, p);
    SlotsStay(c, s, t);
    forall g | 0 <= g < |c.calls| ensures CountOk(c, t, g) {
      CountCounts(c, s, p, g);
    }
  }

  lemma ReleasePairs(c: Config, s: State, p: nat)
    requires Inv(c, s) && p < c.n && s.pes[p].phase == Release && s.pes[p].next < |c.calls[s.pes[p].at]|
    ensures var t := ReleaseStep(c, s, p);
      forall g, i :: 0 <= g < |c.calls| && 1 <= i < |c.calls[g]| ==> PairOk(c, t, g, i)
  {
    var t, g0, i0 := ReleaseStep(c, s, p), s.pes[p].at, s.pes[p].next;
    assert PairOk(c, s, g0, i0);
    forall g, i | 0 <= g < |c.calls| && 1 <= i < |c.calls[g]| ensures PairOk(c, t, g, i) {
      assert PairOk(c, s, g, i);
    }
  }

  lemma ReleaseInv(c: Config, s: State, p: nat)
    requires Inv(c, s) && p < c.n && s.pes[p].phase == Release && s.pes[p].next < |c.calls[s.pes[p].at]|
    ensures Inv(c, ReleaseStep(c, s, p))
  {
    var t, g0, i0 := ReleaseStep(c, s, p), s.pes[p].at, s.pes[p].next;
    ReleasePairs(c, s, p);
    assert PairOk(c, s, g0, i0);
    MemberNoCounter(c, g0, i0);
    SlotsStay(c, s, t);
    CountsStay(c, s, t);
  }

  lemma LeavePairs(c: Config, s: State, p: nat)
    requires Inv(c, s) && p < c.n && s.pes[p].phase == Waiting && s.words[p][0] == 1
    ensures var t := RunStep(c, s, p);
      forall g, i :: 0 <= g < |c.calls| && 1 <= i < |c.calls[g]| ==> PairOk(c, t, g, i)
  {
    var t, g0 := RunStep(c, s, p), s.pes[p].at;
    assert PairOk(c, s, g0, SlotOf(c.calls[g0], p));
    forall g, i | 0 <= g < |c.calls| && 1 <= i < |c.calls[g]| ensures PairOk(c, t, g, i) {
      assert PairOk(c, s, g, i);
    }
  }

  lemma LeaveSlots(c: Config, s: State, p: nat)
    requires Inv(c, s) && p < c.n && s.pes[p].phase == Waiting && s.words[p][0] == 1
    ensures var t := RunStep(c, s, p); forall r, i :: 0 <= r < c.n && 0 <= i < c.n ==> SlotOk(c, t, r, i)
  {
    var t, g0 := RunStep(c, s, p), s.pes[p].at;
    assert PairOk(c, s, g0, SlotOf(c.calls[g0], p));
    forall q, i | 0 <= q < c.n && 0 <= i < c.n ensures SlotOk(c, t, q, i) {
      assert SlotOk(c, s, q, i);
      if Pending(t, q, i) > 0 && i > 0 {
        var g :| Sender(c, s, q, i, g);
        assert PairOk(c, s, g, i);
        assert Sender(c, t, q, i, g);
      }
    }
  }

  lemma LeaveInv(c: Config, s: State, p: nat)
    requires Inv(c, s) && p < c.n && s.pes[p].phase == Waiting && s.words[p][0] == 1
    ensures Inv(c, RunStep(c, s, p))
  {
    var t, g0 := RunStep(c, s, p), s.pes[p].at;
    var i0 := SlotOf(c.calls[g0], p);
    LeavePairs(c, s, p);
    LeaveSlots(c, s, p);
    assert PairOk(c, s, g0, i0);
    MemberNoCounter(c, g0, i0);
    CountsStay(c, s, t);
  }

  /** No word is written twice without being seen. */
  lemma PendingAtMostOne(c: Config, s: State, p: nat, i: nat)
    requires Inv(c, s) && p < c.n && i < c.n && (i > 0 || !Counter(c, p))
    ensures Pending(s, p, i) <= 1
  {
    assert SlotOk(c, s, p, i);
    if Pending(s, p, i) > 0 {
      if i == 0 {
        var g := s.pes[p].at;
        assert PairOk(c, s, g, SlotOf(c.calls[g], p));
      } else {
        var g :| Sender(c, s, p, i, g);
        assert PairOk(c, s, g, i);
      }
    }
  }

  /** Deliveries move signals without making or losing any. */
  lemma DeliveredInv(c: Config, s: State, t: State)
    requires Inv(c, s) && Shape(c, t) && t.pes == s.pes
    requires forall q, i :: 0 <= q < c.n && 0 <= i < c.n && (i > 0 || !Counter(c, q)) ==>
      Pending(t, q, i) == Pending(s, q, i)
    requires forall q :: 0 <= q < c.n ==>
      if Counter(c, q) then t.puts[q][0] == 0 && t.adds[q] + t.words[q][0] == s.adds[q] + s.words[q][0]
      else t.adds[q] == s.adds[q]
    ensures Inv(c, t)
  {
    forall g, i | 0 <= g < |c.calls| && 1 <= i < |c.calls[g]| ensures PairOk(c, t, g, i) {
      assert PairOk(c, s, g, i);
      MemberNoCounter(c, g, i);
    }
    forall r, i | 0 <= r < c.n && 0 <= i < c.n ensures SlotOk(c, t, r, i) {
      assert SlotOk(c, s, r, i);
      if Pending(t, r, i) > 0 && i > 0 {
        var g :| Sender(c, s, r, i, g);
        assert Sender(c, t, r, i, g);
      }
    }
    forall g | 0 <= g < |c.calls| ensures CountOk(c, t, g) {
      assert CountOk(c, s, g);
      if Atomic(c.calls[g]) {
        assert CountsAt(c, c.calls[g][0], g);
        OwingStays(c, s, t, c.calls[g], |c.calls[g]|);
      }
    }
  }

  lemma PutInv(c: Config, s: State, p: nat, i0: nat)
    requires Inv(c, s) && p < c.n && i0 < c.n
    ensures Inv(c, PutStep(c, s, p, i0))
  {
    assert SlotOk(c, s, p, i0);
    if s.puts[p][i0] > 0 {
      var t := PutStep(c, s, p, i0);
      PendingAtMostOne(c, s, p, i0);
      forall q | 0 <= q < c.n && Counter(c, q) ensures t.puts[q][0] == 0 && t.words[q][0] == s.words[q][0] {
        assert SlotOk(c, s, q, 0);
      }
      DeliveredInv(c, s, t);
    }
  }

  lemma AddInv(c: Config, s: State, p: nat)
    requires Inv(c, s) && p < c.n
    ensures Inv(c, AddStep(c, s, p))
  {
    assert SlotOk(c, s, p, 0);
    if s.adds[p] > 0 {
      var t := AddStep(c, s, p);
      forall q | 0 <= q < c.n && Counter(c, q) ensures t.puts[q][0] == 0 {
        assert SlotOk(c, s, q, 0);
      }
      DeliveredInv(c, s, t);
    }
  }

  lemma RunInv(c: Config, s: State, p: nat)
    requires Inv(c, s) && p < c.n
    ensures Inv(c, RunStep(c, s, p))
  {
    var l := s.pes[p];
    match l.phase
    case Idle =>
    case Collect =>
      if SeesCount(c, s, p) {
        CountInv(c, s, p);
      } else if SeesWord(c, s, p) {
        SeeInv(c, s, p);
      } else if !Atomic(c.calls[l.at]) && l.next == |c.calls[l.at]| {
        QuietInv(c, s, p, l.(phase := Release, next := 1));
      }
    case Release =>
      if l.next == |c.calls[l.at]| {
        QuietInv(c, s, p, Local(l.at + 1, Idle, 0));
      } else {
        ReleaseInv(c, s, p);
      }
    case Waiting => if s.words[p][0] == 1 { LeaveInv(c, s, p); }
  }

  lemma EnterInv(c: Config, s: State, p: nat)
    requires Inv(c, s) && p < c.n
    ensures Inv(c, EnterStep(c, s, p))
  {
    var l := s.pes[p];
    if l.phase == Idle && l.at < |c.calls| {
      var i := SlotOf(c.calls[l.at], p);
      if i == |c.calls[l.at]| {
        QuietInv(c, s, p, l.(at := l.at + 1));
      } else if i == 0 {
        QuietInv(c, s, p, l.(phase := Collect, next := 1));
      } else {
        JoinInv(c, s, p);
      }
    }
  }

  lemma StepInv(c: Config, s: State, m: Move)
    requires Inv(c, s)
    ensures Inv(c, Step(c, s, m))
  {
    if m.p < c.n {
      match m
      case Enter(p) => EnterInv(c, s, p);
      case Run(p) => RunInv(c, s, p);
      case DeliverPut(p, i) => if i < c.n { PutInv(c, s, p, i); }
      case DeliverAdd(p) => AddInv(c, s, p);
    }
  }

  lemma {:induction false} ExecInv(c: Config, s: State, moves: seq<Move>)
    requires Inv(c, s)
    ensures Inv(c, Exec(c, s, moves))
    decreases |moves|
  {
    if moves != [] {
      StepInv(c, s, moves[0]);
      ExecInv(c, Step(c, s, moves[0]), moves[1..]);
    }
  }

  lemma StartInv(c: Config)
    requires CallsOk(c) && AllAgree(c)
    ensures Inv(c, Start(c))
  {
    var s := Start(c);
    forall g | 0 <= g < |c.calls| ensures CountOk(c, s, g) {
      OwingAll(c, s, c.calls[g], |c.calls[g]|);
    }
  }

  /** The barrier contract, for any program of barriers that agree: nobody leaves a
      barrier before every member has entered it. */
  lemma {:induction false} NobodyLeavesEarly(c: Config, moves: seq<Move>)
    requires CallsOk(c) && AllAgree(c)
    ensures Safe(c, Exec(c, Start(c), moves))
  {
    StartInv(c);
    ExecInv(c, Start(c), moves);
    var s := Exec(c, Start(c), moves);
    forall g, i, k | 0 <= g < |c.calls| && 0 <= i < |c.calls[g]| && 0 <= k < |c.calls[g]|
                     && HasLeft(s.pes[c.calls[g][i]], g)
      ensures Entered(s.pes[c.calls[g][k]], g)
    {
      assert i > 0 ==> PairOk(c, s, g, i);
      assert k > 0 ==> PairOk(c, s, g, k);
    }
  }

  /** No zeroing of a word loses a signal: of a flag at most one exists, and a
      counter never exceeds the number of other members. */
  lemma {:induction false} NoSignalLost(c: Config, moves: seq<Move>, p: nat, i: nat, g: nat)
    requires CallsOk(c) && AllAgree(c) && p < c.n && i < c.n && g < |c.calls|
    ensures var s := Exec(c, Start(c), moves);
      && (i > 0 || !Counter(c, p) ==> Pending(s, p, i) <= 1)
      && (CountsAt(c, p, g) ==> s.puts[p][0] == 0 && s.adds[p] + s.words[p][0] <= |c.calls[g]| - 1)
  {
    StartInv(c);
    ExecInv(c, Start(c), moves);
    var s := Exec(c, Start(c), moves);
    if i > 0 || !Counter(c, p) {
      PendingAtMostOne(c, s, p, i);
    }
    if CountsAt(c, p, g) {
      assert SlotOk(c, s, p, 0) && CountOk(c, s, g);
      OwingAll(c, s, c.calls[g], |c.calls[g]|);
    }
  }
}
