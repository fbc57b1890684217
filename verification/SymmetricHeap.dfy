/**
 The collective symmetric heap. Every PE runs the same list of allocations and
 releases; `malloc` is a local heap step followed by a barrier, `free` a barrier
 followed by a local heap step. The barrier first completes the caller's own
 remote writes, then waits until every PE has arrived. Remote writes are
 asynchronous: a put stays in flight until some later delivery move.
 */
module SymmetricHeap {
  import opened Sums

  /** Any deterministic allocator over heap states H. */
  datatype Allocator<!H> = Allocator(init: H, alloc: (H, nat) -> (H, int), free: (H, int) -> H)

  /** `Free(k)` releases what operation k returned. */
  datatype Op = Malloc(size: nat) | Free(k: nat)

  predicate FreesAt(ops: seq<Op>, f: nat, k: nat) {
    f < |ops| && ops[f] == Free(k)
  }

  datatype Part = HeapStep | Arrive | Leave

  datatype Phase = First | Second | Third

  /** About to do the given phase of operation `op`. */
  datatype Pc = Pc(op: nat, phase: Phase) {
    function Next(): Pc {
      match phase case First => Pc(op, Second) case Second => Pc(op, Third) case Third => Pc(op + 1, First)
    }

    function Rank(): nat {
      3 * op + match phase case First => 0 case Second => 1 case Third => 2
    }
  }

  datatype Pe<H> = Pe(pc: Pc, heap: H, ptr: map<nat, int>)

  datatype Put = Put(src: nat, dst: nat, obj: nat)

  datatype State<H> = State(pes: seq<Pe<H>>, flight: seq<Put>)

  datatype Move = Advance(pe: nat) | Issue(put: Put) | Deliver(index: nat)

  function PartAt(op: Op, phase: Phase): Part {
    match phase
    case First => if op.Malloc? then HeapStep else Arrive
    case Second => if op.Malloc? then Arrive else Leave
    case Third => if op.Malloc? then Leave else HeapStep
  }

  /** How many operations have had the given part done by a PE at `pc`. */
  function Count(ops: seq<Op>, pc: Pc, part: Part): nat {
    if pc.op >= |ops| then |ops|
    else pc.op + (if (pc.phase != First && PartAt(ops[pc.op], First) == part) ||
                     (pc.phase == Third && PartAt(ops[pc.op], Second) == part) then 1 else 0)
  }

  function HeapCount(ops: seq<Op>, pc: Pc): nat { Count(ops, pc, HeapStep) }

  /** The heap effect of operation k. */
  function Apply<H>(a: Allocator<H>, op: Op, k: nat, heap: H, ptr: map<nat, int>): (H, map<nat, int>) {
    match op
    case Malloc(size) => var (h, p) := a.alloc(heap, size); (h, ptr[k := p])
    case Free(j) => if j in ptr then (a.free(heap, ptr[j]), ptr) else (heap, ptr)
  }

  function AdvancePe<H>(a: Allocator<H>, ops: seq<Op>, s: State<H>, p: nat): (r: State<H>)
    requires p < |s.pes|
    ensures |r.pes| == |s.pes|
  {
    var me := s.pes[p];
    var k := me.pc.op;
    if k >= |ops| then s else
    match PartAt(ops[k], me.pc.phase)
    case HeapStep =>
      var (h, ptr) := Apply(a, ops[k], k, me.heap, me.ptr);
      s.(pes := s.pes[p := Pe(me.pc.Next(), h, ptr)])
    case Arrive =>
      if exists i :: 0 <= i < |s.flight| && s.flight[i].src == p then s
      else s.(pes := s.pes[p := me.(pc := me.pc.Next())])
    case Leave =>
      if forall q :: 0 <= q < |s.pes| ==> Count(ops, s.pes[q].pc, Arrive) > k
      then s.(pes := s.pes[p := me.(pc := me.pc.Next())]) else s
  }

  /** The PE's malloc k has returned and it has not called free on k yet. */
  predicate Owns(ops: seq<Op>, pc: Pc, k: nat) {
    && k < |ops| && ops[k].Malloc? && pc.op > k
    && forall f :: 0 <= f < |ops| && FreesAt(ops, f, k) ==> pc.op < f || pc == Pc(f, First)
  }

  function Step<H>(a: Allocator<H>, ops: seq<Op>, s: State<H>, m: Move): (r: State<H>)
    ensures |r.pes| == |s.pes|
  {
    match m
    case Advance(p) => if p < |s.pes| then AdvancePe(a, ops, s, p) else s
    case Issue(put) =>
      if put.src < |s.pes| && put.dst < |s.pes| && Owns(ops, s.pes[put.src].pc, put.obj)
      then s.(flight := s.flight + [put]) else s
    case Deliver(i) =>
      if i < |s.flight| then s.(flight := s.flight[..i] + s.flight[i + 1..]) else s
  }

  function Exec<H>(a: Allocator<H>, ops: seq<Op>, s: State<H>, moves: seq<Move>): (r: State<H>)
    ensures |r.pes| == |s.pes|
    decreases |moves|
  {
    if moves == [] then s else Exec(a, ops, Step(a, ops, s, moves[0]), moves[1..])
  }

  function Init<H>(a: Allocator<H>, n: nat): State<H> {
    State(seq(n, _ => Pe(Pc(0, First), a.init, map[])), [])
  }

  // ----- specification: the operation list run by a single PE -----

  function After<H>(a: Allocator<H>, ops: seq<Op>, h: nat): (H, map<nat, int>)
    requires h <= |ops|
  {
    if h == 0 then (a.init, map[])
    else var (heap, ptr) := After(a, ops, h - 1); Apply(a, ops[h - 1], h - 1, heap, ptr)
  }

  /** Heap steps done by this PE include that of malloc k and not that of its free. */
  predicate HasObject(ops: seq<Op>, pc: Pc, k: nat) {
    k < HeapCount(ops, pc) && forall f :: 0 <= f < |ops| && FreesAt(ops, f, k) ==> HeapCount(ops, pc) <= f
  }

  // ----- invariant -----

  predicate BarrierOrder<H>(ops: seq<Op>, s: State<H>) {
    forall p, q :: 0 <= p < |s.pes| && 0 <= q < |s.pes| ==>
      Count(ops, s.pes[p].pc, Leave) <= Count(ops, s.pes[q].pc, Arrive)
  }

  predicate PutsOwned<H>(ops: seq<Op>, s: State<H>) {
    forall i :: 0 <= i < |s.flight| ==>
      var put := s.flight[i];
      put.src < |s.pes| && put.dst < |s.pes| && Owns(ops, s.pes[put.src].pc, put.obj)
  }

  ghost predicate LocalHeaps<H>(a: Allocator<H>, ops: seq<Op>, s: State<H>) {
    forall p :: 0 <= p < |s.pes| ==>
      (s.pes[p].heap, s.pes[p].ptr) == After(a, ops, HeapCount(ops, s.pes[p].pc))
  }

  ghost predicate Inv<H>(a: Allocator<H>, ops: seq<Op>, s: State<H>) {
    BarrierOrder(ops, s) && PutsOwned(ops, s) && LocalHeaps(a, ops, s)
  }

  /** One part of one operation adds one to exactly its own count. */
  lemma CountNext(ops: seq<Op>, pc: Pc, part: Part)
    requires pc.op < |ops|
    ensures Count(ops, pc.Next(), part) ==
            Count(ops, pc, part) + (if PartAt(ops[pc.op], pc.phase) == part then 1 else 0)
    ensures PartAt(ops[pc.op], pc.phase) == part ==> Count(ops, pc, part) == pc.op
  {
  }

  lemma AdvanceBarrier<H>(a: Allocator<H>, ops: seq<Op>, s: State<H>, p: nat)
    requires BarrierOrder(ops, s) && p < |s.pes|
    ensures BarrierOrder(ops, AdvancePe(a, ops, s, p))
  {
    var pc, r := s.pes[p].pc, AdvancePe(a, ops, s, p);
    if r.pes[p].pc != pc {
      CountNext(ops, pc, Arrive);
      CountNext(ops, pc, Leave);
      assert forall q :: 0 <= q < |s.pes| && q != p ==> r.pes[q] == s.pes[q];
    }
  }

  lemma NotArriving<H>(ops: seq<Op>, s: State<H>, p: nat, i: nat)
    requires p < |s.pes| && s.pes[p].pc.op < |ops| && i < |s.flight| && s.flight[i].src == p
    requires Owns(ops, s.pes[p].pc, s.flight[i].obj) && PartAt(ops[s.pes[p].pc.op], s.pes[p].pc.phase) != Arrive
    ensures Owns(ops, s.pes[p].pc.Next(), s.flight[i].obj)
  {
  }

  /** A PE that still has a put in flight cannot arrive, so it keeps its objects. */
  lemma AdvancePuts<H>(a: Allocator<H>, ops: seq<Op>, s: State<H>, p: nat)
    requires PutsOwned(ops, s) && p < |s.pes|
    ensures PutsOwned(ops, AdvancePe(a, ops, s, p))
  {
    var r := AdvancePe(a, ops, s, p);
    forall i | 0 <= i < |r.flight| ensures Owns(ops, r.pes[r.flight[i].src].pc, r.flight[i].obj) {
      var put := s.flight[i];
      if put.src == p && r.pes[p].pc != s.pes[p].pc {
        NotArriving(ops, s, p, i);
      }
    }
  }

  lemma AdvanceHeaps<H>(a: Allocator<H>, ops: seq<Op>, s: State<H>, p: nat)
    requires LocalHeaps(a, ops, s) && p < |s.pes|
    ensures LocalHeaps(a, ops, AdvancePe(a, ops, s, p))
  {
    if s.pes[p].pc.op < |ops| {
      CountNext(ops, s.pes[p].pc, HeapStep);
    }
  }

  lemma StepInv<H>(a: Allocator<H>, ops: seq<Op>, s: State<H>, m: Move)
    requires Inv(a, ops, s)
    ensures Inv(a, ops, Step(a, ops, s, m))
  {
    match m
    case Advance(p) =>
      if p < |s.pes| {
        AdvanceBarrier(a, ops, s, p);
        AdvancePuts(a, ops, s, p);
        AdvanceHeaps(a, ops, s, p);
      }
    case _ =>
  }

  lemma {:induction false} ExecInv<H>(a: Allocator<H>, ops: seq<Op>, s: State<H>, moves: seq<Move>)
    requires Inv(a, ops, s)
    ensures Inv(a, ops, Exec(a, ops, s, moves))
    decreases |moves|
  {
    if moves != [] {
      StepInv(a, ops, s, moves[0]);
      ExecInv(a, ops, Step(a, ops, s, moves[0]), moves[1..]);
    }
  }

  lemma {:induction false} Reachable<H>(a: Allocator<H>, ops: seq<Op>, n: nat, moves: seq<Move>)
    ensures Inv(a, ops, Exec(a, ops, Init(a, n), moves))
  {
    ExecInv(a, ops, Init(a, n), moves);
  }

  // ----- symmetric objects -----

  lemma ArriveAfterMalloc(ops: seq<Op>, pc: Pc, k: nat)
    requires k < |ops| && ops[k].Malloc? && Count(ops, pc, Arrive) > k
    ensures HeapCount(ops, pc) > k
  {
  }

  lemma FreeAfterLeave(ops: seq<Op>, pc: Pc, f: nat)
    requires f < |ops| && ops[f].Free? && Count(ops, pc, Leave) <= f
    ensures HeapCount(ops, pc) <= f
  {
  }

  lemma OwnerCounts(ops: seq<Op>, pc: Pc, k: nat)
    requires Owns(ops, pc, k)
    ensures Count(ops, pc, Leave) > k
    ensures forall f :: 0 <= f < |ops| && FreesAt(ops, f, k) ==> Count(ops, pc, Arrive) <= f
  {
  }

  /** An address, once assigned, is the same whenever it is looked at. */
  lemma {:induction false} PtrStable<H>(a: Allocator<H>, ops: seq<Op>, k: nat, h: nat)
    requires k < h <= |ops| && ops[k].Malloc?
    ensures k in After(a, ops, h).1 && After(a, ops, h).1[k] == After(a, ops, k + 1).1[k]
    decreases h
  {
    if h > k + 1 {
      PtrStable(a, ops, k, h - 1);
    }
  }

  lemma HeapCountBound(ops: seq<Op>, pc: Pc)
    ensures HeapCount(ops, pc) <= |ops|
  {
  }

  /** Symmetric addresses: in every interleaving all PEs that have done malloc k
      got the same offset from it, the one a single PE running alone would get. */
  lemma SymmetricAddresses<H>(a: Allocator<H>, ops: seq<Op>, n: nat, moves: seq<Move>, p: nat, k: nat)
    requires p < n && k < |ops| && ops[k].Malloc?
    requires k < HeapCount(ops, Exec(a, ops, Init(a, n), moves).pes[p].pc)
    ensures var ptr := Exec(a, ops, Init(a, n), moves).pes[p].ptr;
      k in ptr && ptr[k] == After(a, ops, k + 1).1[k]
  {
    Reachable(a, ops, n, moves);
    var pc := Exec(a, ops, Init(a, n), moves).pes[p].pc;
    HeapCountBound(ops, pc);
    PtrStable(a, ops, k, HeapCount(ops, pc));
  }

  /** A put in flight, at any moment of any run, is to an object that its target
      has allocated and not yet released, at the address its sender knows. */
  lemma {:induction false} PutsLandOnLiveObjects<H>(a: Allocator<H>, ops: seq<Op>, n: nat, moves: seq<Move>, i: nat)
    requires i < |Exec(a, ops, Init(a, n), moves).flight|
    ensures var s := Exec(a, ops, Init(a, n), moves);
      var put := s.flight[i];
      && put.src < n && put.dst < n
      && HasObject(ops, s.pes[put.dst].pc, put.obj)
      && put.obj in s.pes[put.src].ptr && put.obj in s.pes[put.dst].ptr
      && s.pes[put.src].ptr[put.obj] == s.pes[put.dst].ptr[put.obj]
  {
    Reachable(a, ops, n, moves);
    var s := Exec(a, ops, Init(a, n), moves);
    var put := s.flight[i];
    var src, dst, k := s.pes[put.src].pc, s.pes[put.dst].pc, put.obj;
    OwnerCounts(ops, src, k);
    ArriveAfterMalloc(ops, dst, k);
    ArriveAfterMalloc(ops, src, k);
    forall f | 0 <= f < |ops| && FreesAt(ops, f, k) ensures HeapCount(ops, dst) <= f {
      FreeAfterLeave(ops, dst, f);
    }
    SymmetricAddresses(a, ops, n, moves, put.src, k);
    SymmetricAddresses(a, ops, n, moves, put.dst, k);
  }

  // ----- skew -----

  /** A release directly followed by an allocation. */
  predicate FreeThenMalloc(ops: seq<Op>, k: nat) {
    k + 1 < |ops| && ops[k].Free? && ops[k + 1].Malloc?
  }

  /** No PE is ever more than two heap steps ahead, and two only across a
      release that is directly followed by an allocation. */
  lemma {:induction false} SkewAtMostTwo<H>(a: Allocator<H>, ops: seq<Op>, n: nat, moves: seq<Move>, p: nat, q: nat)
    requires p < n && q < n
    ensures var s := Exec(a, ops, Init(a, n), moves);
      var hp, hq := HeapCount(ops, s.pes[p].pc), HeapCount(ops, s.pes[q].pc);
      hp <= hq + 2 && (hp == hq + 2 ==> FreeThenMalloc(ops, hq))
  {
    Reachable(a, ops, n, moves);
    var s := Exec(a, ops, Init(a, n), moves);
    SkewOfCounts(ops, s.pes[p].pc, s.pes[q].pc);
  }

  lemma SkewOfCounts(ops: seq<Op>, pc: Pc, pd: Pc)
    requires Count(ops, pc, Leave) <= Count(ops, pd, Arrive)
    ensures var hp, hq := HeapCount(ops, pc), HeapCount(ops, pd);
      hp <= hq + 2 && (hp == hq + 2 ==> FreeThenMalloc(ops, hq))
  {
  }

  lemma {:induction false} ExecConcat<H>(a: Allocator<H>, ops: seq<Op>, s: State<H>, x: seq<Move>, y: seq<Move>)
    ensures Exec(a, ops, s, x + y) == Exec(a, ops, Exec(a, ops, s, x), y)
    decreases |x|
  {
    if x == [] {
      assert x + y == y;
    } else {
      assert (x + y)[1..] == x[1..] + y;
      ExecConcat(a, ops, Step(a, ops, s, x[0]), x[1..], y);
    }
  }

  ghost predicate AllAt<H>(s: State<H>, done: nat, pc: Pc) {
    && s.flight == []
    && (forall p :: 0 <= p < |s.pes| ==> s.pes[p].pc == if p < done then pc.Next() else pc)
  }

  /** PEs done, done + 1, ... each do their next part. */
  lemma {:induction false} AdvanceRest<H>(a: Allocator<H>, ops: seq<Op>, s: State<H>, done: nat, pc: Pc)
      returns (moves: seq<Move>)
    requires done <= |s.pes| && pc.op < |ops| && AllAt(s, done, pc)
    ensures AllAt(Exec(a, ops, s, moves), 0, pc.Next())
    decreases |s.pes| - done
  {
    if done == |s.pes| {
      moves := [];
    } else {
      CountNext(ops, pc, Arrive);
      var rest := AdvanceRest(a, ops, Step(a, ops, s, Advance(done)), done + 1, pc);
      moves := [Advance(done)] + rest;
      assert moves[1..] == rest;
    }
  }

  /** All PEs can reach any point of the list together. */
  lemma {:induction false} Together<H>(a: Allocator<H>, ops: seq<Op>, n: nat, pc: Pc) returns (moves: seq<Move>)
    requires pc.op < |ops| || pc == Pc(|ops|, First)
    ensures AllAt(Exec(a, ops, Init(a, n), moves), 0, pc)
    decreases pc.Rank()
  {
    if pc == Pc(0, First) {
      moves := [];
    } else {
      var prev := match pc.phase
        case First => Pc(pc.op - 1, Third)
        case Second => Pc(pc.op, First)
        case Third => Pc(pc.op, Second);
      var before := Together(a, ops, n, prev);
      var next := AdvanceRest(a, ops, Exec(a, ops, Init(a, n), before), 0, prev);
      ExecConcat(a, ops, Init(a, n), before, next);
      moves := before + next;
    }
  }

  /** The PE has left the barrier of malloc k and not arrived at that of its free. */
  predicate MayUse(ops: seq<Op>, pc: Pc, k: nat) {
    && k < |ops| && ops[k].Malloc? && Count(ops, pc, Leave) > k
    && forall f :: 0 <= f < |ops| && FreesAt(ops, f, k) ==> Count(ops, pc, Arrive) <= f
  }

  lemma OwnsIff(ops: seq<Op>, pc: Pc, k: nat)
    ensures Owns(ops, pc, k) <==> MayUse(ops, pc, k)
  {
    forall f | 0 <= f < |ops| && FreesAt(ops, f, k)
      ensures Count(ops, pc, Arrive) <= f <==> pc.op < f || pc == Pc(f, First)
    {
    }
  }

  /** Exactly the puts to objects in use go into flight, and a delivery takes exactly
      one out. */
  lemma PutsComeAndGo<H>(a: Allocator<H>, ops: seq<Op>, s: State<H>, put: Put, i: nat)
    ensures Step(a, ops, s, Issue(put)) ==
            if put.src < |s.pes| && put.dst < |s.pes| && MayUse(ops, s.pes[put.src].pc, put.obj)
            then s.(flight := s.flight + [put]) else s
    ensures i < |s.flight| ==>
      var t := Step(a, ops, s, Deliver(i));
      t.pes == s.pes && multiset(t.flight) == multiset(s.flight) - multiset{s.flight[i]}
  {
    if put.src < |s.pes| {
      OwnsIff(ops, s.pes[put.src].pc, put.obj);
    }
    if i < |s.flight| {
      assert s.flight == s.flight[..i] + [s.flight[i]] + s.flight[i + 1..];
    }
  }

  /** At every point of the list at which an object may be used, a put to it from any
      PE to any other can be in flight. */
  lemma PutFlies<H>(a: Allocator<H>, ops: seq<Op>, n: nat, put: Put, pc: Pc) returns (moves: seq<Move>)
    requires put.src < n && put.dst < n && MayUse(ops, pc, put.obj)
    requires pc.op < |ops| || pc == Pc(|ops|, First)
    ensures var s := Exec(a, ops, Init(a, n), moves);
      s.flight == [put] && forall p :: 0 <= p < n ==> s.pes[p].pc == pc
  {
    var before := Together(a, ops, n, pc);
    var s := Exec(a, ops, Init(a, n), before);
    PutsComeAndGo(a, ops, s, put, 0);
    ExecConcat(a, ops, Init(a, n), before, [Issue(put)]);
    moves := before + [Issue(put)];
    ExecLast(a, ops, s, Issue(put));
  }

  lemma {:induction false} ExecLast<H>(a: Allocator<H>, ops: seq<Op>, s: State<H>, m: Move)
    ensures Exec(a, ops, s, [m]) == Step(a, ops, s, m)
  {
    assert [m][1..] == [];
  }

  /** Every such list really produces a skew of two. */
  lemma SkewReached<H>(a: Allocator<H>, ops: seq<Op>, n: nat, k: nat) returns (moves: seq<Move>)
    requires n >= 2 && FreeThenMalloc(ops, k)
    ensures var s := Exec(a, ops, Init(a, n), moves);
      HeapCount(ops, s.pes[0].pc) == HeapCount(ops, s.pes[1].pc) + 2
  {
    var before := Together(a, ops, n, Pc(k, Second));
    var s := Exec(a, ops, Init(a, n), before);
    var go := [Advance(0), Advance(0), Advance(0)];
    ThreeParts(a, ops, s, k);
    ExecConcat(a, ops, Init(a, n), before, go);
    moves := before + go;
  }

  lemma {:induction false} ThreeParts<H>(a: Allocator<H>, ops: seq<Op>, s: State<H>, k: nat)
    requires FreeThenMalloc(ops, k) && |s.pes| >= 2 && AllAt(s, 0, Pc(k, Second))
    ensures var r := Exec(a, ops, s, [Advance(0), Advance(0), Advance(0)]);
      r.pes[0].pc == Pc(k + 1, Second) && r.pes[1].pc == Pc(k, Second)
  {
    var go := Advance(0);
    assert forall q :: 0 <= q < |s.pes| ==> Count(ops, s.pes[q].pc, Arrive) > k;
    var s1 := Step(a, ops, s, go);
    assert s1.pes[0].pc == Pc(k, Third);
    var s2 := Step(a, ops, s1, go);
    assert s2.pes[0].pc == Pc(k + 1, First);
    ExecThree(a, ops, s, go);
  }

  lemma {:induction false} ExecThree<H>(a: Allocator<H>, ops: seq<Op>, s: State<H>, m: Move)
    ensures Exec(a, ops, s, [m, m, m]) == Step(a, ops, Step(a, ops, Step(a, ops, s, m), m), m)
  {
    assert [m, m, m][1..] == [m, m] && [m, m][1..] == [m] && [m][1..] == [];
    var s1 := Step(a, ops, s, m);
    var s2 := Step(a, ops, s1, m);
    assert Exec(a, ops, s2, [m]) == Exec(a, ops, Step(a, ops, s2, m), []);
    assert Exec(a, ops, s1, [m, m]) == Exec(a, ops, s2, [m]);
  }

  // ----- progress -----

  lemma {:induction false} Slowest<H>(pes: seq<Pe<H>>) returns (p: nat)
    requires pes != []
    ensures p < |pes| && forall q :: 0 <= q < |pes| ==> pes[p].pc.Rank() <= pes[q].pc.Rank()
  {
    if |pes| == 1 {
      p := 0;
    } else {
      var r := Slowest(pes[1..]);
      assert forall q :: 1 <= q < |pes| ==> pes[q] == pes[1..][q - 1];
      p := if pes[0].pc.Rank() <= pes[r + 1].pc.Rank() then 0 else r + 1;
    }
  }

  lemma CountMonotone(ops: seq<Op>, pc: Pc, pd: Pc)
    requires pc.Rank() <= pd.Rank() && pc.op < |ops| && PartAt(ops[pc.op], pc.phase) == Leave
    ensures Count(ops, pd, Arrive) > pc.op
  {
  }

  /** The collective never deadlocks: while some PE is unfinished, a put can be
      delivered or the slowest PE can do its next part. */
  lemma NeverStuck<H>(a: Allocator<H>, ops: seq<Op>, s: State<H>) returns (m: Move)
    requires exists p :: 0 <= p < |s.pes| && s.pes[p].pc.op < |ops|
    ensures !m.Issue? && Step(a, ops, s, m) != s
  {
    if s.flight != [] {
      m := Deliver(0);
      assert |Step(a, ops, s, m).flight| < |s.flight|;
    } else {
      var p := Slowest(s.pes);
      m := Advance(p);
      var pc := s.pes[p].pc;
      if PartAt(ops[pc.op], pc.phase) == Leave {
        forall q | 0 <= q < |s.pes| ensures Count(ops, s.pes[q].pc, Arrive) > pc.op {
          CountMonotone(ops, pc, s.pes[q].pc);
        }
      }
      assert Step(a, ops, s, m).pes[p].pc == pc.Next();
    }
  }

  function Left<H>(ops: seq<Op>): Pe<H> -> nat {
    (pe: Pe<H>) => if pe.pc.Rank() < 3 * |ops| then 3 * |ops| - pe.pc.Rank() else 0
  }

  /** From every state the list can be run to its end and all puts delivered. */
  lemma {:induction false} CanFinish<H>(a: Allocator<H>, ops: seq<Op>, s: State<H>) returns (moves: seq<Move>)
    ensures var r := Exec(a, ops, s, moves);
      r.flight == [] && forall p :: 0 <= p < |r.pes| ==> r.pes[p].pc.op >= |ops|
    decreases Sum(Left(ops), s.pes) + |s.flight|
  {
    if s.flight == [] && forall p :: 0 <= p < |s.pes| ==> s.pes[p].pc.op >= |ops| {
      moves := [];
    } else {
      var m := if s.flight != [] then Deliver(0) else Advance(0);
      if s.flight == [] {
        m := NeverStuck(a, ops, s);
        var p := m.pe;
        SumUpdate(Left(ops), s.pes, p, Step(a, ops, s, m).pes[p]);
        assert Step(a, ops, s, m).pes == s.pes[p := Step(a, ops, s, m).pes[p]];
      }
      var rest := CanFinish(a, ops, Step(a, ops, s, m));
      moves := [m] + rest;
      assert moves[1..] == rest;
    }
  }
}
