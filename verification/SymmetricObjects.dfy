/**
 The collective heap protocol running on the power-of-two allocator: what a
 remote write can and cannot hit.
 */
module SymmetricObjects {
  import opened Sums
  import opened SymmetricHeap
  import P = Pow2Bins

  /** Only earlier allocations are released, each at most once. */
  predicate Legal(ops: seq<Op>) {
    && (forall f :: 0 <= f < |ops| && ops[f].Free? ==> ops[f].k < f && ops[ops[f].k].Malloc?)
    && (forall f, g :: 0 <= f < g < |ops| && ops[f].Free? && ops[g].Free? ==> ops[f].k != ops[g].k)
  }

  function Pow2(size: nat, misaligned: nat): Allocator<P.Heap>
    requires size >= P.ALIGNMENT && misaligned < P.ALIGNMENT
  {
    Bins(P.Build(size, misaligned))
  }

  function Bins(init: P.Heap): Allocator<P.Heap> {
    Allocator(init, P.Alloc, P.Free)
  }

  /** After h heap steps object k is allocated and not released. */
  predicate Live(ops: seq<Op>, h: nat, k: nat) {
    k < h <= |ops| && ops[k].Malloc? && forall f :: k < f < h ==> ops[f] != Free(k)
  }

  /** Live and not the null pointer. */
  ghost predicate Placed(ops: seq<Op>, h: nat, ptr: map<nat, int>, k: nat) {
    Live(ops, h, k) && k in ptr && ptr[k] != P.NULL
  }

  ghost predicate Blocks(init: P.Heap, ops: seq<Op>, h: nat, heap: P.Heap, ptr: map<nat, int>) {
    && P.Shaped(heap) && P.Exclusive(heap) && P.SameCover(init, heap)
    && (forall k: nat :: Live(ops, h, k) ==> k in ptr)
    && (forall k: nat :: Placed(ops, h, ptr, k) ==>
          ptr[k] in heap.proffered && heap.proffered[ptr[k]].size >= ops[k].size)
    && (forall j: nat, k: nat :: Placed(ops, h, ptr, j) && Placed(ops, h, ptr, k) && j != k ==> ptr[j] != ptr[k])
  }

  /** The block at a belongs to a live object. */
  ghost predicate HeldFor(ops: seq<Op>, h: nat, ptr: map<nat, int>, a: int) {
    exists k: nat :: Placed(ops, h, ptr, k) && ptr[k] == a
  }

  ghost predicate NoStray(ops: seq<Op>, h: nat, heap: P.Heap, ptr: map<nat, int>) {
    forall a :: a in heap.proffered ==> HeldFor(ops, h, ptr, a)
  }

  /** Live objects have blocks of their own, and nobody else has any. */
  ghost predicate Pool(init: P.Heap, ops: seq<Op>, h: nat, heap: P.Heap, ptr: map<nat, int>) {
    Blocks(init, ops, h, heap, ptr) && NoStray(ops, h, heap, ptr)
  }

  lemma StillHeld(ops: seq<Op>, h: nat, ptr: map<nat, int>, p: int, a: int)
    requires h < |ops| && ops[h].Malloc? && HeldFor(ops, h, ptr, a)
    ensures HeldFor(ops, h + 1, ptr[h := p], a)
  {
    var k: nat :| Placed(ops, h, ptr, k) && ptr[k] == a;
    assert Placed(ops, h + 1, ptr[h := p], k);
  }

  lemma StrayMalloc(init: P.Heap, ops: seq<Op>, h: nat, heap: P.Heap, ptr: map<nat, int>)
    requires h < |ops| && ops[h].Malloc? && Pool(init, ops, h, heap, ptr)
    ensures var (g, p) := P.Alloc(heap, ops[h].size); NoStray(ops, h + 1, g, ptr[h := p])
  {
    P.AllocCorrect(heap, ops[h].size);
    var (g, p) := P.Alloc(heap, ops[h].size);
    forall a | a in g.proffered ensures HeldFor(ops, h + 1, ptr[h := p], a) {
      if p != P.NULL && a == p {
        assert Placed(ops, h + 1, ptr[h := p], h);
      } else {
        StillHeld(ops, h, ptr, p, a);
      }
    }
  }

  lemma PoolMalloc(init: P.Heap, ops: seq<Op>, h: nat, heap: P.Heap, ptr: map<nat, int>)
    requires h < |ops| && ops[h].Malloc? && Pool(init, ops, h, heap, ptr)
    ensures var (g, p) := P.Alloc(heap, ops[h].size); Pool(init, ops, h + 1, g, ptr[h := p])
  {
    BlocksMalloc(init, ops, h, heap, ptr);
    StrayMalloc(init, ops, h, heap, ptr);
  }

  lemma BlocksMalloc(init: P.Heap, ops: seq<Op>, h: nat, heap: P.Heap, ptr: map<nat, int>)
    requires h < |ops| && ops[h].Malloc? && Blocks(init, ops, h, heap, ptr)
    ensures var (g, p) := P.Alloc(heap, ops[h].size); Blocks(init, ops, h + 1, g, ptr[h := p])
  {
    P.AllocCorrect(heap, ops[h].size);
    var (g, p) := P.Alloc(heap, ops[h].size);
    forall k: nat | Live(ops, h + 1, k) ensures k == h || Live(ops, h, k) {
    }
  }

  lemma StrayFree(init: P.Heap, ops: seq<Op>, h: nat, heap: P.Heap, ptr: map<nat, int>)
    requires Legal(ops) && h < |ops| && ops[h].Free? && Pool(init, ops, h, heap, ptr) && ops[h].k in ptr
    ensures NoStray(ops, h + 1, P.Free(heap, ptr[ops[h].k]), ptr)
  {
    var k := ops[h].k;
    ReleasedIsHeld(init, ops, h, heap, ptr);
    P.ProfferedNotNull(heap);
    if ptr[k] != P.NULL {
      P.FreeCorrect(heap, ptr[k]);
    }
    forall a | a in P.Free(heap, ptr[k]).proffered ensures HeldFor(ops, h + 1, ptr, a) {
      HeldAfterFree(ops, h, ptr, a);
    }
  }

  lemma HeldAfterFree(ops: seq<Op>, h: nat, ptr: map<nat, int>, a: int)
    requires h < |ops| && ops[h].Free? && ops[h].k in ptr && HeldFor(ops, h, ptr, a) && a != ptr[ops[h].k]
    ensures HeldFor(ops, h + 1, ptr, a)
  {
    var j: nat :| Placed(ops, h, ptr, j) && ptr[j] == a;
    assert Placed(ops, h + 1, ptr, j);
  }

  lemma PoolFree(init: P.Heap, ops: seq<Op>, h: nat, heap: P.Heap, ptr: map<nat, int>)
    requires Legal(ops) && h < |ops| && ops[h].Free? && Pool(init, ops, h, heap, ptr)
    ensures ops[h].k in ptr && P.FreeAsserts(heap, ptr[ops[h].k])
    ensures Pool(init, ops, h + 1, P.Free(heap, ptr[ops[h].k]), ptr)
  {
    BlocksFree(init, ops, h, heap, ptr);
    StrayFree(init, ops, h, heap, ptr);
  }

  lemma LiveAfterFree(ops: seq<Op>, h: nat, j: nat)
    requires h < |ops| && ops[h].Free? && Live(ops, h + 1, j)
    ensures Live(ops, h, j) && j != ops[h].k
  {
    assert ops[h] != Free(j);
  }

  /** What is released is live, so the allocator's assertions hold. */
  lemma ReleasedIsHeld(init: P.Heap, ops: seq<Op>, h: nat, heap: P.Heap, ptr: map<nat, int>)
    requires Legal(ops) && h < |ops| && ops[h].Free? && Blocks(init, ops, h, heap, ptr)
    ensures var k := ops[h].k; Live(ops, h, k) && k in ptr && (ptr[k] == P.NULL || ptr[k] in heap.proffered)
  {
    var k := ops[h].k;
    assert Live(ops, h, k);
    if ptr[k] != P.NULL {
      assert Placed(ops, h, ptr, k);
    }
  }

  lemma BlocksFree(init: P.Heap, ops: seq<Op>, h: nat, heap: P.Heap, ptr: map<nat, int>)
    requires Legal(ops) && h < |ops| && ops[h].Free? && Blocks(init, ops, h, heap, ptr)
    ensures ops[h].k in ptr && P.FreeAsserts(heap, ptr[ops[h].k])
    ensures Blocks(init, ops, h + 1, P.Free(heap, ptr[ops[h].k]), ptr)
  {
    var k := ops[h].k;
    ReleasedIsHeld(init, ops, h, heap, ptr);
    if ptr[k] != P.NULL {
      P.FreeCorrect(heap, ptr[k]);
    }
    var g := P.Free(heap, ptr[k]);
    forall j: nat | Live(ops, h + 1, j) ensures j in ptr && j != k && Live(ops, h, j) {
      LiveAfterFree(ops, h, j);
    }
    forall j: nat | Placed(ops, h + 1, ptr, j)
      ensures ptr[j] in g.proffered && g.proffered[ptr[j]].size >= ops[j].size
    {
      OthersKeep(init, ops, h, heap, ptr, j);
    }
  }

  lemma OthersKeep(init: P.Heap, ops: seq<Op>, h: nat, heap: P.Heap, ptr: map<nat, int>, j: nat)
    requires Legal(ops) && h < |ops| && ops[h].Free? && Blocks(init, ops, h, heap, ptr) && Placed(ops, h + 1, ptr, j)
    ensures ops[h].k in ptr && Placed(ops, h, ptr, j)
    ensures var g := P.Free(heap, ptr[ops[h].k]); ptr[j] in g.proffered && g.proffered[ptr[j]].size >= ops[j].size
  {
    LiveAfterFree(ops, h, j);
    ReleasedIsHeld(init, ops, h, heap, ptr);
    var k := ops[h].k;
    assert Placed(ops, h, ptr, j);
    if ptr[k] != P.NULL {
      assert Placed(ops, h, ptr, k);
      P.FreeCorrect(heap, ptr[k]);
    }
  }

  lemma PoolStart(size: nat, misaligned: nat, ops: seq<Op>)
    requires size >= P.ALIGNMENT && misaligned < P.ALIGNMENT
    ensures Pool(P.Build(size, misaligned), ops, 0, P.Build(size, misaligned), map[])
  {
    P.BuildCorrect(size, misaligned);
  }

  lemma PoolStep(init: P.Heap, ops: seq<Op>, h: nat, heap: P.Heap, ptr: map<nat, int>)
    requires Legal(ops) && h < |ops| && Pool(init, ops, h, heap, ptr)
    ensures var (g, q) := Apply(Bins(init), ops[h], h, heap, ptr); Pool(init, ops, h + 1, g, q)
  {
    if ops[h].Malloc? {
      PoolMalloc(init, ops, h, heap, ptr);
    } else {
      PoolFree(init, ops, h, heap, ptr);
    }
  }

  ghost predicate PoolAt(init: P.Heap, ops: seq<Op>, h: nat)
    requires h <= |ops|
  {
    var (heap, ptr) := After(Bins(init), ops, h);
    Pool(init, ops, h, heap, ptr)
  }

  lemma PoolNext(init: P.Heap, ops: seq<Op>, h: nat)
    requires Legal(ops) && h < |ops| && PoolAt(init, ops, h)
    ensures PoolAt(init, ops, h + 1)
  {
    var (heap, ptr) := After(Bins(init), ops, h);
    PoolStep(init, ops, h, heap, ptr);
  }

  lemma {:induction false} PoolAfter(init: P.Heap, ops: seq<Op>, h: nat)
    requires Legal(ops) && h <= |ops| && PoolAt(init, ops, 0)
    ensures PoolAt(init, ops, h)
  {
    if h > 0 {
      PoolAfter(init, ops, h - 1);
      PoolNext(init, ops, h - 1);
    }
  }

  /** A legal list keeps the pool intact. */
  lemma {:induction false} PoolAlways(size: nat, misaligned: nat, ops: seq<Op>, h: nat)
    requires size >= P.ALIGNMENT && misaligned < P.ALIGNMENT && Legal(ops) && h <= |ops|
    ensures var (heap, ptr) := After(Pow2(size, misaligned), ops, h);
      Pool(P.Build(size, misaligned), ops, h, heap, ptr)
  {
    PoolStart(size, misaligned, ops);
    PoolAfter(P.Build(size, misaligned), ops, h);
  }

  /** And no release in it fails an allocator assertion. */
  lemma {:induction false} FreesNeverFail(size: nat, misaligned: nat, ops: seq<Op>, f: nat)
    requires size >= P.ALIGNMENT && misaligned < P.ALIGNMENT && Legal(ops) && f < |ops| && ops[f].Free?
    ensures var (heap, ptr) := After(Pow2(size, misaligned), ops, f);
      ops[f].k in ptr && P.FreeAsserts(heap, ptr[ops[f].k])
  {
    var (heap, ptr) := After(Pow2(size, misaligned), ops, f);
    PoolAlways(size, misaligned, ops, f);
    PoolFree(P.Build(size, misaligned), ops, f, heap, ptr);
  }

  /** The blocks handed out are exactly those of the objects allocated and not
      released. */
  lemma {:induction false} OnlyLiveBlocks(size: nat, misaligned: nat, ops: seq<Op>, h: nat, a: int)
    requires size >= P.ALIGNMENT && misaligned < P.ALIGNMENT && Legal(ops) && h <= |ops|
    ensures var (heap, ptr) := After(Pow2(size, misaligned), ops, h);
      a in heap.proffered <==> HeldFor(ops, h, ptr, a)
  {
    PoolAlways(size, misaligned, ops, h);
  }

  /** Every allocation among the first h operations is released among them. */
  predicate AllReleased(ops: seq<Op>, h: nat) {
    h <= |ops| && forall k :: 0 <= k < h && ops[k].Malloc? ==> exists f :: 0 <= f < h && FreesAt(ops, f, k)
  }

  lemma NobodyHeld(ops: seq<Op>, h: nat, ptr: map<nat, int>, a: int)
    requires Legal(ops) && AllReleased(ops, h)
    ensures !HeldFor(ops, h, ptr, a)
  {
    forall k: nat ensures !Live(ops, h, k) {
      if k < h && ops[k].Malloc? {
        var f :| 0 <= f < h && FreesAt(ops, f, k);
        assert k < f && ops[f] == Free(k);
      }
    }
  }

  /** After a list that releases everything nothing is handed out, and every byte of
      the heap is in exactly one free record again. */
  lemma {:induction false} AllFreeAgain(size: nat, misaligned: nat, ops: seq<Op>, h: nat, x: int)
    requires size >= P.ALIGNMENT && misaligned < P.ALIGNMENT && Legal(ops) && AllReleased(ops, h)
    ensures var (heap, ptr) := After(Pow2(size, misaligned), ops, h);
      var usable := P.UsableSize(size, misaligned);
      && heap.proffered == map[]
      && Sum(P.StackBytes(x), heap.bins) == if 0 <= x < usable - usable % P.ALIGNMENT then 1 else 0
  {
    var (heap, ptr) := After(Pow2(size, misaligned), ops, h);
    PoolAlways(size, misaligned, ops, h);
    P.BuildCorrect(size, misaligned);
    forall a ensures a !in heap.proffered {
      NobodyHeld(ops, h, ptr, a);
    }
    assert P.ProfferedAt(heap.proffered, x) == {};
    assert P.Cover(heap, x) == P.Cover(P.Build(size, misaligned), x);
  }

  /** Two handed-out records cannot share a byte. */
  lemma DisjointRecords(h: P.Heap, a: int, b: int, x: int)
    requires P.Exclusive(h) && a in h.proffered && b in h.proffered && a != b
    requires P.ByteIn(x)(h.proffered[a]) == 1
    ensures P.ByteIn(x)(h.proffered[b]) == 0
  {
    var at := P.ProfferedAt(h.proffered, x);
    assert P.Cover(h, x) <= 1;
    assert a in at;
    assert |at - {a}| == |at| - 1;
    assert b !in at - {a};
  }

  /** PE `pe` has object k, and its allocation did not fail. */
  ghost predicate Has(ops: seq<Op>, pe: Pe<P.Heap>, k: nat) {
    k < |ops| && ops[k].Malloc? && HasObject(ops, pe.pc, k) && k in pe.ptr && pe.ptr[k] != P.NULL
  }

  /** A put in flight to a byte of object k: at the target that byte belongs to k,
      which is allocated there, and to no other object the target has. */
  lemma {:induction false} PutHitsOnlyItsObject(size: nat, misaligned: nat, ops: seq<Op>, n: nat,
      moves: seq<Move>, i: nat, x: int, j: nat)
    requires size >= P.ALIGNMENT && misaligned < P.ALIGNMENT && Legal(ops)
    requires i < |Exec(Pow2(size, misaligned), ops, Init(Pow2(size, misaligned), n), moves).flight|
    ensures var s := Exec(Pow2(size, misaligned), ops, Init(Pow2(size, misaligned), n), moves);
      var put := s.flight[i];
      && put.src < n && put.dst < n && put.obj < |ops| && ops[put.obj].Malloc? && put.obj in s.pes[put.src].ptr
      && var p, target := s.pes[put.src].ptr[put.obj], s.pes[put.dst];
         p != P.NULL && p <= x < p + ops[put.obj].size ==>
           && HasObject(ops, target.pc, put.obj)
           && p in target.heap.proffered && P.ByteIn(x)(target.heap.proffered[p]) == 1
           && (j != put.obj && Has(ops, target, j) ==>
                 !(target.ptr[j] <= x < target.ptr[j] + ops[j].size))
  {
    var a := Pow2(size, misaligned);
    var s := Exec(a, ops, Init(a, n), moves);
    var put := s.flight[i];
    Reachable(a, ops, n, moves);
    PutsLandOnLiveObjects(a, ops, n, moves, i);
    var target := s.pes[put.dst];
    var h := HeapCount(ops, target.pc);
    HeapCountBound(ops, target.pc);
    PoolAlways(size, misaligned, ops, h);
    var p := target.ptr[put.obj];
    if p != P.NULL && p <= x < p + ops[put.obj].size {
      Holds(ops, target, put.obj);
      assert P.Shaped(target.heap);
      if j != put.obj && Has(ops, target, j) {
        Holds(ops, target, j);
        DisjointRecords(target.heap, p, target.ptr[j], x);
      }
    }
  }

  lemma Holds(ops: seq<Op>, pe: Pe<P.Heap>, k: nat)
    requires Has(ops, pe, k)
    ensures Placed(ops, HeapCount(ops, pe.pc), pe.ptr, k)
  {
    forall f | k < f < HeapCount(ops, pe.pc) ensures ops[f] != Free(k) {
      assert !FreesAt(ops, f, k);
    }
  }
}
