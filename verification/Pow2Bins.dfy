/**
 The symmetric-heap allocator: stacks of free records, one stack per power of
 two, and a table of the records handed to the user. Addresses are offsets from
 the first aligned byte of the heap; NULL is -1.
 */
module Pow2Bins {
  import opened Arith
  import opened Sums

  const ALIGNMENT: nat := 128
  const NULL := -1

  datatype Record = Record(address: int, size: nat)

  /** `bins[k]` holds records of size `BinSize(k)`, the top of the stack last. */
  datatype Heap = Heap(bins: seq<seq<Record>>, proffered: map<int, Record>)

  function BinSize(k: nat): nat {
    if k == 0 then ALIGNMENT else 2 * BinSize(k - 1)
  }

  // ----- the operations on values -----

  function Halves(r: Record): (Record, Record) {
    var half := r.size / 2;
    (Record(r.address, half), Record(r.address + half, half))
  }

  function Top(stack: seq<Record>): Record
    requires stack != []
  {
    stack[|stack| - 1]
  }

  function Pop(stack: seq<Record>): seq<Record>
    requires stack != []
  {
    stack[..|stack| - 1]
  }

  /** Move one record of bin k + 1 down to bin k as two halves. */
  function SplitTop(bins: seq<seq<Record>>, k: nat): (r: seq<seq<Record>>)
    requires k + 1 < |bins| && bins[k + 1] != []
    ensures |r| == |bins|
  {
    var (smaller, larger) := Halves(Top(bins[k + 1]));
    bins[k + 1 := Pop(bins[k + 1])][k := bins[k] + [larger] + [smaller]]
  }

  function SplitLarger(bins: seq<seq<Record>>, k: nat): (r: seq<seq<Record>>)
    requires k < |bins|
    ensures |r| == |bins|
    decreases |bins| - k
  {
    if k + 1 == |bins| then bins else
    var b := if bins[k + 1] == [] then SplitLarger(bins, k + 1) else bins;
    if b[k + 1] == [] then b else SplitTop(b, k)
  }

  function EnsureRecords(bins: seq<seq<Record>>, k: nat): (r: seq<seq<Record>>)
    requires k < |bins|
    ensures |r| == |bins|
  {
    if bins[k] != [] then bins else SplitLarger(bins, k)
  }

  /** Retrieve a record from bin k and mark it as handed out. */
  function Retrieve(h: Heap, k: nat): (r: (Heap, int))
    requires k < |h.bins|
    ensures |r.0.bins| == |h.bins|
  {
    var b := EnsureRecords(h.bins, k);
    if b[k] == [] then (h.(bins := b), NULL)
    else var rec := Top(b[k]);
      (Heap(b[k := Pop(b[k])], h.proffered[rec.address := rec]), rec.address)
  }

  /** `std::map::lower_bound`: the first bin that is large enough. */
  function LowerBound(n: nat, request: nat, k: nat): (r: nat)
    requires k <= n
    ensures k <= r <= n
    ensures forall j :: k <= j < r ==> BinSize(j) < request
    ensures r < n ==> BinSize(r) >= request
    decreases n - k
  {
    if k == n || BinSize(k) >= request then k else LowerBound(n, request, k + 1)
  }

  function Alloc(h: Heap, request: nat): (r: (Heap, int))
    ensures |r.0.bins| == |h.bins|
  {
    if request == 0 then (h, NULL) else
    var k := LowerBound(|h.bins|, request, 0);
    if k == |h.bins| then (h, NULL) else
    // the exact match first, then the rounded-up size
    var first := if BinSize(k) == request then Retrieve(h, k) else (h, NULL);
    if first.1 != NULL then first else Retrieve(first.0, k)
  }

  /** The assertions of `free`: the pointer was handed out and its bin exists. */
  predicate FreeAsserts(h: Heap, p: int) {
    p == NULL ||
    (p in h.proffered &&
     var k := LowerBound(|h.bins|, h.proffered[p].size, 0); k < |h.bins| && BinSize(k) == h.proffered[p].size)
  }

  /** A release that fails an assertion aborts; here it leaves the heap alone. */
  function Free(h: Heap, p: int): (r: Heap)
    ensures |r.bins| == |h.bins|
  {
    if p == NULL || !FreeAsserts(h, p) then h else
    var rec := h.proffered[p];
    var k := LowerBound(|h.bins|, rec.size, 0);
    Heap(h.bins[k := h.bins[k] + [rec]], h.proffered - {p})
  }

  // ----- building the bins -----

  /** Position of the leading one bit. */
  function FindFirstSetOne(v: nat): nat
    requires v > 0
  {
    if v == 1 then 0 else 1 + FindFirstSetOne(v / 2)
  }

  function NumBins(size: nat): int
    requires size > 0
  {
    FindFirstSetOne(size) - FindFirstSetOne(ALIGNMENT) + 1
  }

  /** The largest bin that fits, searching downwards; n when none does. */
  function LargestFit(n: nat, size: nat): (k: nat)
    ensures k < n ==> BinSize(k) <= size
    ensures k >= n ==> n == 0 || BinSize(0) > size
    ensures k <= n
  {
    if n == 0 then 0
    else if BinSize(n - 1) <= size then n - 1
    else var k := LargestFit(n - 1, size); if k == n - 1 then n else k
  }

  /** Cut [address, address + size) into records, largest first. */
  function AssignChunks(bins: seq<seq<Record>>, address: int, size: nat): (r: seq<seq<Record>>)
    ensures |r| == |bins|
    decreases size
  {
    var k := LargestFit(|bins|, size);
    if k == |bins| then bins else
    BinSizes(k);
    AssignChunks(bins[k := bins[k] + [Record(address, BinSize(k))]], address + BinSize(k), size - BinSize(k))
  }

  /** A heap of `size` bytes whose base is `misaligned` bytes past alignment; the
      bytes before the first aligned one are ignored. */
  function Build(size: nat, misaligned: nat): Heap
    requires size >= ALIGNMENT && misaligned < ALIGNMENT
  {
    LogGrows(ALIGNMENT, size);
    Heap(AssignChunks(seq(NumBins(size), _ => []), 0, UsableSize(size, misaligned)), map[])
  }

  lemma {:induction false} LogGrows(a: nat, b: nat)
    requires 0 < a <= b
    ensures FindFirstSetOne(a) <= FindFirstSetOne(b)
    decreases b
  {
    if a > 1 {
      LogGrows(a / 2, b / 2);
    }
  }

  // ----- bytes -----

  function ByteIn(x: int): Record -> nat {
    (r: Record) => if r.address <= x < r.address + r.size then 1 else 0
  }

  function StackBytes(x: int): seq<Record> -> nat {
    (stack: seq<Record>) => Sum(ByteIn(x), stack)
  }

  function ProfferedAt(m: map<int, Record>, x: int): set<int> {
    set a | a in m && ByteIn(x)(m[a]) == 1
  }

  /** How many records, free or handed out, contain byte x. */
  function Cover(h: Heap, x: int): nat {
    Sum(StackBytes(x), h.bins) + |ProfferedAt(h.proffered, x)|
  }

  ghost predicate Shaped(h: Heap) {
    && (forall k, i :: 0 <= k < |h.bins| && 0 <= i < |h.bins[k]| ==> GoodRecord(h.bins[k][i], k))
    && (forall a :: a in h.proffered ==> h.proffered[a].address == a && InSomeBin(h, h.proffered[a]))
  }

  ghost predicate GoodRecord(r: Record, k: nat) {
    r.size == BinSize(k) && r.address >= 0 && r.address % ALIGNMENT == 0
  }

  ghost predicate InSomeBin(h: Heap, r: Record) {
    exists k :: 0 <= k < |h.bins| && GoodRecord(r, k)
  }

  /** No byte is in two records. */
  ghost predicate Exclusive(h: Heap) {
    forall x :: Cover(h, x) <= 1
  }

  lemma DoubleAligned(n: nat)
    requires n % ALIGNMENT == 0
    ensures 2 * n % ALIGNMENT == 0
  {
    DivideUnique(2 * n, ALIGNMENT, 2 * (n / ALIGNMENT), 0);
  }

  lemma {:induction false} BinSizes(k: nat)
    ensures BinSize(k) >= ALIGNMENT && BinSize(k) % ALIGNMENT == 0
  {
    if k > 0 {
      BinSizes(k - 1);
      DoubleAligned(BinSize(k - 1));
    }
  }

  lemma {:induction false} BinSizeGrows(j: nat, k: nat)
    requires j < k
    ensures BinSize(j) < BinSize(k)
    decreases k
  {
    BinSizes(j);
    if j < k - 1 {
      BinSizeGrows(j, k - 1);
    }
  }

  lemma {:induction false} SumConcat<T>(f: T -> nat, xs: seq<T>, ys: seq<T>)
    ensures Sum(f, xs + ys) == Sum(f, xs) + Sum(f, ys)
  {
    if xs == [] {
      assert xs + ys == ys;
    } else {
      assert (xs + ys)[1..] == xs[1..] + ys;
      SumConcat(f, xs[1..], ys);
    }
  }

  lemma {:induction false} SumPush<T>(f: T -> nat, xs: seq<T>, x: T)
    ensures Sum(f, xs + [x]) == Sum(f, xs) + f(x)
  {
    SumConcat(f, xs, [x]);
    assert [x][1..] == [];
  }

  lemma {:induction false} SumPop(f: Record -> nat, stack: seq<Record>)
    requires stack != []
    ensures Sum(f, stack) == Sum(f, Pop(stack)) + f(Top(stack))
  {
    assert stack == Pop(stack) + [Top(stack)];
    SumPush(f, Pop(stack), Top(stack));
  }

  // ----- splitting -----

  ghost predicate ShapedBins(bins: seq<seq<Record>>) {
    forall k, i :: 0 <= k < |bins| && 0 <= i < |bins[k]| ==> GoodRecord(bins[k][i], k)
  }

  lemma HalvesGood(r: Record, k: nat, x: int)
    requires GoodRecord(r, k + 1)
    ensures GoodRecord(Halves(r).0, k) && GoodRecord(Halves(r).1, k)
    ensures ByteIn(x)(Halves(r).0) + ByteIn(x)(Halves(r).1) == ByteIn(x)(r)
  {
    BinSizes(k);
  }

  lemma SplitTopShaped(bins: seq<seq<Record>>, k: nat)
    requires ShapedBins(bins) && k + 1 < |bins| && bins[k + 1] != []
    ensures ShapedBins(SplitTop(bins, k))
  {
    var top := Top(bins[k + 1]);
    assert GoodRecord(top, k + 1);
    HalvesGood(top, k, 0);
    var b := SplitTop(bins, k);
    forall j, i | 0 <= j < |b| && 0 <= i < |b[j]| ensures GoodRecord(b[j][i], j) {
      if j == k && i >= |bins[k]| {
      } else {
        assert b[j][i] == bins[j][i];
      }
    }
  }

  /** Splitting one record keeps every byte in exactly as many records. */
  lemma {:induction false} SplitTopCover(bins: seq<seq<Record>>, k: nat, x: int)
    requires ShapedBins(bins) && k + 1 < |bins| && bins[k + 1] != []
    ensures Sum(StackBytes(x), SplitTop(bins, k)) == Sum(StackBytes(x), bins)
  {
    var top := Top(bins[k + 1]);
    assert GoodRecord(top, k + 1);
    var (lo, hi) := Halves(top);
    HalvesGood(top, k, x);
    var b1 := bins[k + 1 := Pop(bins[k + 1])];
    SumUpdate(StackBytes(x), bins, k + 1, Pop(bins[k + 1]));
    SumPop(ByteIn(x), bins[k + 1]);
    SumUpdate(StackBytes(x), b1, k, bins[k] + [hi] + [lo]);
    SumPush(ByteIn(x), bins[k], hi);
    SumPush(ByteIn(x), bins[k] + [hi], lo);
  }

  lemma {:induction false} SplitLargerCover(bins: seq<seq<Record>>, k: nat, x: int)
    requires ShapedBins(bins) && k < |bins|
    ensures ShapedBins(SplitLarger(bins, k))
    ensures Sum(StackBytes(x), SplitLarger(bins, k)) == Sum(StackBytes(x), bins)
    decreases |bins| - k
  {
    if k + 1 < |bins| {
      SplitLargerCover(bins, k + 1, x);
      var b := if bins[k + 1] == [] then SplitLarger(bins, k + 1) else bins;
      if b[k + 1] != [] {
        SplitTopShaped(b, k);
        SplitTopCover(b, k, x);
      }
    }
  }

  /** The recursive search finds a record whenever any larger bin has one. */
  lemma {:induction false} SplitLargerFinds(bins: seq<seq<Record>>, k: nat)
    requires k < |bins| && bins[k] == []
    ensures SplitLarger(bins, k)[k] == [] <==> forall j :: k <= j < |bins| ==> bins[j] == []
    ensures SplitLarger(bins, k)[k] == [] ==> SplitLarger(bins, k) == bins
    decreases |bins| - k
  {
    if k + 1 < |bins| && bins[k + 1] == [] {
      SplitLargerFinds(bins, k + 1);
    }
  }

  // ----- handing out and taking back -----

  lemma ProfferedAdd(m: map<int, Record>, a: int, r: Record, x: int)
    requires a !in m
    ensures |ProfferedAt(m[a := r], x)| == |ProfferedAt(m, x)| + ByteIn(x)(r)
  {
    if ByteIn(x)(r) == 1 {
      assert ProfferedAt(m[a := r], x) == ProfferedAt(m, x) + {a};
    } else {
      assert ProfferedAt(m[a := r], x) == ProfferedAt(m, x);
    }
  }

  lemma ProfferedRemove(m: map<int, Record>, a: int, x: int)
    requires a in m
    ensures |ProfferedAt(m, x)| == |ProfferedAt(m - {a}, x)| + ByteIn(x)(m[a])
  {
    var rest := m - {a};
    ProfferedAdd(rest, a, m[a], x);
    assert rest[a := m[a]] == m;
  }

  lemma ProfferedSelf(h: Heap, a: int)
    requires Shaped(h) && a in h.proffered
    ensures |ProfferedAt(h.proffered, a)| >= 1
  {
    var j :| 0 <= j < |h.bins| && GoodRecord(h.proffered[a], j);
    BinSizes(j);
    assert a in ProfferedAt(h.proffered, a);
  }

  lemma ProfferedNotNull(h: Heap)
    requires Shaped(h)
    ensures NULL !in h.proffered
  {
    forall a | a in h.proffered ensures a >= 0 {
      var j :| 0 <= j < |h.bins| && GoodRecord(h.proffered[a], j);
    }
  }

  /** A free record never starts where a handed-out one does. */
  lemma FreeIsFresh(h: Heap, k: nat)
    requires Shaped(h) && Exclusive(h) && k < |h.bins| && h.bins[k] != []
    ensures Top(h.bins[k]).address !in h.proffered
  {
    var rec := Top(h.bins[k]);
    var a := rec.address;
    assert GoodRecord(rec, k);
    BinSizes(k);
    SumPop(ByteIn(a), h.bins[k]);
    SumAtLeast(StackBytes(a), h.bins, k);
    assert Cover(h, a) <= 1;
    if a in h.proffered {
      ProfferedSelf(h, a);
    }
  }

  ghost predicate SameCover(h: Heap, g: Heap) {
    forall x :: Cover(g, x) == Cover(h, x)
  }

  lemma EnsureKeeps(h: Heap, k: nat)
    requires Shaped(h) && k < |h.bins|
    ensures var g := h.(bins := EnsureRecords(h.bins, k)); Shaped(g) && SameCover(h, g)
    ensures EnsureRecords(h.bins, k)[k] == [] <==> forall j :: k <= j < |h.bins| ==> h.bins[j] == []
    ensures EnsureRecords(h.bins, k)[k] == [] ==> EnsureRecords(h.bins, k) == h.bins
  {
    if h.bins[k] == [] {
      SplitLargerFinds(h.bins, k);
      var g := h.(bins := EnsureRecords(h.bins, k));
      forall x ensures Cover(g, x) == Cover(h, x) {
        SplitLargerCover(h.bins, k, x);
      }
      SplitLargerCover(h.bins, k, 0);
      forall a | a in g.proffered ensures InSomeBin(g, g.proffered[a]) {
        var j :| 0 <= j < |h.bins| && GoodRecord(h.proffered[a], j);
      }
    }
  }

  lemma PopKeeps(h: Heap, k: nat)
    requires Shaped(h) && Exclusive(h) && k < |h.bins| && h.bins[k] != []
    ensures var rec := Top(h.bins[k]);
      var g := Heap(h.bins[k := Pop(h.bins[k])], h.proffered[rec.address := rec]);
      Shaped(g) && SameCover(h, g)
  {
    var rec := Top(h.bins[k]);
    var g := Heap(h.bins[k := Pop(h.bins[k])], h.proffered[rec.address := rec]);
    FreeIsFresh(h, k);
    forall x ensures Cover(g, x) == Cover(h, x) {
      SumUpdate(StackBytes(x), h.bins, k, Pop(h.bins[k]));
      SumPop(ByteIn(x), h.bins[k]);
      ProfferedAdd(h.proffered, rec.address, rec, x);
    }
    assert GoodRecord(rec, k);
    forall a | a in g.proffered ensures InSomeBin(g, g.proffered[a]) {
      if a != rec.address {
        var j :| 0 <= j < |h.bins| && GoodRecord(h.proffered[a], j);
      }
    }
  }

  /** What `Alloc` does with a bin: hands out a fresh record of that bin's size,
      or changes nothing because no bin from k up has a record. */
  ghost predicate HandsOut(h: Heap, g: Heap, p: int, k: nat) {
    && k < |h.bins| && p >= 0 && p !in h.proffered
    && g.proffered == h.proffered[p := Record(p, BinSize(k))]
  }

  lemma RetrieveKeeps(h: Heap, k: nat)
    requires Shaped(h) && Exclusive(h) && k < |h.bins|
    ensures var (g, p) := Retrieve(h, k);
      && Shaped(g) && SameCover(h, g)
      && (if forall j :: k <= j < |h.bins| ==> h.bins[j] == [] then g == h && p == NULL else HandsOut(h, g, p, k))
  {
    EnsureKeeps(h, k);
    var e := h.(bins := EnsureRecords(h.bins, k));
    if e.bins[k] != [] {
      PopKeeps(e, k);
      FreeIsFresh(e, k);
      assert GoodRecord(Top(e.bins[k]), k);
    }
  }

  /** Allocation succeeds exactly when some large enough bin has a record. It then
      returns a block that no live block shares a byte with, of the smallest bin
      size not below the request, and in either case no byte of the heap is
      gained, lost or duplicated. */
  lemma {:induction false} AllocCorrect(h: Heap, request: nat)
    requires Shaped(h) && Exclusive(h)
    ensures var (g, p) := Alloc(h, request);
      && Shaped(g) && Exclusive(g) && SameCover(h, g)
      && (p == NULL <==> request == 0 || forall j :: 0 <= j < |h.bins| && BinSize(j) >= request ==> h.bins[j] == [])
      && (p == NULL ==> g == h)
      && (p != NULL ==> HandsOut(h, g, p, LowerBound(|h.bins|, request, 0)))
  {
    if request > 0 {
      var k := LowerBound(|h.bins|, request, 0);
      if k < |h.bins| {
        RetrieveKeeps(h, k);
        forall j | k <= j < |h.bins| ensures BinSize(j) >= request {
          if j > k {
            BinSizeGrows(k, j);
          }
        }
      }
    }
  }

  lemma {:induction false} BinOfSize(n: nat, k: nat)
    requires k < n
    ensures LowerBound(n, BinSize(k), 0) == k
  {
    var r := LowerBound(n, BinSize(k), 0);
    if r < k {
      BinSizeGrows(r, k);
    }
  }

  /** Releasing a live block never fails an assertion and gives back its bytes. */
  lemma FreeCorrect(h: Heap, p: int)
    requires Shaped(h) && Exclusive(h) && p in h.proffered
    ensures FreeAsserts(h, p)
    ensures var g := Free(h, p);
      Shaped(g) && Exclusive(g) && SameCover(h, g) && g.proffered == h.proffered - {p}
  {
    var rec := h.proffered[p];
    var k :| 0 <= k < |h.bins| && GoodRecord(rec, k);
    BinOfSize(|h.bins|, k);
    var g := Free(h, p);
    forall x ensures Cover(g, x) == Cover(h, x) {
      SumUpdate(StackBytes(x), h.bins, k, h.bins[k] + [rec]);
      SumPush(ByteIn(x), h.bins[k], rec);
      ProfferedRemove(h.proffered, p, x);
    }
    forall a | a in g.proffered ensures InSomeBin(g, g.proffered[a]) {
      var j :| 0 <= j < |h.bins| && GoodRecord(h.proffered[a], j);
    }
  }

  // ----- the initial heap -----

  /** Bytes that the greedy cut of [address, address + size) hands to the bins. */
  function Usable(address: int, size: nat, x: int): nat {
    if address <= x < address + size - size % ALIGNMENT then 1 else 0
  }

  lemma UsableStep(address: int, size: nat, b: nat, x: int)
    requires b % ALIGNMENT == 0 && address % ALIGNMENT == 0 && b <= size
    ensures (address + b) % ALIGNMENT == 0
    ensures ByteIn(x)(Record(address, b)) + Usable(address + b, size - b, x) == Usable(address, size, x)
  {
    var q := b / ALIGNMENT;
    assert b == ALIGNMENT * q;
    assert (size - b) % ALIGNMENT == size % ALIGNMENT;
  }

  lemma PushShaped(bins: seq<seq<Record>>, k: nat, r: Record)
    requires ShapedBins(bins) && k < |bins| && GoodRecord(r, k)
    ensures ShapedBins(bins[k := bins[k] + [r]])
  {
  }

  lemma {:induction false} AssignCover(bins: seq<seq<Record>>, address: int, size: nat, x: int)
    requires ShapedBins(bins) && |bins| > 0 && address >= 0 && address % ALIGNMENT == 0
    ensures ShapedBins(AssignChunks(bins, address, size))
    ensures Sum(StackBytes(x), AssignChunks(bins, address, size)) == Sum(StackBytes(x), bins) + Usable(address, size, x)
    decreases size
  {
    var k := LargestFit(|bins|, size);
    if k < |bins| {
      BinSizes(k);
      var rec := Record(address, BinSize(k));
      PushShaped(bins, k, rec);
      SumUpdate(StackBytes(x), bins, k, bins[k] + [rec]);
      SumPush(ByteIn(x), bins[k], rec);
      UsableStep(address, size, BinSize(k), x);
      AssignCover(bins[k := bins[k] + [rec]], address + BinSize(k), size - BinSize(k), x);
    }
  }

  lemma BuildCover(size: nat, misaligned: nat, x: int)
    requires size >= ALIGNMENT && misaligned < ALIGNMENT
    ensures Shaped(Build(size, misaligned))
    ensures Cover(Build(size, misaligned), x) == Usable(0, UsableSize(size, misaligned), x)
  {
    LogGrows(ALIGNMENT, size);
    var empty: seq<seq<Record>> := seq(NumBins(size), _ => []);
    AssignCover(empty, 0, UsableSize(size, misaligned), x);
    SumConstant(StackBytes(x), empty, 0);
    assert ProfferedAt(map[], x) == {};
  }

  function UsableSize(size: nat, misaligned: nat): nat
    requires size >= ALIGNMENT && misaligned < ALIGNMENT
  {
    size - if misaligned == 0 then 0 else ALIGNMENT - misaligned
  }

  /** The built heap holds every byte from the first aligned one on exactly once,
      except for less than one alignment unit at the end. */
  lemma BuildCorrect(size: nat, misaligned: nat)
    requires size >= ALIGNMENT && misaligned < ALIGNMENT
    ensures var h := Build(size, misaligned);
      var usable := UsableSize(size, misaligned);
      && Shaped(h) && Exclusive(h) && h.proffered == map[]
      && forall x :: Cover(h, x) == if 0 <= x < usable - usable % ALIGNMENT then 1 else 0
  {
    forall x ensures Cover(Build(size, misaligned), x) == Usable(0, UsableSize(size, misaligned), x) {
      BuildCover(size, misaligned, x);
    }
    BuildCover(size, misaligned, 0);
  }

  lemma {:induction false} BinSizeIs(k: nat)
    ensures BinSize(k) == 128 * TwoTo(k)
  {
    if k > 0 {
      BinSizeIs(k - 1);
    }
  }

  /** The bytes skipped at the start are the fewest that align the first record. */
  lemma SkipsToAlignment(size: nat, misaligned: nat)
    requires size >= ALIGNMENT && misaligned < ALIGNMENT
    ensures var skip := size - UsableSize(size, misaligned); 0 <= skip < 128 && (misaligned + skip) % 128 == 0
  {
  }

  /** There is a bin for every size up to that of the heap. */
  lemma {:induction false} BinExists(size: nat, k: nat)
    requires 0 < BinSize(k) <= size
    ensures FindFirstSetOne(size) >= FindFirstSetOne(ALIGNMENT) + k
    decreases k
  {
    BinSizes(k);
    if k == 0 {
      LogGrows(ALIGNMENT, size);
    } else {
      BinSizes(k - 1);
      BinExists(size / 2, k - 1);
    }
  }

  lemma {:induction false} LogIs(v: nat)
    requires v > 0
    ensures TwoTo(FindFirstSetOne(v)) <= v < 2 * TwoTo(FindFirstSetOne(v))
  {
    if v > 1 {
      LogIs(v / 2);
    }
  }

  lemma {:induction false} TwoToAdd(j: nat, k: nat)
    ensures TwoTo(j + k) == TwoTo(j) * TwoTo(k)
    decreases k
  {
    if k > 0 {
      TwoToAdd(j, k - 1);
      assert 2 * (TwoTo(j) * TwoTo(k - 1)) == TwoTo(j) * (2 * TwoTo(k - 1));
    }
  }

  /** The largest bin is of the largest power of two in the heap's size. */
  lemma LargestBin(size: nat)
    requires size >= ALIGNMENT
    ensures NumBins(size) >= 1 && BinSize(NumBins(size) - 1) <= size < 2 * BinSize(NumBins(size) - 1)
  {
    LogGrows(ALIGNMENT, size);
    var k := NumBins(size) - 1;
    BinSizeIs(k);
    LogIs(size);
    LogIs(ALIGNMENT);
    assert FindFirstSetOne(ALIGNMENT) == 7 by { LogOfAlignment(); }
    TwoToAdd(7, k);
  }

  lemma LogOfAlignment()
    ensures FindFirstSetOne(ALIGNMENT) == 7 && TwoTo(7) == 128
  {
    assert FindFirstSetOne(2) == 1 && FindFirstSetOne(4) == 2 && FindFirstSetOne(8) == 3;
    assert FindFirstSetOne(16) == 4 && FindFirstSetOne(32) == 5 && FindFirstSetOne(64) == 6;
    assert TwoTo(2) == 4 && TwoTo(4) == 16 && TwoTo(6) == 64;
  }

  lemma {:induction false} AssignKeepsRecords(bins: seq<seq<Record>>, address: int, size: nat, k: nat)
    requires k < |bins| && bins[k] != []
    ensures AssignChunks(bins, address, size)[k] != []
    decreases size
  {
    var j := LargestFit(|bins|, size);
    if j < |bins| {
      BinSizes(j);
      var b := bins[j := bins[j] + [Record(address, BinSize(j))]];
      AssignKeepsRecords(b, address + BinSize(j), size - BinSize(j), k);
    }
  }

  /** No larger bin than the one found fits, and none at all if none is found. */
  lemma {:induction false} NoLargerFits(n: nat, size: nat, j: nat)
    requires j < n && BinSize(j) <= size
    ensures j <= LargestFit(n, size) < n
    decreases n
  {
    if BinSize(n - 1) > size {
      NoLargerFits(n - 1, size, j);
    }
  }

  /** The first cut is of the largest size that fits. */
  lemma {:induction false} LargestIsCut(bins: seq<seq<Record>>, address: int, size: nat, k: nat)
    requires k < |bins| && BinSize(k) <= size
    ensures var j := LargestFit(|bins|, size); k <= j < |bins| && AssignChunks(bins, address, size)[j] != []
  {
    NoLargerFits(|bins|, size, k);
    var j := LargestFit(|bins|, size);
    BinSizes(j);
    AssignKeepsRecords(bins[j := bins[j] + [Record(address, BinSize(j))]], address + BinSize(j), size - BinSize(j), j);
  }

  /** A record of a fresh heap lies in the usable part. */
  lemma {:induction false} RecordFits(size: nat, misaligned: nat, k: nat)
    requires size >= ALIGNMENT && misaligned < ALIGNMENT
    requires k < |Build(size, misaligned).bins| && Build(size, misaligned).bins[k] != []
    ensures BinSize(k) <= UsableSize(size, misaligned)
  {
    var h := Build(size, misaligned);
    BuildCorrect(size, misaligned);
    var rec := Top(h.bins[k]);
    assert GoodRecord(rec, k);
    BinSizes(k);
    var x := rec.address + rec.size - 1;
    SumPop(ByteIn(x), h.bins[k]);
    SumAtLeast(StackBytes(x), h.bins, k);
    assert Cover(h, x) >= 1;
  }

  /** A fresh heap can serve a request exactly when some power-of-two multiple of 128
      bytes is large enough for it and fits in the usable part. */
  lemma FreshAllocIff(size: nat, misaligned: nat, request: nat)
    requires size >= ALIGNMENT && misaligned < ALIGNMENT && request > 0
    ensures Alloc(Build(size, misaligned), request).1 != NULL <==>
            exists k: nat :: request <= 128 * TwoTo(k) <= UsableSize(size, misaligned)
  {
    var h := Build(size, misaligned);
    BuildCorrect(size, misaligned);
    AllocCorrect(h, request);
    if k: nat :| request <= 128 * TwoTo(k) <= UsableSize(size, misaligned) {
      LargeRecord(size, misaligned, request, k);
    } else {
      forall j | 0 <= j < |h.bins| && BinSize(j) >= request ensures h.bins[j] == [] {
        if h.bins[j] != [] {
          RecordFits(size, misaligned, j);
          BinSizeIs(j);
        }
      }
    }
  }

  lemma {:induction false} LargeRecord(size: nat, misaligned: nat, request: nat, k: nat)
    requires size >= ALIGNMENT && misaligned < ALIGNMENT && request <= 128 * TwoTo(k) <= UsableSize(size, misaligned)
    ensures var h := Build(size, misaligned);
      exists j :: 0 <= j < |h.bins| && BinSize(j) >= request && h.bins[j] != []
  {
    var h, usable := Build(size, misaligned), UsableSize(size, misaligned);
    BinSizeIs(k);
    BinExists(size, k);
    LargestIsCut(seq(NumBins(size), _ => []), 0, usable, k);
    var j := LargestFit(NumBins(size), usable);
    if j > k {
      BinSizeGrows(k, j);
    }
    assert h.bins[j] != [];
  }

  lemma {:induction false} AssignStep(bins: seq<seq<Record>>, address: int, size: nat)
    requires LargestFit(|bins|, size) < |bins|
    ensures var k := LargestFit(|bins|, size);
      && ALIGNMENT <= BinSize(k) <= size
      && AssignChunks(bins, address, size)
         == AssignChunks(bins[k := bins[k] + [Record(address, BinSize(k))]], address + BinSize(k), size - BinSize(k))
  {
    BinSizes(LargestFit(|bins|, size));
  }

  // ----- the allocator object -----

  class Strategy {
    var bins: seq<seq<Record>>
    var proffered: map<int, Record>

    ghost function View(): Heap
      reads this
    {
      Heap(bins, proffered)
    }

    ghost predicate Valid()
      reads this
    {
      Shaped(View()) && Exclusive(View())
    }

    /** Cut the heap into records, largest first, until nothing fits. */
    constructor (size: nat, misaligned: nat)
      requires size >= ALIGNMENT && misaligned < ALIGNMENT
      ensures Valid() && View() == Build(size, misaligned)
    {
      LogGrows(ALIGNMENT, size);
      var b: seq<seq<Record>> := seq(NumBins(size), _ => []);
      var address, left: nat := 0, UsableSize(size, misaligned);
      ghost var whole := AssignChunks(b, address, left);
      while LargestFit(|b|, left) < |b|
        invariant AssignChunks(b, address, left) == whole
        decreases left
      {
        var k := LargestFit(|b|, left);
        AssignStep(b, address, left);
        b := b[k := b[k] + [Record(address, BinSize(k))]];
        address, left := address + BinSize(k), left - BinSize(k);
      }
      bins, proffered := b, map[];
      BuildCorrect(size, misaligned);
    }

    method SplitLargerBin(k: nat)
      requires k < |bins|
      modifies this
      ensures View() == old(View()).(bins := SplitLarger(old(bins), k))
      decreases |bins| - k
    {
      if k + 1 == |bins| {
        return;
      }
      if bins[k + 1] == [] {
        SplitLargerBin(k + 1);
      }
      if bins[k + 1] == [] {
        return;
      }
      var record := Top(bins[k + 1]);
      bins := bins[k + 1 := Pop(bins[k + 1])];
      var (smaller, larger) := Halves(record);
      bins := bins[k := bins[k] + [larger]];
      bins := bins[k := bins[k] + [smaller]];
    }

    method RetrieveFrom(k: nat) returns (p: int)
      requires k < |bins|
      modifies this
      ensures (View(), p) == Retrieve(old(View()), k)
    {
      if bins[k] == [] {
        SplitLargerBin(k);
      }
      if bins[k] == [] {
        return NULL;
      }
      var record := Top(bins[k]);
      bins := bins[k := Pop(bins[k])];
      proffered := proffered[record.address := record];
      p := record.address;
    }

    method Allocate(request: nat) returns (p: int)
      requires Valid()
      modifies this
      ensures Valid() && (View(), p) == Alloc(old(View()), request)
      ensures SameCover(old(View()), View())
      ensures p != NULL ==> p !in old(proffered) && p in proffered && proffered[p].size >= request
    {
      AllocCorrect(View(), request);
      p := NULL;
      if request == 0 {
        return;
      }
      var k := LowerBound(|bins|, request, 0);
      if k == |bins| {
        return;
      }
      if BinSize(k) == request {
        p := RetrieveFrom(k);
      }
      if p == NULL {
        p := RetrieveFrom(k);
      }
    }

    method Release(p: int)
      requires Valid() && (p == NULL || p in proffered)
      modifies this
      ensures Valid() && View() == Free(old(View()), p)
      ensures SameCover(old(View()), View())
      ensures proffered == old(proffered) - {p}
    {
      if p == NULL {
        ProfferedNotNull(View());
        return;
      }
      FreeCorrect(View(), p);
      var record := proffered[p];
      proffered := proffered - {p};
      var k := LowerBound(|bins|, record.size, 0);
      bins := bins[k := bins[k] + [record]];
    }
  }
}
