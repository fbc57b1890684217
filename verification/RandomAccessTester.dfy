/** The loops of the random-access test, proved against the layout and the oracle. */
module RandomAccessTester {
  import opened Arith
  import opened RandomAccess

  /** The bin that table entry c should describe. */
  function Expected(l: Layout, draws: seq<Draw>, c: nat): Bin
    requires Legal(l) && c < |draws|
  {
    MakeBin(l, c / l.numBins, c % l.numBins, draws[c])
  }

  /** The first n entries of the tables are as expected. */
  predicate Filled(l: Layout, draws: seq<Draw>, lanes: array<int>, offsets: array<int>, pes: array<int>, n: nat)
    requires Legal(l) && lanes.Length == offsets.Length == pes.Length == |draws| && n <= |draws|
    reads lanes, offsets, pes
  {
    forall c :: 0 <= c < n ==> Bin(lanes[c], offsets[c], pes[c]) == Expected(l, draws, c)
  }

  /** One pass of the inner loop. */
  method FillBin(l: Layout, draws: seq<Draw>, lanes: array<int>, offsets: array<int>, pes: array<int>, j: nat, i: nat)
    requires Legal(l) && lanes.Length == offsets.Length == pes.Length == |draws|
    requires lanes != offsets && offsets != pes && lanes != pes
    requires i < l.numBins && j * l.numBins + i < |draws| && Filled(l, draws, lanes, offsets, pes, j * l.numBins + i)
    modifies lanes, offsets, pes
    ensures Filled(l, draws, lanes, offsets, pes, j * l.numBins + i + 1)
  {
    var current := j * l.numBins + i;
    var d := draws[current];
    var quad := WAVE / l.numBins;
    var allowed := quad - l.coal - 1;
    var value := 0;
    if allowed != 0 {
      value := d.lane % allowed;
    }
    lanes[current] := value + i * quad;
    quad := l.maxSize / (l.numBins + l.numWaves);
    value := d.offset % (quad - (l.words * l.coal - 1));
    offsets[current] := value + current * quad;
    pes[current] := d.pe % l.numPes;
    assert Bin(lanes[current], offsets[current], pes[current]) == MakeBin(l, j, i, d);
    DivideUnique(current, l.numBins, j, i);
  }

  /** One pass of the outer loop. */
  method FillWave(l: Layout, draws: seq<Draw>, lanes: array<int>, offsets: array<int>, pes: array<int>, j: nat)
    requires Legal(l) && lanes.Length == offsets.Length == pes.Length == |draws|
    requires lanes != offsets && offsets != pes && lanes != pes
    requires j * l.numBins + l.numBins <= |draws| && Filled(l, draws, lanes, offsets, pes, j * l.numBins)
    modifies lanes, offsets, pes
    ensures Filled(l, draws, lanes, offsets, pes, j * l.numBins + l.numBins)
  {
    for i := 0 to l.numBins
      invariant Filled(l, draws, lanes, offsets, pes, j * l.numBins + i)
    {
      FillBin(l, draws, lanes, offsets, pes, j, i);
    }
  }

  lemma NextWave(l: Layout, j: nat)
    requires j < l.numWaves
    ensures (j + 1) * l.numBins == j * l.numBins + l.numBins <= l.numWaves * l.numBins
  {
    MulMonotone(l.numBins, j + 1, l.numWaves);
    Distribute(l.numBins, j, 1);
  }

  /** Fill the three tables, wave by wave and bin by bin. */
  method InitBins(l: Layout, draws: seq<Draw>, lanes: array<int>, offsets: array<int>, pes: array<int>)
    requires Legal(l) && |draws| == l.numWaves * l.numBins
    requires lanes.Length == offsets.Length == pes.Length == |draws|
    requires lanes != offsets && offsets != pes && lanes != pes
    modifies lanes, offsets, pes
    ensures Filled(l, draws, lanes, offsets, pes, |draws|)
  {
    for j := 0 to l.numWaves
      invariant j * l.numBins <= |draws| && Filled(l, draws, lanes, offsets, pes, j * l.numBins)
    {
      NextWave(l, j);
      FillWave(l, draws, lanes, offsets, pes, j);
    }
  }

  // ----- the kernel -----

  predicate Hit(p: Launch, bins: seq<Bin>, i: int, lane: int) {
    0 <= i < |bins| && bins[i].lane <= lane < bins[i].lane + p.coal
  }

  /** A lane falls in at most one bin's window. */
  lemma OneWindow(p: Launch, bins: seq<Bin>, i: int, k: int, lane: int)
    requires LegalLaunch(p) && GoodBins(p, bins) && Hit(p, bins, i, lane) && Hit(p, bins, k, lane)
    ensures i == k
  {
    LaunchIsLegal(p);
    if i < k {
      BinsDisjoint(LayoutOf(p), 0, i, k, bins[i], bins[k]);
    } else if k < i {
      BinsDisjoint(LayoutOf(p), 0, k, i, bins[k], bins[i]);
    }
  }

  method ThreadPassing(p: Launch, bins: seq<Bin>, lane: nat) returns (pass: bool, offset: int, pe: int)
    requires LegalLaunch(p) && GoodBins(p, bins)
    ensures pass <==> exists i :: Hit(p, bins, i, lane)
    ensures forall i :: Hit(p, bins, i, lane) ==>
      offset == LaneStart(p, bins[i], lane - bins[i].lane) && pe == bins[i].pe
  {
    pass, offset, pe := false, 0, 0;
    for i := 0 to p.numBins
      invariant pass <==> exists k :: 0 <= k < i && Hit(p, bins, k, lane)
      invariant forall k :: 0 <= k < i && Hit(p, bins, k, lane) ==>
        offset == LaneStart(p, bins[k], lane - bins[k].lane) && pe == bins[k].pe
    {
      if lane >= bins[i].lane && lane < bins[i].lane + p.coal {
        assert Hit(p, bins, i, lane);
        forall k | 0 <= k < i && Hit(p, bins, k, lane) ensures false {
          OneWindow(p, bins, k, i, lane);
        }
        pass := true;
        offset := bins[i].offset + (lane - bins[i].lane) * Words(p);
        pe := bins[i].pe;
      }
    }
  }

  /** Source buffers hold ints equal to one. */
  function SourceByte(x: int): int {
    if x % INT == 0 then 1 else 0
  }

  /** The transfer of one lane, repeated `iters` times. */
  method Transfer(r: array2<int>, q: nat, start: nat, size: nat, iters: nat)
    requires q < r.Length0 && start + size <= r.Length1 && iters >= 1
    modifies r
    ensures forall a, x :: 0 <= a < r.Length0 && 0 <= x < r.Length1 ==>
      r[a, x] == if a == q && start <= x < start + size then SourceByte(x) else old(r[a, x])
  {
    for it := 0 to iters
      invariant forall a, x :: 0 <= a < r.Length0 && 0 <= x < r.Length1 ==>
        r[a, x] == if it > 0 && a == q && start <= x < start + size then SourceByte(x) else old(r[a, x])
    {
      for n := 0 to size
        invariant forall a, x :: 0 <= a < r.Length0 && 0 <= x < r.Length1 ==>
          r[a, x] == if a == q && start <= x < start + (if it > 0 then size else n) then SourceByte(x) else old(r[a, x])
      {
        r[q, start + n] := SourceByte(start + n);
      }
    }
  }

  ghost predicate LaneWrites(p: Launch, op: OpType, bins: seq<Bin>, lane: int, q: int, x: int) {
    exists i :: Hit(p, bins, i, lane) && Target(op, bins[i]) == q && LaneCovers(p, bins[i], lane - bins[i].lane, x)
  }

  lemma ShareEnd(q: nat, i: nat, n: nat, size: nat)
    requires i < n && q >= 1 && (n + 1) * q <= size
    ensures 0 <= i * q && (i + 1) * q + 1 <= size
  {
    MulMonotone(q, 0, i);
    MulMonotone(q, i + 1, n);
    Distribute(q, n, 1);
  }

  /** A bin's region ends before the last share, which no bin uses. */
  lemma RegionInBuffer(p: Launch, bins: seq<Bin>, i: int)
    requires LegalLaunch(p) && GoodBins(p, bins) && 0 <= i < |bins|
    ensures 0 <= bins[i].offset && bins[i].offset + Words(p) * p.coal + 1 <= BufferWords(p)
    ensures 0 <= bins[i].pe < p.numPes
  {
    LaunchIsLegal(p);
    SpillFits(p);
    ShareEnd(OffsetQuad(LayoutOf(p)), i, p.numBins, BufferWords(p));
    assert InShares(LayoutOf(p), i, i, bins[i]);
  }

  lemma LaneInRegion(words: nat, coal: nat, n: nat)
    requires n < coal
    ensures 0 <= n * words && n * words + words <= words * coal
  {
    MulMonotone(words, 0, n);
    MulMonotone(words, n + 1, coal);
    Distribute(words, n, 1);
  }

  /** The lanes of a bin stay inside the buffer. */
  lemma LaneInBuffer(p: Launch, bins: seq<Bin>, i: int, lane: int)
    requires LegalLaunch(p) && GoodBins(p, bins) && Hit(p, bins, i, lane)
    ensures 0 <= INT * LaneStart(p, bins[i], lane - bins[i].lane)
    ensures INT * LaneStart(p, bins[i], lane - bins[i].lane) + p.size <= INT * BufferWords(p)
    ensures 0 <= bins[i].pe < p.numPes
  {
    RegionInBuffer(p, bins, i);
    LaneInRegion(Words(p), p.coal, lane - bins[i].lane);
  }

  ghost predicate AnyWrites(p: Launch, op: OpType, bins: seq<Bin>, lanes: seq<nat>, q: int, x: int) {
    exists m :: 0 <= m < |lanes| && LaneWrites(p, op, bins, lanes[m], q, x)
  }

  /** The lanes of all bins together write exactly the kernel's bytes. */
  lemma LanesTogether(p: Launch, op: OpType, bins: seq<Bin>, order: seq<nat>, q: int, x: int)
    requires LegalLaunch(p) && GoodBins(p, bins)
    requires forall lane: nat :: lane < WAVE ==> lane in order
    ensures AnyWrites(p, op, bins, order, q, x) <==> KernelWrites(p, op, bins, q, x)
  {
    if AnyWrites(p, op, bins, order, q, x) {
      var m :| 0 <= m < |order| && LaneWrites(p, op, bins, order[m], q, x);
      var i :| Hit(p, bins, i, order[m]) && Target(op, bins[i]) == q
        && LaneCovers(p, bins[i], order[m] - bins[i].lane, x);
      assert BinCovers(p, bins[i], x);
    }
    if KernelWrites(p, op, bins, q, x) {
      var i :| 0 <= i < |bins| && Target(op, bins[i]) == q && BinCovers(p, bins[i], x);
      var l :| LaneCovers(p, bins[i], l, x);
      WindowInWave(p, bins, i);
      var lane := bins[i].lane + l;
      assert Hit(p, bins, i, lane) && lane in order;
      assert LaneCovers(p, bins[i], lane - bins[i].lane, x);
      var m :| 0 <= m < |order| && order[m] == lane;
      assert LaneWrites(p, op, bins, order[m], q, x);
    }
  }

  lemma WindowInWave(p: Launch, bins: seq<Bin>, i: int)
    requires LegalLaunch(p) && GoodBins(p, bins) && 0 <= i < |bins|
    ensures 0 <= bins[i].lane && bins[i].lane + p.coal <= WAVE
  {
    var l := LayoutOf(p);
    LaunchIsLegal(p);
    QuadsFill(l);
    assert InShares(l, i, i, bins[i]);
    MulMonotone(LaneQuad(l), 0, i);
    MulMonotone(LaneQuad(l), i + 1, p.numBins);
  }

  /** One lane's turn. */
  method RunLane(p: Launch, op: OpType, bins: seq<Bin>, iters: nat, lane: nat, r: array2<int>)
    requires LegalLaunch(p) && GoodBins(p, bins) && iters >= 1
    requires r.Length0 == p.numPes && r.Length1 == INT * BufferWords(p)
    modifies r
    ensures forall q, x :: 0 <= q < r.Length0 && 0 <= x < r.Length1 ==>
      r[q, x] == if LaneWrites(p, op, bins, lane, q, x) then SourceByte(x) else old(r[q, x])
  {
    var pass, offset, pe := ThreadPassing(p, bins, lane);
    if pass {
      ghost var i :| Hit(p, bins, i, lane);
      LaneInBuffer(p, bins, i, lane);
      forall k | Hit(p, bins, k, lane) ensures k == i {
        OneWindow(p, bins, i, k, lane);
      }
      // a put changes the target's buffer, a get the caller's, which is PE 0
      Transfer(r, if op == PutType then pe else 0, INT * offset, p.size, iters);
      assert forall q, x :: LaneWrites(p, op, bins, lane, q, x) <==>
        Target(op, bins[i]) == q && LaneCovers(p, bins[i], lane - bins[i].lane, x);
    }
  }

  /** All 64 lanes, in any order, on receive buffers that start as zeros. */
  method Kernel(p: Launch, op: OpType, bins: seq<Bin>, iters: nat, order: seq<nat>, r: array2<int>)
    requires LegalLaunch(p) && GoodBins(p, bins) && iters >= 1
    requires forall lane: nat :: lane < WAVE ==> lane in order
    requires r.Length0 == p.numPes && r.Length1 == INT * BufferWords(p)
    requires forall q, x :: 0 <= q < r.Length0 && 0 <= x < r.Length1 ==> r[q, x] == 0
    modifies r
    ensures forall q, x :: 0 <= q < r.Length0 && 0 <= x < r.Length1 ==>
      r[q, x] == if KernelWrites(p, op, bins, q, x) then SourceByte(x) else 0
  {
    for k := 0 to |order|
      invariant forall q, x :: 0 <= q < r.Length0 && 0 <= x < r.Length1 ==>
        r[q, x] == if AnyWrites(p, op, bins, order[..k], q, x) then SourceByte(x) else 0
    {
      RunLane(p, op, bins, iters, order[k], r);
      forall q, x ensures AnyWrites(p, op, bins, order[..k + 1], q, x) <==>
        AnyWrites(p, op, bins, order[..k], q, x) || LaneWrites(p, op, bins, order[k], q, x)
      {
        OneMoreLane(p, op, bins, order, k, q, x);
      }
    }
    assert order[..|order|] == order;
    forall q, x | 0 <= q < r.Length0 && 0 <= x < r.Length1
      ensures r[q, x] == if KernelWrites(p, op, bins, q, x) then SourceByte(x) else 0
    {
      LanesTogether(p, op, bins, order, q, x);
    }
  }

  lemma OneMoreLane(p: Launch, op: OpType, bins: seq<Bin>, order: seq<nat>, k: nat, q: int, x: int)
    requires k < |order|
    ensures AnyWrites(p, op, bins, order[..k + 1], q, x) <==>
            AnyWrites(p, op, bins, order[..k], q, x) || LaneWrites(p, op, bins, order[k], q, x)
  {
    var all, some := order[..k + 1], order[..k];
    assert forall m :: 0 <= m < k ==> all[m] == some[m];
    assert all[k] == order[k];
    if AnyWrites(p, op, bins, some, q, x) {
      var m :| 0 <= m < |some| && LaneWrites(p, op, bins, some[m], q, x);
      assert LaneWrites(p, op, bins, all[m], q, x);
    }
  }

  // ----- the oracle and the comparison -----

  /** The expected buffer of PE `me`. */
  method ExpectedBuffer(p: Launch, op: OpType, bins: seq<Bin>, me: nat) returns (h: array<int>)
    requires LegalLaunch(p) && GoodBins(p, bins)
    ensures fresh(h) && h.Length == BufferWords(p)
    ensures forall w :: 0 <= w < h.Length ==> h[w] == if OracleSets(p, op, bins, me, w) then 1 else 0
  {
    h := new int[BufferWords(p)](_ => 0);
    for i := 0 to p.numBins
      invariant forall w :: 0 <= w < h.Length ==> h[w] == if OracleSets(p, op, bins[..i], me, w) then 1 else 0
    {
      if Target(op, bins[i]) == me {
        RegionInBuffer(p, bins, i);
        MulMonotone(Words(p), 0, p.coal);
        for j := 0 to Words(p) * p.coal
          invariant forall w :: 0 <= w < h.Length ==>
            h[w] == if OracleSets(p, op, bins[..i], me, w) || bins[i].offset <= w < bins[i].offset + j then 1 else 0
        {
          h[bins[i].offset + j] := 1;
        }
      }
      forall w | 0 <= w < h.Length ensures OracleSets(p, op, bins[..i + 1], me, w) <==>
        OracleSets(p, op, bins[..i], me, w) || (Target(op, bins[i]) == me && InRegion(p, bins[i], w))
      {
        OneMoreBin(p, op, bins, i, me, w);
      }
    }
    assert bins[..p.numBins] == bins;
  }

  lemma OneMoreBin(p: Launch, op: OpType, bins: seq<Bin>, i: nat, me: int, w: int)
    requires i < |bins|
    ensures OracleSets(p, op, bins[..i + 1], me, w) <==>
            OracleSets(p, op, bins[..i], me, w) || (Target(op, bins[i]) == me && InRegion(p, bins[i], w))
  {
    var all, some := bins[..i + 1], bins[..i];
    assert forall k :: 0 <= k < i ==> all[k] == some[k];
    assert all[i] == bins[i];
    if OracleSets(p, op, some, me, w) {
      var k :| 0 <= k < |some| && Target(op, some[k]) == me && InRegion(p, some[k], w);
      assert InRegion(p, all[k], w);
    }
  }

  /** Word w of a byte buffer. */
  function WordAt(r: array2<int>, q: nat, w: nat): int
    requires q < r.Length0 && INT * w + 3 < r.Length1
    reads r
  {
    r[q, INT * w] + 256 * (r[q, INT * w + 1] + 256 * (r[q, INT * w + 2] + 256 * r[q, INT * w + 3]))
  }

  /** Receive buffers as the kernel leaves them. */
  ghost predicate KernelDone(p: Launch, op: OpType, bins: seq<Bin>, r: array2<int>)
    reads r
  {
    && r.Length0 == p.numPes && r.Length1 == INT * BufferWords(p)
    && forall q, x :: 0 <= q < r.Length0 && 0 <= x < r.Length1 ==>
         r[q, x] == if KernelWrites(p, op, bins, q, x) then SourceByte(x) else 0
  }

  /** A word of a receive buffer is one if its first byte was written, else zero. */
  lemma WordFromFirstByte(p: Launch, op: OpType, bins: seq<Bin>, r: array2<int>, q: nat, w: nat)
    requires KernelDone(p, op, bins, r) && q < p.numPes && w < BufferWords(p)
    ensures WordAt(r, q, w) == if KernelWrites(p, op, bins, q, INT * w) then 1 else 0
  {
    BytesOfWord(w);
  }

  lemma BytesOfWord(w: nat)
    ensures SourceByte(INT * w) == 1
    ensures SourceByte(INT * w + 1) == 0 && SourceByte(INT * w + 2) == 0 && SourceByte(INT * w + 3) == 0
  {
    DivideUnique(INT * w, INT, w, 0);
    DivideUnique(INT * w + 1, INT, w, 1);
    DivideUnique(INT * w + 2, INT, w, 2);
    DivideUnique(INT * w + 3, INT, w, 3);
  }

  /** Compare one PE's buffer with its expected buffer. */
  method Compare(p: Launch, op: OpType, bins: seq<Bin>, me: nat, r: array2<int>) returns (ok: bool)
    requires LegalLaunch(p) && GoodBins(p, bins) && me < p.numPes && KernelDone(p, op, bins, r)
    ensures ok <==> forall w: nat :: w < BufferWords(p) ==> Agrees(p, op, bins, me, w)
  {
    var h := ExpectedBuffer(p, op, bins, me);
    ok := true;
    for w := 0 to BufferWords(p)
      invariant forall v :: 0 <= v < h.Length ==> h[v] == if OracleSets(p, op, bins, me, v) then 1 else 0
      invariant ok <==> forall v: nat :: v < w ==> Agrees(p, op, bins, me, v)
    {
      WordFromFirstByte(p, op, bins, r, me, w);
      assert WordAt(r, me, w) == h[w] <==> Agrees(p, op, bins, me, w);
      if WordAt(r, me, w) != h[w] {
        ok := false;
      }
    }
  }

  ghost predicate AllAgree(p: Launch, op: OpType, bins: seq<Bin>, pes: nat) {
    forall me: nat, w: nat :: me < pes && w < BufferWords(p) ==> Agrees(p, op, bins, me, w)
  }

  /** Every PE compares. */
  method CompareAll(p: Launch, op: OpType, bins: seq<Bin>, r: array2<int>) returns (ok: bool)
    requires LegalLaunch(p) && GoodBins(p, bins) && KernelDone(p, op, bins, r)
    ensures ok <==> AllAgree(p, op, bins, p.numPes)
  {
    ok := true;
    for me := 0 to p.numPes
      invariant ok <==> AllAgree(p, op, bins, me)
    {
      var same := Compare(p, op, bins, me, r);
      ok := ok && same;
    }
  }

  method MakeBins(p: Launch, draws: seq<Draw>) returns (bins: seq<Bin>)
    requires LegalLaunch(p) && |draws| == p.numBins
    ensures Legal(LayoutOf(p)) && bins == BinsOf(p, draws) && GoodBins(p, bins)
  {
    BinsAreGood(p, draws);
    var lanes, offsets, pes := new int[p.numBins], new int[p.numBins], new int[p.numBins];
    InitBins(LayoutOf(p), draws, lanes, offsets, pes);
    bins := seq(p.numBins, i requires 0 <= i < p.numBins reads lanes, offsets, pes =>
      Bin(lanes[i], offsets[i], pes[i]));
    TablesAreBins(p, draws, bins);
  }

  /** The whole test on all PEs: bins, kernel, comparison. It passes exactly when
      kernel and oracle agree for these draws, and always for whole ints. */
  method RunTest(p: Launch, op: OpType, iters: nat, draws: seq<Draw>, order: seq<nat>) returns (ok: bool)
    requires LegalLaunch(p) && iters >= 1 && |draws| == p.numBins
    requires forall lane: nat :: lane < WAVE ==> lane in order
    ensures Legal(LayoutOf(p)) && (ok <==> AllAgree(p, op, BinsOf(p, draws), p.numPes))
    ensures p.size % INT == 0 ==> ok
  {
    var bins := MakeBins(p, draws);
    var r := new int[p.numPes, INT * BufferWords(p)]((_, _) => 0);
    Kernel(p, op, bins, iters, order, r);
    ok := CompareAll(p, op, bins, r);
    OracleIff(p, op);
  }

  lemma TablesAreBins(p: Launch, draws: seq<Draw>, bins: seq<Bin>)
    requires Legal(LayoutOf(p)) && |draws| == |bins| == p.numBins
    requires forall c :: 0 <= c < |bins| ==> bins[c] == Expected(LayoutOf(p), draws, c)
    ensures bins == BinsOf(p, draws)
  {
    forall c | 0 <= c < |bins| ensures bins[c] == BinsOf(p, draws)[c] {
      DivideUnique(c, p.numBins, 0, c);
    }
  }
}
