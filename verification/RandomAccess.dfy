/**
 The random-access test: bins of lanes and buffer offsets placed at random, the
 kernel that lets every lane of a bin move `size` bytes, and the expected buffer
 that the host computes on its own. One work-group of 64 threads, hence one wave,
 and the same bins on every PE. Buffers are bytes; an int is four of them, least
 significant first. The random numbers are arguments.
 */
module RandomAccess {
  import opened Arith

  const WAVE: nat := 64
  const SPACE: nat := 32
  const INT: nat := 4

  /** What `init_bins` is called with; `words` and `maxSize` count ints. */
  datatype Layout = Layout(numBins: nat, numWaves: nat, words: nat, coal: nat, numPes: nat, maxSize: nat)

  /** Three results of rand() for one bin. */
  datatype Draw = Draw(lane: nat, offset: nat, pe: nat)

  datatype Bin = Bin(lane: int, offset: int, pe: int)

  function LaneQuad(l: Layout): nat
    requires l.numBins > 0
  {
    WAVE / l.numBins
  }

  function OffsetQuad(l: Layout): nat
    requires l.numBins > 0
  {
    l.maxSize / (l.numBins + l.numWaves)
  }

  function Allowed(l: Layout): int
    requires l.numBins > 0
  {
    LaneQuad(l) - l.coal - 1
  }

  function Modulus(l: Layout): int
    requires l.numBins > 0
  {
    OffsetQuad(l) - (l.words * l.coal - 1)
  }

  /** The assertions of the source, and positive divisors. */
  predicate Legal(l: Layout) {
    && l.numBins >= 1 && WAVE % l.numBins == 0 && l.coal >= 1 && Allowed(l) >= 0
    && l.numPes >= 1 && Modulus(l) >= 1
  }

  /** Bin i of wave j. */
  function MakeBin(l: Layout, j: nat, i: nat, d: Draw): Bin
    requires Legal(l)
  {
    var current := j * l.numBins + i;
    Bin((if Allowed(l) != 0 then d.lane % Allowed(l) else 0) + i * LaneQuad(l),
        d.offset % Modulus(l) + current * OffsetQuad(l),
        d.pe % l.numPes)
  }

  // ----- layout -----

  lemma QuadsFill(l: Layout)
    requires Legal(l)
    ensures l.numBins * LaneQuad(l) == WAVE
  {
  }

  /** A bin's lane window lies in its own share of the wave, and its words lie in
      its own share of the buffer. */
  predicate InShares(l: Layout, current: nat, i: nat, b: Bin)
    requires l.numBins > 0
  {
    && i * LaneQuad(l) <= b.lane && b.lane + l.coal <= (i + 1) * LaneQuad(l)
    && current * OffsetQuad(l) <= b.offset && b.offset + l.words * l.coal <= (current + 1) * OffsetQuad(l)
    && 0 <= b.pe < l.numPes
  }

  lemma BinInShares(l: Layout, j: nat, i: nat, d: Draw)
    requires Legal(l)
    ensures InShares(l, j * l.numBins + i, i, MakeBin(l, j, i, d))
  {
    var current := j * l.numBins + i;
    assert (i + 1) * LaneQuad(l) == i * LaneQuad(l) + LaneQuad(l);
    assert (current + 1) * OffsetQuad(l) == current * OffsetQuad(l) + OffsetQuad(l);
  }

  /** Which bins can be drawn: every PE, every start of a lane window but the last,
      and every offset that leaves room for the bin's words in its share. */
  predicate Drawable(l: Layout, j: nat, i: nat, b: Bin)
    requires l.numBins > 0
  {
    var lanes, share := 64 / l.numBins, l.maxSize / (l.numBins + l.numWaves);
    var start, offset := b.lane - i * lanes, b.offset - (j * l.numBins + i) * share;
    && 0 <= start && (start == 0 || start + l.coal + 1 < lanes)
    && 0 <= offset && offset + l.words * l.coal <= share
    && 0 <= b.pe < l.numPes
  }

  ghost predicate Drawn(l: Layout, j: nat, i: nat, b: Bin)
    requires Legal(l)
  {
    exists d: Draw :: MakeBin(l, j, i, d) == b
  }

  lemma BinDrawnIff(l: Layout, j: nat, i: nat, b: Bin)
    requires Legal(l)
    ensures Drawn(l, j, i, b) <==> Drawable(l, j, i, b)
  {
    if Drawable(l, j, i, b) {
      var start: nat := b.lane - i * LaneQuad(l);
      var offset: nat := b.offset - (j * l.numBins + i) * OffsetQuad(l);
      if Allowed(l) != 0 {
        DivideUnique(start, Allowed(l), 0, start);
      }
      DivideUnique(offset, Modulus(l), 0, offset);
      DivideUnique(b.pe, l.numPes, 0, b.pe);
      assert MakeBin(l, j, i, Draw(start, offset, b.pe)) == b;
    }
  }

  lemma SharesOrdered(q: nat, a: nat, b: nat, n: nat)
    requires a < b < n
    ensures 0 <= a * q && (a + 1) * q <= b * q && (b + 1) * q <= n * q
  {
    MulMonotone(q, 0, a);
    MulMonotone(q, a + 1, b);
    MulMonotone(q, b + 1, n);
  }

  /** The windows of two bins of a wave share no lane and lie in the wave; their
      regions of the buffer share no word. */
  lemma BinsDisjoint(l: Layout, first: nat, a: nat, b: nat, x: Bin, y: Bin)
    requires Legal(l) && a < b < l.numBins && InShares(l, first + a, a, x) && InShares(l, first + b, b, y)
    ensures 0 <= x.lane && x.lane + l.coal <= y.lane && y.lane + l.coal <= WAVE
    ensures 0 <= x.offset && x.offset + l.words * l.coal <= y.offset
  {
    QuadsFill(l);
    SharesOrdered(LaneQuad(l), a, b, l.numBins);
    SharesOrdered(OffsetQuad(l), first + a, first + b, first + b + 1);
  }

  ghost predicate InBuffer(l: Layout, b: Bin) {
    0 <= b.offset && b.offset + l.words * l.coal <= l.maxSize
  }

  ghost predicate AlwaysInBuffer(l: Layout)
    requires Legal(l)
  {
    forall j: nat, i: nat, d: Draw :: j < l.numWaves && i < l.numBins ==> InBuffer(l, MakeBin(l, j, i, d))
  }

  lemma BinIndexBound(l: Layout, j: nat, i: nat)
    requires j < l.numWaves && i < l.numBins
    ensures j * l.numBins + i + 1 <= l.numWaves * l.numBins
  {
    MulMonotone(l.numBins, j + 1, l.numWaves);
    Distribute(l.numBins, j, 1);
  }

  lemma ShareInBuffer(l: Layout, current: nat, i: nat, b: Bin)
    requires l.numBins > 0 && InShares(l, current, i, b) && current < l.numWaves * l.numBins
    requires (l.numWaves * l.numBins) * OffsetQuad(l) <= l.maxSize
    ensures InBuffer(l, b)
  {
    MulMonotone(OffsetQuad(l), current + 1, l.numWaves * l.numBins);
    MulMonotone(OffsetQuad(l), 0, current);
  }

  /** The largest draw puts a bin at the very end of its share. */
  lemma LargestDraw(l: Layout, j: nat, i: nat)
    requires Legal(l)
    ensures var d := Draw(0, Modulus(l) - 1, 0);
      MakeBin(l, j, i, d).offset + l.words * l.coal == (j * l.numBins + i + 1) * OffsetQuad(l)
  {
    DivideUnique(Modulus(l) - 1, Modulus(l), 0, Modulus(l) - 1);
    Distribute(OffsetQuad(l), j * l.numBins + i, 1);
  }

  lemma SharesFit(l: Layout)
    requires Legal(l) && (l.numWaves * l.numBins) * OffsetQuad(l) <= l.maxSize
    ensures AlwaysInBuffer(l)
  {
    forall j: nat, i: nat, d: Draw | j < l.numWaves && i < l.numBins ensures InBuffer(l, MakeBin(l, j, i, d)) {
      BinInShares(l, j, i, d);
      BinIndexBound(l, j, i);
      ShareInBuffer(l, j * l.numBins + i, i, MakeBin(l, j, i, d));
    }
  }

  lemma SharesTooLarge(l: Layout)
    requires Legal(l) && l.numWaves >= 1 && (l.numWaves * l.numBins) * OffsetQuad(l) > l.maxSize
    ensures !AlwaysInBuffer(l)
  {
    var j, i := l.numWaves - 1, l.numBins - 1;
    LargestDraw(l, j, i);
    assert j * l.numBins + i + 1 == l.numWaves * l.numBins by { Distribute(l.numBins, l.numWaves, 1); }
    assert !InBuffer(l, MakeBin(l, j, i, Draw(0, Modulus(l) - 1, 0)));
  }

  /** For any number of waves, all draws stay inside the buffer exactly when the
      bins' shares together do. The shares are computed from numBins + numWaves,
      not from the number of bins, so this is not automatic. */
  lemma InBufferIff(l: Layout)
    requires Legal(l) && l.numWaves >= 1
    ensures AlwaysInBuffer(l) <==> (l.numWaves * l.numBins) * OffsetQuad(l) <= l.maxSize
  {
    if (l.numWaves * l.numBins) * OffsetQuad(l) <= l.maxSize {
      SharesFit(l);
    } else {
      SharesTooLarge(l);
    }
  }

  /** Two bins and three waves: the shares are fifths of the buffer, but there are
      six of them. This is about `init_bins` alone; the tester's own assertions let
      only one wave through. */
  lemma SixFifths()
    ensures Legal(Layout(2, 3, 1, 1, 1, 5)) && !AlwaysInBuffer(Layout(2, 3, 1, 1, 1, 5))
  {
    InBufferIff(Layout(2, 3, 1, 1, 1, 5));
  }

  // ----- the launch of the tester -----

  /** A launch with one wave: `size` bytes per lane, `coal` lanes per bin. */
  datatype Launch = Launch(numBins: nat, coal: nat, size: nat, numPes: nat)

  predicate LegalLaunch(p: Launch) {
    && p.numBins >= 1 && WAVE % p.numBins == 0 && p.coal >= 1 && WAVE / p.numBins - p.coal - 1 >= 0
    && p.size >= 1 && p.numPes >= 1
  }

  /** Every bin with one more lane than it uses fits in the wave. */
  lemma LegalLaunchIff(p: Launch)
    ensures LegalLaunch(p) <==>
      && p.size >= 1 && p.numPes >= 1 && p.coal >= 1 && p.numBins >= 1
      && 64 % p.numBins == 0 && p.numBins * (p.coal + 1) <= 64
  {
    if p.numBins >= 1 && WAVE % p.numBins == 0 {
      var q := WAVE / p.numBins;
      assert p.numBins * q == WAVE;
      if p.coal + 1 <= q {
        MulMonotone(p.numBins, p.coal + 1, q);
      } else {
        MulStep(p.numBins, q, p.coal + 1);
      }
    }
  }

  function Words(p: Launch): nat {
    p.size / INT
  }

  function BufferWords(p: Launch): nat {
    (SPACE * p.size * WAVE) / INT
  }

  function LayoutOf(p: Launch): Layout {
    Layout(p.numBins, 1, Words(p), p.coal, p.numPes, BufferWords(p))
  }

  lemma FewBins(p: Launch)
    requires LegalLaunch(p)
    ensures p.numBins <= 32 && p.coal <= 63 && p.numBins * p.coal <= 64
  {
    var q := WAVE / p.numBins;
    assert p.numBins * q == WAVE;
    MulMonotone(p.numBins, p.coal, q);
    MulMonotone(p.numBins, 2, q);
  }

  /** The modulus of the offset draw is positive in every launch the assertions
      admit, with room for one more word after every bin. */
  lemma LaunchIsLegal(p: Launch)
    requires LegalLaunch(p)
    ensures Legal(LayoutOf(p)) && Modulus(LayoutOf(p)) >= 2
    ensures (p.numBins + 1) * OffsetQuad(LayoutOf(p)) <= BufferWords(p)
  {
    var l := LayoutOf(p);
    FewBins(p);
    assert BufferWords(p) == 512 * p.size;
    RoomPerBin(p.numBins, p.coal, Words(p), p.size);
    var q := OffsetQuad(l);
    var need := Words(p) * p.coal + 1;
    assert (p.numBins + 1) * need <= 512 * p.size;
    QuotientAtLeast(512 * p.size, p.numBins + 1, need);
  }

  lemma RoomPerBin(bins: nat, coal: nat, words: nat, size: nat)
    requires bins <= 32 && coal <= 63 && bins * coal <= 64 && words <= size && size >= 1
    ensures (bins + 1) * (words * coal + 1) <= 512 * size
  {
    calc {
      (bins + 1) * (words * coal + 1);
      { Distribute(bins + 1, words * coal, 1); }
      (bins + 1) * (words * coal) + bins + 1;
      { assert (bins + 1) * (words * coal) == words * (bins * coal + coal); }
      words * (bins * coal + coal) + bins + 1;
    }
    MulMonotone(words, bins * coal + coal, 127);
  }

  lemma QuotientAtLeast(a: nat, b: nat, q: nat)
    requires b > 0 && b * q <= a
    ensures a / b >= q && b * (a / b) <= a
  {
    if a / b < q {
      MulStep(b, a / b, q);
    }
  }

  // ----- which bytes the kernel writes, which words the oracle expects -----

  datatype OpType = PutType | GetType

  /** Whose receive buffer a bin's transfers change: a put's target, or the caller. */
  function Target(op: OpType, b: Bin): int {
    if op == PutType then b.pe else 0
  }

  function BinsOf(p: Launch, draws: seq<Draw>): (bins: seq<Bin>)
    requires Legal(LayoutOf(p)) && |draws| == p.numBins
    ensures |bins| == p.numBins
  {
    seq(|draws|, i requires 0 <= i < |draws| => MakeBin(LayoutOf(p), 0, i, draws[i]))
  }

  predicate GoodBins(p: Launch, bins: seq<Bin>)
    requires p.numBins > 0
  {
    |bins| == p.numBins && forall i :: 0 <= i < |bins| ==> InShares(LayoutOf(p), i, i, bins[i])
  }

  /** First int of the l-th lane of a bin. */
  function LaneStart(p: Launch, b: Bin, l: int): int {
    b.offset + l * Words(p)
  }

  /** Byte x is among the `size` bytes that lane number l of the bin moves. */
  predicate LaneCovers(p: Launch, b: Bin, l: int, x: int) {
    0 <= l < p.coal && INT * LaneStart(p, b, l) <= x < INT * LaneStart(p, b, l) + p.size
  }

  ghost predicate BinCovers(p: Launch, b: Bin, x: int) {
    exists l :: LaneCovers(p, b, l, x)
  }

  ghost predicate KernelWrites(p: Launch, op: OpType, bins: seq<Bin>, q: int, x: int) {
    exists i :: 0 <= i < |bins| && Target(op, bins[i]) == q && BinCovers(p, bins[i], x)
  }

  predicate InRegion(p: Launch, b: Bin, w: int) {
    b.offset <= w < b.offset + Words(p) * p.coal
  }

  predicate OracleSets(p: Launch, op: OpType, bins: seq<Bin>, me: int, w: int) {
    exists i :: 0 <= i < |bins| && Target(op, bins[i]) == me && InRegion(p, bins[i], w)
  }

  ghost predicate SomeCovers(p: Launch, bins: seq<Bin>, x: int) {
    exists i :: 0 <= i < |bins| && BinCovers(p, bins[i], x)
  }

  predicate SomeRegion(p: Launch, bins: seq<Bin>, w: int) {
    exists i :: 0 <= i < |bins| && InRegion(p, bins[i], w)
  }

  function BinsTo(bins: seq<Bin>, q: int): (r: seq<Bin>)
    ensures forall b :: b in r <==> b in bins && b.pe == q
  {
    if bins == [] then [] else (if bins[0].pe == q then [bins[0]] else []) + BinsTo(bins[1..], q)
  }

  /** A put changes the PE its bin names, a get the caller, which is PE 0; the host
      expects the same. */
  lemma {:induction false} WhoseBuffer(p: Launch, bins: seq<Bin>, q: int, x: int, w: int)
    ensures KernelWrites(p, PutType, bins, q, x) <==> SomeCovers(p, BinsTo(bins, q), x)
    ensures KernelWrites(p, GetType, bins, q, x) <==> q == 0 && SomeCovers(p, bins, x)
    ensures OracleSets(p, PutType, bins, q, w) <==> SomeRegion(p, BinsTo(bins, q), w)
    ensures OracleSets(p, GetType, bins, q, w) <==> q == 0 && SomeRegion(p, bins, w)
  {
    var to := BinsTo(bins, q);
    forall i | 0 <= i < |bins| && bins[i].pe == q ensures exists k :: 0 <= k < |to| && to[k] == bins[i] {
      assert bins[i] in to;
    }
    forall k | 0 <= k < |to| ensures exists i :: 0 <= i < |bins| && bins[i] == to[k] && bins[i].pe == q {
      assert to[k] in to;
    }
  }

  lemma BinsAreGood(p: Launch, draws: seq<Draw>)
    requires LegalLaunch(p) && |draws| == p.numBins
    ensures Legal(LayoutOf(p)) && GoodBins(p, BinsOf(p, draws))
  {
    LaunchIsLegal(p);
    var bins := BinsOf(p, draws);
    forall i | 0 <= i < |bins| ensures InShares(LayoutOf(p), i, i, bins[i]) {
      BinInShares(LayoutOf(p), 0, i, draws[i]);
    }
  }

  // ----- the oracle agrees exactly for sizes that are whole ints -----

  /** Lane l of n words each, out of `coal`: its words are among n * coal. */
  lemma LaneWithin(n: nat, coal: nat, l: nat, k: int)
    requires l < coal && l * n <= k < l * n + n
    ensures 0 <= k < n * coal
  {
    MulMonotone(n, l + 1, coal);
    MulMonotone(n, 0, l);
    Distribute(n, l, 1);
  }

  lemma LaneOf(n: nat, coal: nat, k: nat) returns (l: nat)
    requires n >= 1 && k < n * coal
    ensures l < coal && l * n <= k < l * n + n
  {
    l := k / n;
    assert k == n * l + k % n;
    if l >= coal {
      MulMonotone(n, coal, l);
    }
  }

  /** With whole ints the lanes of a bin tile its region. */
  lemma WholeIntsTile(p: Launch, b: Bin, w: int)
    requires LegalLaunch(p) && p.size % INT == 0
    ensures BinCovers(p, b, INT * w) <==> InRegion(p, b, w)
  {
    var n := Words(p);
    assert p.size == INT * n && n >= 1;
    if BinCovers(p, b, INT * w) {
      var l :| LaneCovers(p, b, l, INT * w);
      LaneWithin(n, p.coal, l, w - b.offset);
    }
    if InRegion(p, b, w) {
      var l := LaneOf(n, p.coal, w - b.offset);
      assert LaneCovers(p, b, l, INT * w);
    }
  }

  ghost predicate Agrees(p: Launch, op: OpType, bins: seq<Bin>, me: int, w: int) {
    KernelWrites(p, op, bins, me, INT * w) <==> OracleSets(p, op, bins, me, w)
  }

  lemma WholeIntsAgree(p: Launch, op: OpType, bins: seq<Bin>, me: int, w: int)
    requires LegalLaunch(p) && p.size % INT == 0
    ensures Agrees(p, op, bins, me, w)
  {
    forall i | 0 <= i < |bins| ensures BinCovers(p, bins[i], INT * w) <==> InRegion(p, bins[i], w) {
      WholeIntsTile(p, bins[i], w);
    }
  }

  /** Draws of zero everywhere. */
  function ZeroDraws(p: Launch): seq<Draw> {
    seq(p.numBins, _ => Draw(0, 0, 0))
  }

  /** With a partial int the last lane of a bin touches the word after its region. */
  lemma LastLaneSpills(p: Launch, b: Bin)
    requires LegalLaunch(p) && p.size % INT != 0 && b.offset == 0
    ensures BinCovers(p, b, INT * (Words(p) * p.coal)) && !InRegion(p, b, Words(p) * p.coal)
  {
    Distribute(Words(p), p.coal, 1);
    assert LaneCovers(p, b, p.coal - 1, INT * (Words(p) * p.coal));
  }

  lemma LaterBinsStartLater(p: Launch, bins: seq<Bin>, i: nat, w: int)
    requires LegalLaunch(p) && GoodBins(p, bins) && 0 < i < |bins| && w < OffsetQuad(LayoutOf(p))
    ensures !InRegion(p, bins[i], w)
  {
    assert InShares(LayoutOf(p), i, i, bins[i]);
    MulMonotone(OffsetQuad(LayoutOf(p)), 1, i);
  }

  lemma SpillFits(p: Launch)
    requires LegalLaunch(p)
    ensures Legal(LayoutOf(p)) && 0 <= Words(p) * p.coal < OffsetQuad(LayoutOf(p)) <= BufferWords(p)
  {
    LaunchIsLegal(p);
    MulMonotone(OffsetQuad(LayoutOf(p)), 1, p.numBins + 1);
    MulMonotone(Words(p), 0, p.coal);
  }

  /** The oracle expects that word to be zero when all draws are zero. */
  lemma PartialIntDisagrees(p: Launch, op: OpType)
    requires LegalLaunch(p) && p.size % INT != 0
    ensures Legal(LayoutOf(p)) && 0 <= Words(p) * p.coal < BufferWords(p)
    ensures !Agrees(p, op, BinsOf(p, ZeroDraws(p)), 0, Words(p) * p.coal)
  {
    SpillFits(p);
    BinsAreGood(p, ZeroDraws(p));
    var bins, w := BinsOf(p, ZeroDraws(p)), Words(p) * p.coal;
    FirstZeroBin(p);
    LastLaneSpills(p, bins[0]);
    assert Target(op, bins[0]) == 0;
    forall i | 0 < i < |bins| ensures !InRegion(p, bins[i], w) {
      LaterBinsStartLater(p, bins, i, w);
    }
  }

  lemma FirstZeroBin(p: Launch)
    requires LegalLaunch(p) && Legal(LayoutOf(p))
    ensures BinsOf(p, ZeroDraws(p))[0].offset == 0 && BinsOf(p, ZeroDraws(p))[0].pe == 0
  {
    DivideUnique(0, Modulus(LayoutOf(p)), 0, 0);
  }

  ghost predicate OracleRight(p: Launch, op: OpType)
    requires Legal(LayoutOf(p))
  {
    forall draws: seq<Draw>, me: nat, w: nat ::
      |draws| == p.numBins && me < p.numPes && w < BufferWords(p) ==> Agrees(p, op, BinsOf(p, draws), me, w)
  }

  /** For put and for get: the host's expected buffer equals what the kernel
      produces, for all draws on all PEs, exactly when the message size is a
      whole number of ints. */
  lemma OracleIff(p: Launch, op: OpType)
    requires LegalLaunch(p)
    ensures Legal(LayoutOf(p))
    ensures OracleRight(p, op) <==> p.size % INT == 0
  {
    LaunchIsLegal(p);
    if p.size % INT == 0 {
      forall draws: seq<Draw>, me: nat, w: nat | |draws| == p.numBins && me < p.numPes && w < BufferWords(p)
        ensures Agrees(p, op, BinsOf(p, draws), me, w)
      {
        WholeIntsAgree(p, op, BinsOf(p, draws), me, w);
      }
    } else {
      PartialIntDisagrees(p, op);
      var me: nat, w: nat := 0, Words(p) * p.coal;
      assert !Agrees(p, op, BinsOf(p, ZeroDraws(p)), me, w);
    }
  }
}
