/**
 The ring reduction on real buffers: PEs hold flat arrays of elements, and puts
 and additions work on slices of them. Each step is a step of the chunk model, and
 elements outside every chunk are never touched.
 */
module RingBuffer {
  import opened Arith
  import opened RingReduce
  import opened RingInvariant
  import opened RingTheorems
  import opened RingPlan

  /** One call: `src[p]` is PE p's source; `work` is the length of the work array. */
  datatype Job<!E> = Job(n: nat, size: nat, plan: Plan, work: nat, op: (E, E) -> E, src: seq<seq<E>>)

  /** The chunks fit in the buffer and in the work array. */
  predicate JobOk<E>(j: Job<E>) {
    && j.n >= 1 && |j.src| == j.n && (forall p :: 0 <= p < j.n ==> |j.src[p]| == j.size)
    && j.plan.chunk * j.n <= j.plan.segSize && j.plan.segSize * j.plan.nSeg <= j.size
    && j.plan.chunk * j.n <= j.work
  }

  datatype Local<E> = Local(phase: Phase, done: nat, buf: seq<E>, wrk: seq<E>, pSync: seq<int>)

  datatype Machine<E> = Machine(pes: seq<Local<E>>, links: seq<Link<seq<E>>>)

  function Offset<E>(j: Job<E>, s: nat, i: nat): nat {
    j.plan.segSize * s + j.plan.chunk * i
  }

  function Slice<E>(a: seq<E>, off: nat, len: nat): seq<E>
    requires off + len <= |a|
  {
    a[off..off + len]
  }

  function Splice<E>(a: seq<E>, off: nat, v: seq<E>): (r: seq<E>)
    requires off + |v| <= |a|
    ensures |r| == |a|
  {
    a[..off] + v + a[off + |v|..]
  }

  /** `compute_reduce` on two chunks. */
  function Pointwise<E>(op: (E, E) -> E): (seq<E>, seq<E>) -> seq<E> {
    (a, b) => ZipWith(op, a, b)
  }

  function ZipWith<E>(op: (E, E) -> E, a: seq<E>, b: seq<E>): seq<E> {
    var len := if |a| < |b| then |a| else |b|;
    seq(len, (y: nat) requires y < len => op(a[y], b[y]))
  }

  lemma OffsetBound<E>(j: Job<E>, s: nat, i: nat)
    requires JobOk(j) && s < j.plan.nSeg && i < j.n
    ensures Offset(j, s, i) + j.plan.chunk <= j.size
    ensures j.plan.chunk * i + j.plan.chunk <= j.plan.chunk * j.n <= j.work
  {
    MulMonotone(j.plan.chunk, i + 1, j.n);
    Distribute(j.plan.chunk, i, 1);
    MulMonotone(j.plan.segSize, s + 1, j.plan.nSeg);
    Distribute(j.plan.segSize, s, 1);
  }

  // ----- the steps -----

  predicate LocalShape<E>(j: Job<E>, b: Local<E>) {
    && |b.buf| == j.size && |b.wrk| == j.work && |b.pSync| == (if j.n >= 2 then Rounds(j.n) else 0)
    && (b.phase in {Waiting, Arrived} ==> j.n >= 2)
    && (j.n >= 2 ==> RoundsSent(b) <= Base(j.n, j.plan.nSeg))
  }

  function RoundsSent<E>(b: Local<E>): nat {
    if b.phase in {Waiting, Arrived} then b.done + 1 else b.done
  }

  predicate NetShape<E>(j: Job<E>, l: Link<seq<E>>) {
    forall k :: k in l.net ==> |l.net[k]| == j.plan.chunk
  }

  predicate MachineShape<E>(j: Job<E>, s: Machine<E>) {
    && JobOk(j) && |s.pes| == |s.links| == j.n
    && (forall p :: 0 <= p < j.n ==> LocalShape(j, s.pes[p]))
    && (forall p {:trigger s.links[p]} :: 0 <= p < j.n ==>
          LinkShape(s.links[p], RoundsSent(s.pes[p])) && NetShape(j, s.links[p]))
  }

  function ReadSlice<E>(j: Job<E>, p: nat, b: Local<E>, k: nat): (v: seq<E>)
    requires JobOk(j) && j.n >= 2 && p < j.n && LocalShape(j, b) && k < Base(j.n, j.plan.nSeg)
    ensures |v| == j.plan.chunk
  {
    SegBelow(j.n, k, j.plan.nSeg);
    var i := SendChunk(j.n, p, Round(j.n, k));
    OffsetBound(j, Seg(j.n, k), i);
    Slice(b.buf, Offset(j, Seg(j.n, k), i), j.plan.chunk)
  }

  function WriteSlice<E>(j: Job<E>, p: nat, b: Local<E>, k: nat, v: seq<E>): (r: Local<E>)
    requires JobOk(j) && j.n >= 2 && p < j.n && LocalShape(j, b) && k < Base(j.n, j.plan.nSeg) && |v| == j.plan.chunk
    ensures LocalShape(j, r)
  {
    SegBelow(j.n, k, j.plan.nSeg);
    var i := SendChunk(j.n, p, Round(j.n, k));
    OffsetBound(j, Seg(j.n, k), i);
    if Round(j.n, k) < j.n - 1 then b.(wrk := Splice(b.wrk, j.plan.chunk * i, v))
    else b.(buf := Splice(b.buf, Offset(j, Seg(j.n, k), i), v))
  }

  /** The reduced slice of round `done`. */
  function AddSlice<E>(j: Job<E>, p: nat, b: Local<E>): (r: Local<E>)
    requires JobOk(j) && j.n >= 2 && p < j.n && LocalShape(j, b) && b.phase == Arrived
    ensures LocalShape(j, r)
  {
    SegBelow(j.n, b.done, j.plan.nSeg);
    var i := RecvChunk(j.n, p, Round(j.n, b.done));
    var s := Seg(j.n, b.done);
    OffsetBound(j, s, i);
    var v := ZipWith(j.op, ChunkOf(j, b.buf, s, i), WorkOf(j, b.wrk, i));
    var buf := if Round(j.n, b.done) < j.n - 1 then Splice(b.buf, Offset(j, s, i), v) else b.buf;
    b.(phase := Ready, done := b.done + 1, buf := buf)
  }

  function RunLocal<E>(j: Job<E>, p: nat, b: Local<E>, m: Move): (r: Local<E>)
    requires JobOk(j) && p < j.n && LocalShape(j, b)
    ensures LocalShape(j, r) && RoundsSent(r) >= RoundsSent(b)
  {
    var total := if j.n >= 2 then Base(j.n, j.plan.nSeg) else 0;
    match m
    case Begin(_) => if b.phase == Outside then b.(phase := Ready, buf := j.src[p]) else b
    case Put(_) => if b.phase == Ready && b.done < total then b.(phase := Waiting) else b
    case Wait(_) =>
      if b.phase == Waiting && b.pSync[Round(j.n, b.done)] == Seg(j.n, b.done) + 100 then b.(phase := Arrived) else b
    case Reduce(_) => if b.phase == Arrived then AddSlice(j, p, b) else b
    case Reset(_) =>
      if b.phase == Ready && b.done == total
      then b.(phase := Finished, pSync := seq(if j.n >= 2 then Rounds(j.n) else 0, _ => SYNC_VALUE))
      else b
    case _ => b
  }

  function FetchSlice<E>(j: Job<E>, s: Machine<E>, p: nat, k: nat): (t: Machine<E>)
    requires MachineShape(j, s) && j.n >= 2 && p < j.n
    ensures MachineShape(j, t)
  {
    var l := s.links[p];
    if k < l.data || k >= RoundsSent(s.pes[p]) || k in l.net then s
    else s.(links := s.links[p := l.(net := l.net[k := ReadSlice(j, p, s.pes[p], k)])])
  }

  function DeliverSlice<E>(j: Job<E>, s: Machine<E>, p: nat): (t: Machine<E>)
    requires MachineShape(j, s) && j.n >= 2 && p < j.n
    ensures MachineShape(j, t)
  {
    var l, q := s.links[p], Next(j.n, p);
    if l.data !in l.net then s
    else Machine(s.pes[q := WriteSlice(j, p, s.pes[q], l.data, l.net[l.data])], s.links[p := Delivered(l)])
  }

  function DeliverMark<E>(j: Job<E>, s: Machine<E>, p: nat): (t: Machine<E>)
    requires MachineShape(j, s) && j.n >= 2 && p < j.n
    ensures MachineShape(j, t)
  {
    var l, q := s.links[p], Next(j.n, p);
    if l.flag == l.data then s
    else
      var b := s.pes[q].(pSync := s.pes[q].pSync[Round(j.n, l.flag) := Seg(j.n, l.flag) + 100]);
      Machine(s.pes[q := b], s.links[p := l.(flag := l.flag + 1)])
  }

  /** With one PE there are no rounds and nothing to send. */
  function MachineStep<E>(j: Job<E>, s: Machine<E>, m: Move): (t: Machine<E>)
    requires MachineShape(j, s)
    ensures MachineShape(j, t)
  {
    if m.p >= j.n then s
    else match m
      case Fetch(p, k) => if j.n < 2 then s else FetchSlice(j, s, p, k)
      case DeliverData(p) => if j.n < 2 then s else DeliverSlice(j, s, p)
      case DeliverFlag(p) => if j.n < 2 then s else DeliverMark(j, s, p)
      case _ => s.(pes := s.pes[m.p := RunLocal(j, m.p, s.pes[m.p], m)])
  }

  function MachineRun<E>(j: Job<E>, s: Machine<E>, moves: seq<Move>): (t: Machine<E>)
    requires MachineShape(j, s)
    ensures MachineShape(j, t)
    decreases |moves|
  {
    if moves == [] then s else MachineRun(j, MachineStep(j, s, moves[0]), moves[1..])
  }

  /** Nobody has entered; buffers and work arrays hold anything, flags are clear. */
  ghost predicate MachineInitial<E>(j: Job<E>, s: Machine<E>) {
    && MachineShape(j, s)
    && (forall p :: 0 <= p < j.n ==> s.pes[p].phase == Outside && s.pes[p].done == 0 && s.links[p] == Link(0, 0, map[]))
    && (forall p, r :: 0 <= p < j.n && 0 <= r < |s.pes[p].pSync| ==> s.pes[p].pSync[r] == SYNC_VALUE)
  }

  // ----- the chunk model as a view of the buffers -----

  function ChunkOf<E>(j: Job<E>, a: seq<E>, s: nat, i: nat): (v: seq<E>)
    requires JobOk(j) && |a| == j.size && s < j.plan.nSeg && i < j.n
    ensures |v| == j.plan.chunk
  {
    OffsetBound(j, s, i);
    Slice(a, Offset(j, s, i), j.plan.chunk)
  }

  function ChunkView<E>(j: Job<E>, a: seq<E>): seq<seq<seq<E>>>
    requires JobOk(j) && |a| == j.size
  {
    seq(j.plan.nSeg, (s: nat) requires s < j.plan.nSeg =>
      seq(j.n, (i: nat) requires i < j.n => ChunkOf(j, a, s, i)))
  }

  function WorkOf<E>(j: Job<E>, w: seq<E>, i: nat): (v: seq<E>)
    requires JobOk(j) && |w| == j.work && i < j.n
    ensures |v| == j.plan.chunk
  {
    MulMonotone(j.plan.chunk, i + 1, j.n);
    Distribute(j.plan.chunk, i, 1);
    Slice(w, j.plan.chunk * i, j.plan.chunk)
  }

  function WorkView<E>(j: Job<E>, w: seq<E>): seq<seq<E>>
    requires JobOk(j) && |w| == j.work
  {
    seq(j.n, (i: nat) requires i < j.n => WorkOf(j, w, i))
  }

  function Contribution<E>(j: Job<E>, p: nat, s: nat, i: nat): seq<E>
    requires JobOk(j)
  {
    if p < j.n && s < j.plan.nSeg && i < j.n then ChunkOf(j, j.src[p], s, i) else []
  }

  function ChunkConfig<E>(j: Job<E>): Config<seq<E>>
    requires JobOk(j)
  {
    Config(j.n, j.plan.nSeg, Pointwise(j.op), (p, s, i) => Contribution(j, p, s, i))
  }

  function LocalView<E>(j: Job<E>, b: Local<E>): Pe<seq<E>>
    requires JobOk(j) && LocalShape(j, b)
  {
    Pe(b.phase, b.done, ChunkView(j, b.buf), WorkView(j, b.wrk), b.pSync)
  }

  function View<E>(j: Job<E>, s: Machine<E>): (v: State<seq<E>>)
    requires MachineShape(j, s) && j.n >= 2
    ensures Shape(ChunkConfig(j), v)
  {
    State(seq(j.n, (p: nat) requires p < j.n => LocalView(j, s.pes[p])), s.links)
  }

  /** Two chunks of the buffer do not overlap. */
  lemma ChunksApart<E>(j: Job<E>, s: nat, i: nat, t: nat, k: nat)
    requires JobOk(j) && s < j.plan.nSeg && t < j.plan.nSeg && i < j.n && k < j.n && (s < t || (s == t && i < k))
    ensures Offset(j, s, i) + j.plan.chunk <= Offset(j, t, k)
  {
    if s == t {
      MulMonotone(j.plan.chunk, i + 1, k);
      Distribute(j.plan.chunk, i, 1);
    } else {
      OffsetBound(j, s, i);
      MulMonotone(j.plan.segSize, s + 1, t);
      Distribute(j.plan.segSize, s, 1);
      MulMonotone(j.plan.chunk, 0, k);
    }
  }

  lemma SliceOfSplice<E>(a: seq<E>, off: nat, v: seq<E>, at: nat)
    requires off + |v| <= |a| && at + |v| <= |a|
    requires at == off || at + |v| <= off || off + |v| <= at
    ensures Slice(Splice(a, off, v), at, |v|) == if at == off then v else Slice(a, at, |v|)
  {
  }

  /** Writing one slice changes one chunk of the view. */
  lemma ViewSplice<E>(j: Job<E>, a: seq<E>, s: nat, i: nat, v: seq<E>)
    requires JobOk(j) && |a| == j.size && s < j.plan.nSeg && i < j.n && |v| == j.plan.chunk
    ensures Offset(j, s, i) + |v| <= j.size
    ensures ChunkView(j, Splice(a, Offset(j, s, i), v)) == Store(ChunkView(j, a), s, i, v)
  {
    OffsetBound(j, s, i);
    var b := Splice(a, Offset(j, s, i), v);
    forall t, k | 0 <= t < j.plan.nSeg && 0 <= k < j.n
      ensures ChunkOf(j, b, t, k) == if t == s && k == i then v else ChunkOf(j, a, t, k)
    {
      OffsetBound(j, t, k);
      if t < s || (t == s && k < i) {
        ChunksApart(j, t, k, s, i);
      } else if s < t || k > i {
        ChunksApart(j, s, i, t, k);
      }
      SliceOfSplice(a, Offset(j, s, i), v, Offset(j, t, k));
    }
    forall t | 0 <= t < j.plan.nSeg ensures ChunkView(j, b)[t] == Store(ChunkView(j, a), s, i, v)[t] {
    }
  }

  lemma WorkSplice<E>(j: Job<E>, w: seq<E>, i: nat, v: seq<E>)
    requires JobOk(j) && |w| == j.work && i < j.n && |v| == j.plan.chunk
    ensures j.plan.chunk * i + |v| <= j.work
    ensures WorkView(j, Splice(w, j.plan.chunk * i, v)) == WorkView(j, w)[i := v]
  {
    MulMonotone(j.plan.chunk, i + 1, j.n);
    Distribute(j.plan.chunk, i, 1);
    var b := Splice(w, j.plan.chunk * i, v);
    forall k | 0 <= k < j.n ensures WorkOf(j, b, k) == if k == i then v else WorkOf(j, w, k) {
      WorkApart(j, i, k);
      SliceOfSplice(w, j.plan.chunk * i, v, j.plan.chunk * k);
    }
  }

  lemma WorkApart<E>(j: Job<E>, i: nat, k: nat)
    requires JobOk(j) && i < j.n && k < j.n
    ensures j.plan.chunk * k + j.plan.chunk <= j.work
    ensures i < k ==> j.plan.chunk * i + j.plan.chunk <= j.plan.chunk * k
    ensures k < i ==> j.plan.chunk * k + j.plan.chunk <= j.plan.chunk * i
  {
    MulMonotone(j.plan.chunk, k + 1, j.n);
    Distribute(j.plan.chunk, k, 1);
    Distribute(j.plan.chunk, i, 1);
    if i < k {
      MulMonotone(j.plan.chunk, i + 1, k);
    } else if k < i {
      MulMonotone(j.plan.chunk, k + 1, i);
    }
  }

  // ----- every step of the buffers is a step of the chunk model -----

  lemma SimRead<E>(j: Job<E>, p: nat, b: Local<E>, k: nat)
    requires JobOk(j) && j.n >= 2 && p < j.n && LocalShape(j, b) && k < Base(j.n, j.plan.nSeg)
    ensures Read(ChunkConfig(j), p, LocalView(j, b), k) == ReadSlice(j, p, b, k)
  {
    SegBelow(j.n, k, j.plan.nSeg);
  }

  lemma SimWrite<E>(j: Job<E>, p: nat, b: Local<E>, k: nat, v: seq<E>)
    requires JobOk(j) && j.n >= 2 && p < j.n && LocalShape(j, b) && k < Base(j.n, j.plan.nSeg) && |v| == j.plan.chunk
    ensures LocalView(j, WriteSlice(j, p, b, k, v)) == Write(ChunkConfig(j), p, LocalView(j, b), k, v)
  {
    SegBelow(j.n, k, j.plan.nSeg);
    var i := SendChunk(j.n, p, Round(j.n, k));
    if Round(j.n, k) < j.n - 1 {
      WorkSplice(j, b.wrk, i, v);
    } else {
      ViewSplice(j, b.buf, Seg(j.n, k), i, v);
    }
  }

  lemma SimAdd<E>(j: Job<E>, p: nat, b: Local<E>)
    requires JobOk(j) && j.n >= 2 && p < j.n && LocalShape(j, b) && b.phase == Arrived
    ensures LocalView(j, AddSlice(j, p, b)) == AddChunk(ChunkConfig(j), p, LocalView(j, b))
  {
    SegBelow(j.n, b.done, j.plan.nSeg);
    var s, i := Seg(j.n, b.done), RecvChunk(j.n, p, Round(j.n, b.done));
    var v := ZipWith(j.op, ChunkOf(j, b.buf, s, i), WorkOf(j, b.wrk, i));
    ViewSplice(j, b.buf, s, i, v);
    assert ChunkConfig(j).op(LocalView(j, b).dst[s][i], LocalView(j, b).wrk[i]) == v;
    assert AddSlice(j, p, b).buf == if Round(j.n, b.done) < j.n - 1 then Splice(b.buf, Offset(j, s, i), v) else b.buf;
  }

  lemma SimBegin<E>(j: Job<E>, p: nat)
    requires JobOk(j) && p < j.n
    ensures ChunkView(j, j.src[p]) == CopyIn(ChunkConfig(j), p)
  {
    var v, w := ChunkView(j, j.src[p]), CopyIn(ChunkConfig(j), p);
    forall s | 0 <= s < j.plan.nSeg ensures v[s] == w[s] {
      forall i | 0 <= i < j.n ensures v[s][i] == w[s][i] {
      }
    }
  }

  lemma SimRun<E>(j: Job<E>, p: nat, b: Local<E>, m: Move)
    requires JobOk(j) && j.n >= 2 && p < j.n && LocalShape(j, b)
    ensures LocalView(j, RunLocal(j, p, b, m)) == RunPe(ChunkConfig(j), p, LocalView(j, b), m)
  {
    match m
    case Begin(_) => SimBegin(j, p);
    case Reduce(_) => if b.phase == Arrived { SimAdd(j, p, b); }
    case _ =>
  }

  lemma ViewUpdate<E>(j: Job<E>, s: Machine<E>, q: nat, b: Local<E>)
    requires MachineShape(j, s) && j.n >= 2 && q < j.n && LocalShape(j, b)
    ensures View(j, s).pes[q := LocalView(j, b)]
            == seq(j.n, (p: nat) requires p < j.n => LocalView(j, s.pes[q := b][p]))
  {
  }

  lemma SimFetch<E>(j: Job<E>, s: Machine<E>, p: nat, k: nat)
    requires MachineShape(j, s) && j.n >= 2 && p < j.n
    ensures View(j, FetchSlice(j, s, p, k)) == FetchStep(ChunkConfig(j), View(j, s), p, k)
  {
    var l := s.links[p];
    if l.data <= k < RoundsSent(s.pes[p]) && k !in l.net {
      SimRead(j, p, s.pes[p], k);
    }
  }

  lemma SimData<E>(j: Job<E>, s: Machine<E>, p: nat)
    requires MachineShape(j, s) && j.n >= 2 && p < j.n
    ensures View(j, DeliverSlice(j, s, p)) == DataStep(ChunkConfig(j), View(j, s), p)
  {
    var l, b := s.links[p], s.pes[Next(j.n, p)];
    if l.data in l.net {
      SimWrite(j, p, b, l.data, l.net[l.data]);
      ViewUpdate(j, s, Next(j.n, p), WriteSlice(j, p, b, l.data, l.net[l.data]));
    }
  }

  lemma SimFlag<E>(j: Job<E>, s: Machine<E>, p: nat)
    requires MachineShape(j, s) && j.n >= 2 && p < j.n
    ensures View(j, DeliverMark(j, s, p)) == FlagStep(ChunkConfig(j), View(j, s), p)
  {
    if s.links[p].flag != s.links[p].data {
      ViewUpdate(j, s, Next(j.n, p), DeliverMark(j, s, p).pes[Next(j.n, p)]);
    }
  }

  lemma SimOwn<E>(j: Job<E>, s: Machine<E>, p: nat, m: Move)
    requires MachineShape(j, s) && j.n >= 2 && p < j.n
    ensures View(j, s.(pes := s.pes[p := RunLocal(j, p, s.pes[p], m)]))
            == View(j, s).(pes := View(j, s).pes[p := RunPe(ChunkConfig(j), p, View(j, s).pes[p], m)])
  {
    SimRun(j, p, s.pes[p], m);
    ViewUpdate(j, s, p, RunLocal(j, p, s.pes[p], m));
  }

  /** Each step on the buffers is the same step on the chunks. */
  lemma SimStep<E>(j: Job<E>, s: Machine<E>, m: Move)
    requires MachineShape(j, s) && j.n >= 2
    ensures View(j, MachineStep(j, s, m)) == Step(ChunkConfig(j), View(j, s), m)
  {
    if m.p < j.n {
      match m
      case Fetch(p, k) => SimFetch(j, s, p, k);
      case DeliverData(p) => SimData(j, s, p);
      case DeliverFlag(p) => SimFlag(j, s, p);
      case _ => SimOwn(j, s, m.p, m);
    }
  }

  lemma {:induction false} SimExec<E>(j: Job<E>, s: Machine<E>, moves: seq<Move>)
    requires MachineShape(j, s) && j.n >= 2
    ensures View(j, MachineRun(j, s, moves)) == Exec(ChunkConfig(j), View(j, s), moves)
    decreases |moves|
  {
    if moves != [] {
      SimStep(j, s, moves[0]);
      SimExec(j, MachineStep(j, s, moves[0]), moves[1..]);
    }
  }

  lemma SimInitial<E>(j: Job<E>, s: Machine<E>)
    requires MachineInitial(j, s) && j.n >= 2
    ensures Initial(ChunkConfig(j), View(j, s))
  {
  }

  // ----- elements outside every chunk -----

  /** A PE in the call still has its own source wherever no chunk reaches. */
  ghost predicate KeepsRest<E>(j: Job<E>, p: nat, b: Local<E>)
    requires JobOk(j) && p < j.n && LocalShape(j, b)
  {
    b.phase != Outside ==>
      forall x: nat :: x < j.size && (j.n == 1 || !Covered(j.n, j.plan, x)) ==> b.buf[x] == j.src[p][x]
  }

  lemma SpliceKeeps<E>(j: Job<E>, a: seq<E>, s: nat, i: nat, v: seq<E>, x: nat)
    requires JobOk(j) && |a| == j.size && s < j.plan.nSeg && i < j.n && |v| == j.plan.chunk
    requires x < j.size && !Covered(j.n, j.plan, x)
    ensures Offset(j, s, i) + |v| <= j.size && Splice(a, Offset(j, s, i), v)[x] == a[x]
  {
    OffsetBound(j, s, i);
    assert !InChunk(j.n, j.plan, s, i, x);
  }

  lemma WriteKeeps<E>(j: Job<E>, p: nat, b: Local<E>, k: nat, v: seq<E>)
    requires JobOk(j) && j.n >= 2 && p < j.n && LocalShape(j, b) && k < Base(j.n, j.plan.nSeg) && |v| == j.plan.chunk
    requires KeepsRest(j, Next(j.n, p), b)
    ensures KeepsRest(j, Next(j.n, p), WriteSlice(j, p, b, k, v))
  {
    SegBelow(j.n, k, j.plan.nSeg);
    forall x: nat | x < j.size && !Covered(j.n, j.plan, x) ensures WriteSlice(j, p, b, k, v).buf[x] == b.buf[x] {
      SpliceKeeps(j, b.buf, Seg(j.n, k), SendChunk(j.n, p, Round(j.n, k)), v, x);
    }
  }

  lemma AddKeeps<E>(j: Job<E>, p: nat, b: Local<E>)
    requires JobOk(j) && j.n >= 2 && p < j.n && LocalShape(j, b) && b.phase == Arrived && KeepsRest(j, p, b)
    ensures KeepsRest(j, p, AddSlice(j, p, b))
  {
    SegBelow(j.n, b.done, j.plan.nSeg);
    var s, i := Seg(j.n, b.done), RecvChunk(j.n, p, Round(j.n, b.done));
    var v := ZipWith(j.op, ChunkOf(j, b.buf, s, i), WorkOf(j, b.wrk, i));
    forall x: nat | x < j.size && !Covered(j.n, j.plan, x) ensures AddSlice(j, p, b).buf[x] == b.buf[x] {
      SpliceKeeps(j, b.buf, s, i, v, x);
    }
  }

  lemma RunKeeps<E>(j: Job<E>, p: nat, b: Local<E>, m: Move)
    requires JobOk(j) && p < j.n && LocalShape(j, b) && KeepsRest(j, p, b)
    ensures KeepsRest(j, p, RunLocal(j, p, b, m))
  {
    if m.Reduce? && b.phase == Arrived {
      AddKeeps(j, p, b);
    }
  }

  ghost predicate AllKeepRest<E>(j: Job<E>, s: Machine<E>) {
    MachineShape(j, s) && forall p :: 0 <= p < j.n ==> KeepsRest(j, p, s.pes[p])
  }

  lemma StepKeeps<E>(j: Job<E>, s: Machine<E>, m: Move)
    requires AllKeepRest(j, s)
    ensures AllKeepRest(j, MachineStep(j, s, m))
  {
    if m.p < j.n {
      RunKeeps(j, m.p, s.pes[m.p], m);
      var l := s.links[m.p];
      if m.DeliverData? && j.n >= 2 && l.data in l.net {
        WriteKeeps(j, m.p, s.pes[Next(j.n, m.p)], l.data, l.net[l.data]);
      }
    }
  }

  lemma {:induction false} ExecKeeps<E>(j: Job<E>, s: Machine<E>, moves: seq<Move>)
    requires AllKeepRest(j, s)
    ensures AllKeepRest(j, MachineRun(j, s, moves))
    decreases |moves|
  {
    if moves != [] {
      StepKeeps(j, s, moves[0]);
      ExecKeeps(j, MachineStep(j, s, moves[0]), moves[1..]);
    }
  }

  // ----- elements inside the chunks -----

  lemma PointwiseLaws<E(!new)>(op: (E, E) -> E)
    requires Associative(op) && Commutative(op)
    ensures Associative(Pointwise(op)) && Commutative(Pointwise(op))
  {
    forall a, b, c ensures Pointwise(op)(a, Pointwise(op)(b, c)) == Pointwise(op)(Pointwise(op)(a, b), c) {
      assert ZipWith(op, a, ZipWith(op, b, c)) == ZipWith(op, ZipWith(op, a, b), c);
    }
    forall a, b ensures Pointwise(op)(a, b) == Pointwise(op)(b, a) {
      assert ZipWith(op, a, b) == ZipWith(op, b, a);
    }
  }

  function Column<E>(xs: seq<seq<E>>, y: nat): seq<E>
    requires forall p :: 0 <= p < |xs| ==> y < |xs[p]|
  {
    seq(|xs|, (p: nat) requires p < |xs| => xs[p][y])
  }

  /** Folding chunks folds each element. */
  lemma {:induction false} FoldAt<E>(op: (E, E) -> E, xs: seq<seq<E>>, len: nat, y: nat)
    requires xs != [] && y < len && forall p :: 0 <= p < |xs| ==> |xs[p]| == len
    ensures |Fold(Pointwise(op), xs)| == len && Fold(Pointwise(op), xs)[y] == Fold(op, Column(xs, y))
    decreases |xs|
  {
    var last := |xs| - 1;
    if last > 0 {
      FoldAt(op, xs[..last], len, y);
      assert Column(xs, y)[..last] == Column(xs[..last], y);
    }
  }

  /** The reference result at element x. */
  function ReducedElement<E>(j: Job<E>, x: nat): E
    requires JobOk(j) && x < j.size
  {
    Fold(j.op, Column(j.src, x))
  }

  lemma ChunkElement<E(!new)>(j: Job<E>, s: nat, i: nat, x: nat)
    requires JobOk(j) && j.n >= 2 && x < j.size && InChunk(j.n, j.plan, s, i, x)
    ensures var y := x - Offset(j, s, i);
      var all := Contributions(ChunkConfig(j), s, i);
      |Fold(Pointwise(j.op), all)| == j.plan.chunk && Fold(Pointwise(j.op), all)[y] == ReducedElement(j, x)
  {
    var y, all := x - Offset(j, s, i), Contributions(ChunkConfig(j), s, i);
    OffsetBound(j, s, i);
    forall p | 0 <= p < j.n ensures all[p] == ChunkOf(j, j.src[p], s, i) {
    }
    FoldAt(j.op, all, j.plan.chunk, y);
    assert Column(all, y) == Column(j.src, x);
  }

  /** What a returning PE has at every element, in every interleaving. */
  lemma {:induction false} ElementResult<E(!new)>(j: Job<E>, init: Machine<E>, moves: seq<Move>, p: nat, x: nat)
    requires MachineInitial(j, init) && Associative(j.op) && Commutative(j.op) && p < j.n && x < j.size
    requires MachineRun(j, init, moves).pes[p].phase == Finished
    ensures MachineRun(j, init, moves).pes[p].buf[x] ==
            if j.n == 1 || Covered(j.n, j.plan, x) then ReducedElement(j, x) else j.src[p][x]
  {
    var t := MachineRun(j, init, moves);
    ExecKeeps(j, init, moves);
    assert KeepsRest(j, p, t.pes[p]);
    if j.n == 1 {
      assert Column(j.src, x) == [j.src[p][x]];
    } else if Covered(j.n, j.plan, x) {
      CoveredResult(j, init, moves, p, x);
    }
  }

  lemma {:induction false} CoveredResult<E(!new)>(j: Job<E>, init: Machine<E>, moves: seq<Move>, p: nat, x: nat)
    requires MachineInitial(j, init) && Associative(j.op) && Commutative(j.op) && p < j.n && x < j.size
    requires j.n >= 2 && Covered(j.n, j.plan, x) && MachineRun(j, init, moves).pes[p].phase == Finished
    ensures MachineRun(j, init, moves).pes[p].buf[x] == ReducedElement(j, x)
  {
    var s: nat, i: nat :| InChunk(j.n, j.plan, s, i, x);
    var t, c := MachineRun(j, init, moves), ChunkConfig(j);
    SimInitial(j, init);
    SimExec(j, init, moves);
    PointwiseLaws(j.op);
    ReturnsReduction(c, View(j, init), moves, p, s, i);
    assert View(j, t).pes[p].dst[s][i] == ChunkOf(j, t.pes[p].buf, s, i);
    OffsetBound(j, s, i);
    ChunkElement(j, s, i, x);
  }

  /** Runs in which everybody returns exist. */
  lemma AllCanReturn<E>(j: Job<E>, init: Machine<E>) returns (moves: seq<Move>)
    requires MachineInitial(j, init)
    ensures forall p :: 0 <= p < j.n ==> MachineRun(j, init, moves).pes[p].phase == Finished
  {
    if j.n == 1 {
      moves := [Begin(0), Reset(0)];
      assert moves[1..] == [Reset(0)] && [Reset(0)][1..] == [];
      var s := MachineStep(j, init, Begin(0));
      assert MachineRun(j, init, moves) == MachineRun(j, s, [Reset(0)]);
      assert MachineRun(j, s, [Reset(0)]) == MachineRun(j, MachineStep(j, s, Reset(0)), []);
    } else {
      var c := ChunkConfig(j);
      SimInitial(j, init);
      InitialInv(c, View(j, init));
      moves := CanFinish(c, View(j, init));
      SimExec(j, init, moves);
      forall p | 0 <= p < j.n ensures MachineRun(j, init, moves).pes[p].phase == Finished {
        assert View(j, MachineRun(j, init, moves)).pes[p].phase == Finished;
      }
    }
  }
}
