/**
 The ring reduction of the GPU-IB backend. The buffer is cut into segments and a
 segment into one chunk per PE. For every segment each PE runs n - 1 rounds in
 which it passes a partially reduced chunk to its successor's work array, and
 n - 1 rounds in which it writes a complete chunk into its successor's result.
 Nothing separates segments: work array and flags are reused at once.

 A non-blocking put may read its source at any time until it is delivered. The
 fence delivers data before the flag of the same round and before later data.
 */
module RingReduce {
  import opened Arith

  const SYNC_VALUE := 0

  /** `x(p, s, c)` is PE p's contribution to chunk c of segment s. */
  datatype Config<!T> = Config(n: nat, nSeg: nat, op: (T, T) -> T, x: (nat, nat, nat) -> T)

  function Rounds(n: nat): nat
    requires n >= 2
  {
    2 * n - 2
  }

  /** A PE's position in its run is one number: all rounds of the earlier segments
      and those of its own. */
  function At(n: nat, s: nat, r: nat): nat
    requires n >= 2
  {
    Base(n, s) + r
  }

  function Base(n: nat, s: nat): nat
    requires n >= 2
  {
    if s == 0 then 0 else Base(n, s - 1) + Rounds(n)
  }

  function Seg(n: nat, k: nat): nat
    requires n >= 2
  {
    if k < Rounds(n) then 0 else 1 + Seg(n, k - Rounds(n))
  }

  function Round(n: nat, k: nat): (r: nat)
    requires n >= 2
    ensures r < Rounds(n)
  {
    if k < Rounds(n) then k else Round(n, k - Rounds(n))
  }

  function Total<T>(c: Config<T>): nat
    requires c.n >= 2
  {
    Base(c.n, c.nSeg)
  }

  /** The successor, `(my_pe + 1) % num_pes`, and the chunks of a round, written
      without remainders; `IndexFormulas` ties them to the code's expressions. */
  function Next(n: nat, p: nat): (q: nat)
    requires p < n
    ensures q < n
  {
    if p + 1 == n then 0 else p + 1
  }

  function Prev(n: nat, p: nat): (q: nat)
    requires p < n
    ensures q < n && Next(n, q) == p
  {
    if p == 0 then n - 1 else p - 1
  }

  function RecvChunk(n: nat, p: nat, r: nat): (i: nat)
    requires n >= 2 && p < n && r < Rounds(n)
    ensures i < n
  {
    if r <= p then p - r else if r <= p + n then p - r + n else p - r + 2 * n
  }

  function SendChunk(n: nat, p: nat, r: nat): (i: nat)
    requires n >= 2 && p < n && r < Rounds(n)
    ensures i < n
  {
    RecvChunk(n, Next(n, p), r)
  }

  lemma IndexFormulas(n: nat, p: nat, r: nat)
    requires n >= 2 && p < n && r < Rounds(n)
    ensures Next(n, p) == (p + 1) % n
    ensures RecvChunk(n, p, r) == (p - r + 2 * n) % n
    ensures SendChunk(n, p, r) == (p + 1 - r + 2 * n) % n
  {
    DivideUnique(p + 1, n, if p + 1 == n then 1 else 0, Next(n, p));
    DivideUnique(p - r + 2 * n, n, if r <= p then 2 else if r <= p + n then 1 else 0, RecvChunk(n, p, r));
    var turns := if r + n <= p + 1 then 3 else if r <= p + 1 then 2 else if r <= p + 1 + n then 1 else 0;
    DivideUnique(p + 1 - r + 2 * n, n, turns, SendChunk(n, p, r));
  }

  datatype Phase = Outside | Ready | Waiting | Arrived | Finished

  /** `done` counts completed rounds. */
  datatype Pe<T> = Pe(phase: Phase, done: nat, dst: seq<seq<T>>, wrk: seq<T>, pSync: seq<int>)

  /** The way from a PE to its successor: how many rounds' data and flags have been
      delivered, and the data of later rounds that has been read already. */
  datatype Link<T> = Link(data: nat, flag: nat, net: map<nat, T>)

  datatype State<T> = State(pes: seq<Pe<T>>, links: seq<Link<T>>)

  /** `Fetch(p, k)`: the put of round k reads its source, in any order. */
  datatype Move = Begin(p: nat) | Put(p: nat) | Fetch(p: nat, k: nat) | DeliverData(p: nat) | DeliverFlag(p: nat)
                | Wait(p: nat) | Reduce(p: nat) | Reset(p: nat)

  /** Rounds whose put and flag have been issued. */
  function Sent<T>(pe: Pe<T>): nat {
    if pe.phase in {Waiting, Arrived} then pe.done + 1 else pe.done
  }

  predicate PeShape<T>(c: Config<T>, pe: Pe<T>)
    requires c.n >= 2
  {
    && |pe.dst| == c.nSeg && (forall s :: 0 <= s < c.nSeg ==> |pe.dst[s]| == c.n)
    && |pe.wrk| == c.n && |pe.pSync| == Rounds(c.n)
    && Sent(pe) <= Total(c)
  }

  /** Only puts that have been issued and not delivered can have been read. */
  predicate LinkShape<T>(l: Link<T>, sent: nat) {
    l.flag <= l.data <= sent && forall k :: k in l.net ==> l.data <= k < sent
  }

  predicate Shape<T>(c: Config<T>, s: State<T>) {
    && c.n >= 2 && |s.pes| == |s.links| == c.n
    && (forall p :: 0 <= p < c.n ==> PeShape(c, s.pes[p]))
    && (forall p {:trigger s.links[p]} :: 0 <= p < c.n ==> LinkShape(s.links[p], Sent(s.pes[p])))
  }

  function Store<T>(dst: seq<seq<T>>, s: nat, i: nat, v: T): seq<seq<T>>
    requires s < |dst| && i < |dst[s]|
  {
    dst[s := dst[s][i := v]]
  }

  function Read<T>(c: Config<T>, p: nat, pe: Pe<T>, k: nat): T
    requires c.n >= 2 && p < c.n && PeShape(c, pe) && k < Total(c)
  {
    SegBound(c, k);
    pe.dst[Seg(c.n, k)][SendChunk(c.n, p, Round(c.n, k))]
  }

  /** Round k's data reaches the successor of PE p. */
  function Write<T>(c: Config<T>, p: nat, pe: Pe<T>, k: nat, v: T): (r: Pe<T>)
    requires c.n >= 2 && p < c.n && PeShape(c, pe) && k < Total(c)
    ensures PeShape(c, r)
  {
    SegBound(c, k);
    var i := SendChunk(c.n, p, Round(c.n, k));
    if Round(c.n, k) < c.n - 1 then pe.(wrk := pe.wrk[i := v])
    else pe.(dst := Store(pe.dst, Seg(c.n, k), i, v))
  }

  /** Round k's flag reaches a PE. */
  function Raise<T>(c: Config<T>, pe: Pe<T>, k: nat): (r: Pe<T>)
    requires c.n >= 2 && PeShape(c, pe)
    ensures PeShape(c, r)
  {
    pe.(pSync := pe.pSync[Round(c.n, k) := Seg(c.n, k) + 100])
  }

  function AddChunk<T>(c: Config<T>, p: nat, pe: Pe<T>): (r: Pe<T>)
    requires c.n >= 2 && p < c.n && PeShape(c, pe) && pe.phase == Arrived
    ensures PeShape(c, r)
  {
    SegBound(c, pe.done);
    var s, i := Seg(c.n, pe.done), RecvChunk(c.n, p, Round(c.n, pe.done));
    var dst := if Round(c.n, pe.done) < c.n - 1 then Store(pe.dst, s, i, c.op(pe.dst[s][i], pe.wrk[i])) else pe.dst;
    pe.(phase := Ready, done := pe.done + 1, dst := dst)
  }

  /** The source, chunk by chunk. */
  function CopyIn<T>(c: Config<T>, p: nat): (dst: seq<seq<T>>)
    ensures |dst| == c.nSeg && forall s :: 0 <= s < c.nSeg ==> |dst[s]| == c.n
  {
    seq(c.nSeg, (s: nat) => seq(c.n, (i: nat) => c.x(p, s, i)))
  }

  /** The private steps of PE p. */
  function RunPe<T>(c: Config<T>, p: nat, pe: Pe<T>, m: Move): (r: Pe<T>)
    requires c.n >= 2 && p < c.n && PeShape(c, pe)
    ensures PeShape(c, r) && Sent(r) >= Sent(pe)
  {
    match m
    case Begin(_) =>
      if pe.phase == Outside
      then pe.(phase := Ready, dst := CopyIn(c, p))
      else pe
    case Put(_) => if pe.phase == Ready && pe.done < Total(c) then pe.(phase := Waiting) else pe
    case Wait(_) =>
      if pe.phase == Waiting && pe.pSync[Round(c.n, pe.done)] == Seg(c.n, pe.done) + 100
      then pe.(phase := Arrived)
      else pe
    case Reduce(_) => if pe.phase == Arrived then AddChunk(c, p, pe) else pe
    case Reset(_) =>
      if pe.phase == Ready && pe.done == Total(c)
      then pe.(phase := Finished, pSync := seq(Rounds(c.n), _ => SYNC_VALUE))
      else pe
    case _ => pe
  }

  function FetchStep<T>(c: Config<T>, s: State<T>, p: nat, k: nat): (t: State<T>)
    requires Shape(c, s) && p < c.n
    ensures Shape(c, t)
  {
    var l := s.links[p];
    if k < l.data || k >= Sent(s.pes[p]) || k in l.net then s
    else s.(links := s.links[p := l.(net := l.net[k := Read(c, p, s.pes[p], k)])])
  }

  function Delivered<T>(l: Link<T>): Link<T> {
    l.(data := l.data + 1, net := l.net - {l.data})
  }

  function DataStep<T>(c: Config<T>, s: State<T>, p: nat): (t: State<T>)
    requires Shape(c, s) && p < c.n
    ensures Shape(c, t)
  {
    var l, q := s.links[p], Next(c.n, p);
    if l.data !in l.net then s
    else State(s.pes[q := Write(c, p, s.pes[q], l.data, l.net[l.data])], s.links[p := Delivered(l)])
  }

  function FlagStep<T>(c: Config<T>, s: State<T>, p: nat): (t: State<T>)
    requires Shape(c, s) && p < c.n
    ensures Shape(c, t)
  {
    var l, q := s.links[p], Next(c.n, p);
    if l.flag == l.data then s
    else State(s.pes[q := Raise(c, s.pes[q], l.flag)], s.links[p := l.(flag := l.flag + 1)])
  }

  function Step<T>(c: Config<T>, s: State<T>, m: Move): (t: State<T>)
    requires Shape(c, s)
    ensures Shape(c, t)
  {
    if m.p >= c.n then s
    else match m
      case Fetch(p, k) => FetchStep(c, s, p, k)
      case DeliverData(p) => DataStep(c, s, p)
      case DeliverFlag(p) => FlagStep(c, s, p)
      case _ => s.(pes := s.pes[m.p := RunPe(c, m.p, s.pes[m.p], m)])
  }

  function Exec<T>(c: Config<T>, s: State<T>, moves: seq<Move>): (t: State<T>)
    requires Shape(c, s)
    ensures Shape(c, t)
    decreases |moves|
  {
    if moves == [] then s else Exec(c, Step(c, s, moves[0]), moves[1..])
  }

  /** Nobody has entered; result and work array hold anything, flags are clear. */
  ghost predicate Initial<T>(c: Config<T>, s: State<T>) {
    && Shape(c, s)
    && (forall p :: 0 <= p < c.n ==> s.pes[p].phase == Outside && s.pes[p].done == 0 && s.links[p] == Link(0, 0, map[]))
    && (forall p, r :: 0 <= p < c.n && 0 <= r < Rounds(c.n) ==> s.pes[p].pSync[r] == SYNC_VALUE)
  }

  // ----- arithmetic of rounds and chunks -----

  lemma {:induction false} Position(n: nat, k: nat)
    requires n >= 2
    ensures k == At(n, Seg(n, k), Round(n, k))
  {
    if k >= Rounds(n) {
      Position(n, k - Rounds(n));
    }
  }

  lemma {:induction false} AtIs(n: nat, s: nat, r: nat, k: nat)
    requires n >= 2 && r < Rounds(n)
    ensures At(n, s, r) == k <==> s == Seg(n, k) && r == Round(n, k)
    decreases s
  {
    Position(n, k);
    if s > 0 && k >= Rounds(n) {
      AtIs(n, s - 1, r, k - Rounds(n));
    }
  }

  lemma {:induction false} BaseOrdered(n: nat, s: nat, t: nat)
    requires n >= 2 && s < t
    ensures Base(n, s) + Rounds(n) <= Base(n, t)
    decreases t
  {
    if s < t - 1 {
      BaseOrdered(n, s, t - 1);
    }
  }

  lemma {:induction false} SegBelow(n: nat, k: nat, t: nat)
    requires n >= 2 && k < Base(n, t)
    ensures Seg(n, k) < t
  {
    if k >= Rounds(n) {
      SegBelow(n, k - Rounds(n), t - 1);
    }
  }

  lemma {:induction false} SegBound<T>(c: Config<T>, k: nat)
    requires c.n >= 2 && k < Total(c)
    ensures Seg(c.n, k) < c.nSeg
  {
    SegBelow(c.n, k, c.nSeg);
  }

  lemma AtBound<T>(c: Config<T>, s: nat, r: nat)
    requires c.n >= 2 && r < Rounds(c.n) && s < c.nSeg
    ensures At(c.n, s, r) < Total(c)
  {
    BaseOrdered(c.n, s, c.nSeg);
  }

  /** The same round comes again only a whole segment later. */
  lemma {:induction false} SameRound(n: nat, k: nat, l: nat)
    requires n >= 2 && k < l && Round(n, k) == Round(n, l)
    ensures l >= k + Rounds(n) && Seg(n, k) < Seg(n, l)
    decreases k
  {
    if k >= Rounds(n) {
      SameRound(n, k - Rounds(n), l - Rounds(n));
    }
  }

  /** In which round, modulo n, PE p receives chunk i. */
  function Rho(n: nat, p: nat, i: nat): (r: nat)
    requires p < n && i < n
    ensures r < n
  {
    if p >= i then p - i else p - i + n
  }

  lemma RecvRound(n: nat, p: nat, r: nat)
    requires n >= 2 && p < n && r < Rounds(n)
    ensures r == Rho(n, p, RecvChunk(n, p, r)) || r == Rho(n, p, RecvChunk(n, p, r)) + n
  {
  }

  /** PE p sends in round r what it received one round earlier, if anything. */
  lemma SendRound(n: nat, p: nat, r: nat)
    requires n >= 2 && p < n && r < Rounds(n)
    ensures var rho := Rho(n, p, SendChunk(n, p, r));
      if r == 0 then rho == n - 1 else r - 1 == rho || r - 1 == rho + n
  {
  }

  // ----- what the values should be -----

  /** PE number j on the way of chunk i, which starts at PE i - 1. */
  function OnTheWay(n: nat, i: nat, j: nat): (p: nat)
    requires i < n && j < n
    ensures p < n
  {
    if i + j == 0 then n - 1 else if i + j - 1 < n then i + j - 1 else i + j - 1 - n
  }

  /** Chunk i of segment s after j additions. */
  function Partial<T>(c: Config<T>, s: nat, i: nat, j: nat): T
    requires i < c.n && j < c.n
  {
    var mine := c.x(OnTheWay(c.n, i, j), s, i);
    if j == 0 then mine else c.op(mine, Partial(c, s, i, j - 1))
  }

  function Result<T>(c: Config<T>, s: nat, i: nat): T
    requires i < c.n
  {
    Partial(c, s, i, c.n - 1)
  }

  /** What PE p sends in round k of its run. */
  function Payload<T>(c: Config<T>, p: nat, k: nat): T
    requires c.n >= 2 && p < c.n
  {
    var s, r := Seg(c.n, k), Round(c.n, k);
    var i := SendChunk(c.n, p, r);
    if r < c.n - 1 then Partial(c, s, i, r) else Result(c, s, i)
  }

  /** The round in which the complete chunk arrives. */
  function Gather(n: nat, rho: nat): nat {
    if rho + 1 == n then rho else rho + n
  }

  /** A chunk of PE p's result after `done` rounds of p and `data` deliveries. */
  function Expected<T>(c: Config<T>, p: nat, s: nat, i: nat, done: nat, data: nat): T
    requires c.n >= 2 && p < c.n && i < c.n
  {
    var rho := Rho(c.n, p, i);
    if rho != c.n - 2 && At(c.n, s, Gather(c.n, rho)) < data then Result(c, s, i)
    else if rho <= c.n - 2 && At(c.n, s, rho) < done then Partial(c, s, i, rho + 1)
    else c.x(p, s, i)
  }

  // ----- invariant -----

  predicate PeOk<T>(c: Config<T>, b: Pe<T>)
    requires c.n >= 2 && PeShape(c, b)
  {
    && (b.phase == Outside ==> b.done == 0)
    && (b.phase == Finished ==> b.done == Total(c) && forall r :: 0 <= r < Rounds(c.n) ==> b.pSync[r] == SYNC_VALUE)
  }

  predicate Counters<T>(l: Link<T>, b: Pe<T>) {
    b.done <= l.flag && (b.phase == Arrived ==> b.done < l.flag)
  }

  predicate NetOk<T(==)>(c: Config<T>, p: nat, l: Link<T>)
    requires c.n >= 2 && p < c.n
  {
    forall k :: k in l.net ==> l.net[k] == Payload(c, p, k)
  }

  /** Round k's data is in the work array. */
  predicate InWork<T(==)>(c: Config<T>, p: nat, b: Pe<T>, k: nat)
    requires c.n >= 2 && p < c.n && PeShape(c, b)
  {
    Round(c.n, k) < c.n - 1 ==> b.wrk[SendChunk(c.n, p, Round(c.n, k))] == Payload(c, p, k)
  }

  predicate WrkOk<T(==)>(c: Config<T>, p: nat, l: Link<T>, b: Pe<T>)
    requires c.n >= 2 && p < c.n && PeShape(c, b)
  {
    forall k :: b.done <= k < l.data ==> InWork(c, p, b, k)
  }

  predicate Raised<T>(c: Config<T>, b: Pe<T>, k: nat)
    requires c.n >= 2 && PeShape(c, b)
  {
    b.pSync[Round(c.n, k)] == Seg(c.n, k) + 100
  }

  predicate NotRaised<T>(c: Config<T>, b: Pe<T>, k: nat)
    requires c.n >= 2 && PeShape(c, b)
  {
    b.pSync[Round(c.n, k)] < Seg(c.n, k) + 100
  }

  /** Flags of rounds still to be awaited are seen, later ones are not. */
  ghost predicate SyncOk<T>(c: Config<T>, l: Link<T>, b: Pe<T>)
    requires c.n >= 2 && PeShape(c, b)
  {
    && (forall k :: b.done <= k < l.flag ==> Raised(c, b, k))
    && (forall k :: l.flag <= k ==> NotRaised(c, b, k))
  }

  predicate ChunkOk<T(==)>(c: Config<T>, q: nat, b: Pe<T>, data: nat, s: nat, i: nat)
    requires c.n >= 2 && q < c.n && PeShape(c, b) && s < c.nSeg && i < c.n
  {
    b.dst[s][i] == Expected(c, q, s, i, b.done, data)
  }

  predicate DstOk<T(==)>(c: Config<T>, q: nat, l: Link<T>, b: Pe<T>)
    requires c.n >= 2 && q < c.n && PeShape(c, b)
  {
    b.phase != Outside ==> forall s, i :: 0 <= s < c.nSeg && 0 <= i < c.n ==> ChunkOk(c, q, b, l.data, s, i)
  }

  /** Everything that concerns the way from PE p to its successor. */
  ghost predicate LinkOk<T>(c: Config<T>, p: nat, l: Link<T>, b: Pe<T>)
    requires c.n >= 2 && p < c.n && PeShape(c, b)
  {
    && PeOk(c, b) && Counters(l, b) && NetOk(c, p, l)
    && WrkOk(c, p, l, b) && SyncOk(c, l, b) && DstOk(c, Next(c.n, p), l, b)
  }

  ghost predicate Inv<T>(c: Config<T>, s: State<T>) {
    Shape(c, s) && forall p {:trigger s.links[p]} :: 0 <= p < c.n ==> LinkOk(c, p, s.links[p], s.pes[Next(c.n, p)])
  }

  // ----- how far PEs can be apart -----

  function Ahead(n: nat, p: nat, d: nat): (q: nat)
    requires p < n && d < n
    ensures q < n
  {
    if p + d < n then p + d else p + d - n
  }

  /** Nobody is past the flags it has been sent. */
  predicate InStep<T>(c: Config<T>, s: State<T>) {
    Shape(c, s) && forall p {:trigger s.links[p]} :: 0 <= p < c.n ==> Counters(s.links[p], s.pes[Next(c.n, p)])
  }

  lemma {:induction false} Behind<T>(c: Config<T>, s: State<T>, p: nat, d: nat)
    requires InStep(c, s) && p < c.n && d < c.n
    ensures s.pes[Ahead(c.n, p, d)].done <= s.pes[p].done + d
    decreases d
  {
    if d > 0 {
      Behind(c, s, p, d - 1);
      var o := Ahead(c.n, p, d - 1);
      assert Next(c.n, o) == Ahead(c.n, p, d);
      assert Counters(s.links[o], s.pes[Next(c.n, o)]);
    }
  }

  /** What PE p has sent is less than n rounds ahead of what its successor's
      successor has been told, all the way around the ring. */
  lemma Lead<T>(c: Config<T>, s: State<T>, p: nat)
    requires Inv(c, s) && p < c.n
    ensures Sent(s.pes[p]) <= s.links[Next(c.n, p)].flag + c.n - 1
  {
    var q := Next(c.n, p);
    var r := Next(c.n, q);
    forall o | 0 <= o < c.n ensures Counters(s.links[o], s.pes[Next(c.n, o)]) {
      assert LinkOk(c, o, s.links[o], s.pes[Next(c.n, o)]);
    }
    Behind(c, s, r, c.n - 2);
    assert Ahead(c.n, r, c.n - 2) == p;
  }
}
