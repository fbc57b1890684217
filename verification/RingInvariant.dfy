/**
 The ring reduction keeps its invariant: every array of every PE holds what the
 rounds done and delivered so far say it should. From this follows what a PE has
 when it returns.
 */
module RingInvariant {
  import opened RingReduce

  // ----- every step keeps the invariant -----

  /** Steps of the receiver that leave work array, round and deliveries alone. */
  lemma WorkStays<T>(c: Config<T>, p: nat, l: Link<T>, b: Pe<T>, t: Pe<T>)
    requires c.n >= 2 && p < c.n && PeShape(c, b) && PeShape(c, t) && WrkOk(c, p, l, b)
    requires t.wrk == b.wrk && t.done >= b.done
    ensures WrkOk(c, p, l, t)
  {
    forall k | t.done <= k < l.data ensures InWork(c, p, t, k) {
      assert InWork(c, p, b, k);
    }
  }

  lemma SyncStays<T>(c: Config<T>, l: Link<T>, b: Pe<T>, t: Pe<T>)
    requires c.n >= 2 && PeShape(c, b) && PeShape(c, t) && SyncOk(c, l, b)
    requires t.pSync == b.pSync && t.done >= b.done
    ensures SyncOk(c, l, t)
  {
    forall k | t.done <= k < l.flag ensures Raised(c, t, k) {
      assert Raised(c, b, k);
    }
    forall k | l.flag <= k ensures NotRaised(c, t, k) {
      assert NotRaised(c, b, k);
    }
  }

  lemma DstStays<T>(c: Config<T>, q: nat, l: Link<T>, b: Pe<T>, t: Pe<T>)
    requires c.n >= 2 && q < c.n && PeShape(c, b) && PeShape(c, t) && DstOk(c, q, l, b)
    requires t.dst == b.dst && t.done == b.done && (b.phase == Outside ==> t.phase == Outside)
    ensures DstOk(c, q, l, t)
  {
    forall s, i | t.phase != Outside && 0 <= s < c.nSeg && 0 <= i < c.n ensures ChunkOk(c, q, t, l.data, s, i) {
      assert ChunkOk(c, q, b, l.data, s, i);
    }
  }

  /** Entering copies the source; nothing complete can have arrived before. */
  lemma BeginLink<T>(c: Config<T>, p: nat, l: Link<T>, b: Pe<T>)
    requires c.n >= 2 && p < c.n && PeShape(c, b) && LinkOk(c, p, l, b)
    requires b.phase == Outside && l.data < c.n
    ensures LinkOk(c, p, l, RunPe(c, Next(c.n, p), b, Begin(Next(c.n, p))))
  {
    var q := Next(c.n, p);
    var t := RunPe(c, q, b, Begin(q));
    WorkStays(c, p, l, b, t);
    SyncStays(c, l, b, t);
    forall s, i | 0 <= s < c.nSeg && 0 <= i < c.n ensures ChunkOk(c, q, t, l.data, s, i) {
    }
  }

  lemma PutLink<T>(c: Config<T>, p: nat, l: Link<T>, b: Pe<T>)
    requires c.n >= 2 && p < c.n && PeShape(c, b) && LinkOk(c, p, l, b)
    ensures LinkOk(c, p, l, RunPe(c, Next(c.n, p), b, Put(Next(c.n, p))))
  {
    var t := RunPe(c, Next(c.n, p), b, Put(Next(c.n, p)));
    WorkStays(c, p, l, b, t);
    SyncStays(c, l, b, t);
    DstStays(c, Next(c.n, p), l, b, t);
  }

  /** The flag has the awaited value only if it is the one of this round. */
  lemma WaitLink<T>(c: Config<T>, p: nat, l: Link<T>, b: Pe<T>)
    requires c.n >= 2 && p < c.n && PeShape(c, b) && LinkOk(c, p, l, b)
    ensures LinkOk(c, p, l, RunPe(c, Next(c.n, p), b, Wait(Next(c.n, p))))
  {
    var t := RunPe(c, Next(c.n, p), b, Wait(Next(c.n, p)));
    assert l.flag <= b.done ==> NotRaised(c, b, b.done);
    WorkStays(c, p, l, b, t);
    SyncStays(c, l, b, t);
    DstStays(c, Next(c.n, p), l, b, t);
  }

  lemma ResetLink<T>(c: Config<T>, p: nat, l: Link<T>, b: Pe<T>)
    requires c.n >= 2 && p < c.n && PeShape(c, b) && LinkOk(c, p, l, b) && l.flag <= l.data <= Total(c)
    ensures LinkOk(c, p, l, RunPe(c, Next(c.n, p), b, Reset(Next(c.n, p))))
  {
    var t := RunPe(c, Next(c.n, p), b, Reset(Next(c.n, p)));
    WorkStays(c, p, l, b, t);
    if t == b {
      SyncStays(c, l, b, t);
    } else {
      forall k | l.flag <= k ensures NotRaised(c, t, k) {
      }
    }
    DstStays(c, Next(c.n, p), l, b, t);
  }

  /** Round `done` of PE q adds to chunk i of segment s. */
  predicate AddsTo(n: nat, q: nat, s: nat, i: nat, done: nat)
    requires n >= 2 && q < n
  {
    Round(n, done) < n - 1 && s == Seg(n, done) && i == RecvChunk(n, q, Round(n, done))
  }

  lemma CombinedChunk<T>(c: Config<T>, q: nat, s: nat, i: nat, done: nat, data: nat)
    requires c.n >= 2 && q < c.n && i < c.n && data <= done + c.n
    ensures AddsTo(c.n, q, s, i, done) ==> Expected(c, q, s, i, done, data) == c.x(q, s, i)
    ensures Expected(c, q, s, i, done + 1, data) ==
            if AddsTo(c.n, q, s, i, done) then Partial(c, s, i, Round(c.n, done) + 1)
            else Expected(c, q, s, i, done, data)
  {
    var rho := Rho(c.n, q, i);
    RecvRound(c.n, q, Round(c.n, done));
    if rho <= c.n - 2 {
      AtIs(c.n, s, rho, done);
    }
  }

  lemma CombinedDst<T>(c: Config<T>, p: nat, l: Link<T>, b: Pe<T>)
    requires c.n >= 2 && p < c.n && PeShape(c, b) && DstOk(c, Next(c.n, p), l, b) && InWork(c, p, b, b.done)
    requires b.phase == Arrived && l.data <= b.done + c.n
    ensures DstOk(c, Next(c.n, p), l, AddChunk(c, Next(c.n, p), b))
  {
    var q := Next(c.n, p);
    var t := AddChunk(c, q, b);
    forall s, i | 0 <= s < c.nSeg && 0 <= i < c.n ensures ChunkOk(c, q, t, l.data, s, i) {
      assert ChunkOk(c, q, b, l.data, s, i);
      CombinedChunk(c, q, s, i, b.done, l.data);
    }
  }

  lemma ReduceLink<T>(c: Config<T>, p: nat, l: Link<T>, b: Pe<T>)
    requires c.n >= 2 && p < c.n && PeShape(c, b) && LinkOk(c, p, l, b)
    requires b.phase == Arrived && l.flag <= l.data <= b.done + c.n
    ensures LinkOk(c, p, l, RunPe(c, Next(c.n, p), b, Reduce(Next(c.n, p))))
  {
    var q := Next(c.n, p);
    var t := AddChunk(c, q, b);
    WorkStays(c, p, l, b, t);
    SyncStays(c, l, b, t);
    CombinedDst(c, p, l, b);
  }

  /** What a put reads, whenever it does, is what it was issued for. */
  lemma ReadIsPayload<T>(c: Config<T>, p: nat, l: Link<T>, b: Pe<T>, k: nat)
    requires c.n >= 2 && p < c.n && PeShape(c, b) && DstOk(c, p, l, b) && b.phase != Outside
    requires k < Total(c) && k <= b.done <= l.data <= k + c.n - 1
    ensures Read(c, p, b, k) == Payload(c, p, k)
  {
    var s, r := Seg(c.n, k), Round(c.n, k);
    var i := SendChunk(c.n, p, r);
    SegBound(c, k);
    SendRound(c.n, p, r);
    Position(c.n, k);
    assert ChunkOk(c, p, b, l.data, s, i);
  }

  /** The one chunk that delivery number `data` completes. */
  lemma GatheredChunk<T>(c: Config<T>, p: nat, s: nat, i: nat, done: nat, data: nat)
    requires c.n >= 2 && p < c.n && i < c.n
    ensures var q, r := Next(c.n, p), Round(c.n, data);
      if r >= c.n - 1 && s == Seg(c.n, data) && i == SendChunk(c.n, p, r)
      then Expected(c, q, s, i, done, data + 1) == Payload(c, p, data)
      else Expected(c, q, s, i, done, data + 1) == Expected(c, q, s, i, done, data)
  {
    var q, r := Next(c.n, p), Round(c.n, data);
    var rho := Rho(c.n, q, i);
    RecvRound(c.n, q, r);
    if rho != c.n - 2 {
      AtIs(c.n, s, Gather(c.n, rho), data);
    }
  }

  lemma DeliveredDst<T>(c: Config<T>, p: nat, l: Link<T>, b: Pe<T>)
    requires c.n >= 2 && p < c.n && PeShape(c, b) && DstOk(c, Next(c.n, p), l, b)
    requires l.data in l.net && l.net[l.data] == Payload(c, p, l.data) && l.data < Total(c)
    ensures DstOk(c, Next(c.n, p), Delivered(l), Write(c, p, b, l.data, l.net[l.data]))
  {
    var q := Next(c.n, p);
    var t, data := Write(c, p, b, l.data, l.net[l.data]), l.data + 1;
    forall s, i | t.phase != Outside && 0 <= s < c.nSeg && 0 <= i < c.n ensures ChunkOk(c, q, t, data, s, i) {
      assert ChunkOk(c, q, b, l.data, s, i);
      GatheredChunk(c, p, s, i, b.done, l.data);
    }
  }

  lemma DataLink<T>(c: Config<T>, p: nat, l: Link<T>, b: Pe<T>)
    requires c.n >= 2 && p < c.n && PeShape(c, b) && LinkOk(c, p, l, b)
    requires l.data in l.net && l.flag <= l.data < Total(c) && l.data < b.done + c.n
    ensures LinkOk(c, p, Delivered(l), Write(c, p, b, l.data, l.net[l.data]))
  {
    DeliveredWork(c, p, l, b);
    DeliveredDst(c, p, l, b);
    SyncStays(c, Delivered(l), b, Write(c, p, b, l.data, l.net[l.data]));
  }

  /** A delivery never overwrites a chunk of the work array that is still needed. */
  lemma DeliveredWork<T>(c: Config<T>, p: nat, l: Link<T>, b: Pe<T>)
    requires c.n >= 2 && p < c.n && PeShape(c, b) && WrkOk(c, p, l, b)
    requires l.data in l.net && l.net[l.data] == Payload(c, p, l.data) && l.data < Total(c) && l.data < b.done + c.n
    ensures WrkOk(c, p, Delivered(l), Write(c, p, b, l.data, l.net[l.data]))
  {
    var t := Write(c, p, b, l.data, l.net[l.data]);
    forall k | b.done <= k < l.data + 1 ensures InWork(c, p, t, k) {
      if k < l.data {
        assert InWork(c, p, b, k);
        if Round(c.n, k) == Round(c.n, l.data) {
          SameRound(c.n, k, l.data);
        }
        RecvRound(c.n, Next(c.n, p), Round(c.n, k));
        RecvRound(c.n, Next(c.n, p), Round(c.n, l.data));
      }
    }
  }

  /** A flag is never overwritten before it has been seen. */
  lemma FlagLink<T>(c: Config<T>, p: nat, l: Link<T>, b: Pe<T>)
    requires c.n >= 2 && p < c.n && PeShape(c, b) && LinkOk(c, p, l, b)
    requires l.flag < l.data <= Total(c) && l.flag < b.done + c.n
    ensures LinkOk(c, p, l.(flag := l.flag + 1), Raise(c, b, l.flag))
  {
    var t := Raise(c, b, l.flag);
    forall k | b.done <= k < l.flag + 1 ensures Raised(c, t, k) {
      assert k < l.flag ==> Raised(c, b, k);
      if k < l.flag && Round(c.n, k) == Round(c.n, l.flag) {
        SameRound(c.n, k, l.flag);
      }
    }
    forall k | l.flag + 1 <= k ensures NotRaised(c, t, k) {
      assert NotRaised(c, b, k);
      if Round(c.n, k) == Round(c.n, l.flag) {
        SameRound(c.n, l.flag, k);
      }
    }
    WorkStays(c, p, l, b, t);
    DstStays(c, Next(c.n, p), l, b, t);
  }

  lemma RunLink<T>(c: Config<T>, s: State<T>, m: Move, o: nat)
    requires Inv(c, s) && m.p < c.n && o == Prev(c.n, m.p)
    ensures LinkOk(c, o, s.links[o], RunPe(c, m.p, s.pes[m.p], m))
  {
    var l, b := s.links[o], s.pes[m.p];
    assert LinkOk(c, o, l, b);
    Lead(c, s, o);
    match m
    case Begin(p) => if b.phase == Outside { BeginLink(c, o, l, b); }
    case Put(p) => PutLink(c, o, l, b);
    case Wait(p) => WaitLink(c, o, l, b);
    case Reduce(p) => if b.phase == Arrived { ReduceLink(c, o, l, b); }
    case Reset(p) => ResetLink(c, o, l, b);
    case _ =>
  }

  /** A step that touches only the link from PE p and its successor. */
  lemma OneLink<T>(c: Config<T>, s: State<T>, p: nat, l: Link<T>, b: Pe<T>, t: State<T>)
    requires Inv(c, s) && p < c.n && PeShape(c, b) && LinkOk(c, p, l, b) && Shape(c, t)
    requires t.pes == s.pes[Next(c.n, p) := b] && t.links == s.links[p := l]
    ensures Inv(c, t)
  {
    forall a | 0 <= a < c.n ensures LinkOk(c, a, t.links[a], t.pes[Next(c.n, a)]) {
      assert LinkOk(c, a, s.links[a], s.pes[Next(c.n, a)]);
    }
  }

  lemma RunInv<T>(c: Config<T>, s: State<T>, m: Move)
    requires Inv(c, s) && m.p < c.n && !m.Fetch? && !m.DeliverData? && !m.DeliverFlag?
    ensures Inv(c, Step(c, s, m))
  {
    var o := Prev(c.n, m.p);
    RunLink(c, s, m, o);
    OneLink(c, s, o, s.links[o], RunPe(c, m.p, s.pes[m.p], m), Step(c, s, m));
  }

  lemma NetGrows<T>(c: Config<T>, p: nat, l: Link<T>, b: Pe<T>, k: nat, v: T)
    requires c.n >= 2 && p < c.n && PeShape(c, b) && LinkOk(c, p, l, b) && v == Payload(c, p, k)
    ensures LinkOk(c, p, l.(net := l.net[k := v]), b)
  {
  }

  /** Whenever, and in whatever order, issued puts read their sources. */
  lemma FetchedIsPayload<T>(c: Config<T>, s: State<T>, p: nat, k: nat)
    requires Inv(c, s) && p < c.n && s.links[p].data <= k < Sent(s.pes[p])
    ensures k < Total(c) && Read(c, p, s.pes[p], k) == Payload(c, p, k)
  {
    var o := Prev(c.n, p);
    assert LinkOk(c, o, s.links[o], s.pes[p]);
    Lead(c, s, o);
    ReadIsPayload(c, p, s.links[o], s.pes[p], k);
  }

  lemma FetchInv<T>(c: Config<T>, s: State<T>, p: nat, k: nat)
    requires Inv(c, s) && p < c.n
    ensures Inv(c, FetchStep(c, s, p, k))
  {
    var l, b := s.links[p], s.pes[Next(c.n, p)];
    if l.data <= k < Sent(s.pes[p]) && k !in l.net {
      assert LinkOk(c, p, l, b);
      FetchedIsPayload(c, s, p, k);
      NetGrows(c, p, l, b, k, Payload(c, p, k));
      OneLink(c, s, p, l.(net := l.net[k := Payload(c, p, k)]), b, FetchStep(c, s, p, k));
    }
  }

  /** Less than n rounds of data and flags lie ahead of a PE. */
  lemma Window<T>(c: Config<T>, s: State<T>, p: nat)
    requires Inv(c, s) && p < c.n
    ensures s.links[p].flag <= s.links[p].data <= Sent(s.pes[p]) <= Total(c)
    ensures s.links[p].data in s.links[p].net ==> s.links[p].data < Sent(s.pes[p])
    ensures Sent(s.pes[p]) <= s.pes[Next(c.n, p)].done + c.n
  {
    Lead(c, s, p);
    var q := Next(c.n, p);
    assert s.links[q].flag <= Sent(s.pes[q]);
  }

  lemma DataArrives<T>(c: Config<T>, s: State<T>, p: nat)
    requires Inv(c, s) && p < c.n && s.links[p].data in s.links[p].net
    ensures var l, b := s.links[p], s.pes[Next(c.n, p)];
      l.data < Total(c) && LinkOk(c, p, Delivered(l), Write(c, p, b, l.data, l.net[l.data]))
  {
    var l, b := s.links[p], s.pes[Next(c.n, p)];
    assert LinkOk(c, p, l, b);
    Window(c, s, p);
    DataLink(c, p, l, b);
  }

  lemma DataInv<T>(c: Config<T>, s: State<T>, p: nat)
    requires Inv(c, s) && p < c.n
    ensures Inv(c, DataStep(c, s, p))
  {
    var l, b := s.links[p], s.pes[Next(c.n, p)];
    if l.data in l.net {
      DataArrives(c, s, p);
      OneLink(c, s, p, Delivered(l), Write(c, p, b, l.data, l.net[l.data]), DataStep(c, s, p));
    }
  }

  lemma FlagArrives<T>(c: Config<T>, s: State<T>, p: nat)
    requires Inv(c, s) && p < c.n && s.links[p].flag < s.links[p].data
    ensures var l, b := s.links[p], s.pes[Next(c.n, p)];
      LinkOk(c, p, l.(flag := l.flag + 1), Raise(c, b, l.flag))
  {
    var l, b := s.links[p], s.pes[Next(c.n, p)];
    assert LinkOk(c, p, l, b);
    Window(c, s, p);
    FlagLink(c, p, l, b);
  }

  lemma FlagInv<T>(c: Config<T>, s: State<T>, p: nat)
    requires Inv(c, s) && p < c.n
    ensures Inv(c, FlagStep(c, s, p))
  {
    var l, b := s.links[p], s.pes[Next(c.n, p)];
    if l.flag < l.data {
      FlagArrives(c, s, p);
      OneLink(c, s, p, l.(flag := l.flag + 1), Raise(c, b, l.flag), FlagStep(c, s, p));
    }
  }

  lemma StepInv<T>(c: Config<T>, s: State<T>, m: Move)
    requires Inv(c, s)
    ensures Inv(c, Step(c, s, m))
  {
    if m.p < c.n {
      match m
      case Fetch(p, k) => FetchInv(c, s, p, k);
      case DeliverData(p) => DataInv(c, s, p);
      case DeliverFlag(p) => FlagInv(c, s, p);
      case _ => RunInv(c, s, m);
    }
  }

  lemma {:induction false} ExecInv<T>(c: Config<T>, s: State<T>, moves: seq<Move>)
    requires Inv(c, s)
    ensures Inv(c, Exec(c, s, moves))
    decreases |moves|
  {
    if moves != [] {
      StepInv(c, s, moves[0]);
      ExecInv(c, Step(c, s, moves[0]), moves[1..]);
    }
  }

  lemma InitialInv<T>(c: Config<T>, s: State<T>)
    requires Initial(c, s)
    ensures Inv(c, s)
  {
    forall p | 0 <= p < c.n ensures LinkOk(c, p, s.links[p], s.pes[Next(c.n, p)]) {
    }
  }

  // ----- what holds in every run -----

  lemma ExpectedAtEnd<T>(c: Config<T>, p: nat, s: nat, i: nat, data: nat)
    requires c.n >= 2 && p < c.n && i < c.n && s < c.nSeg && data >= Total(c)
    ensures Expected(c, p, s, i, Total(c), data) == Result(c, s, i)
  {
    var rho := Rho(c.n, p, i);
    if rho == c.n - 2 {
      AtBound(c, s, rho);
    } else {
      AtBound(c, s, Gather(c.n, rho));
    }
  }

  /** In every interleaving a PE that returns has, for every chunk, the sum of all
      PEs' contributions in ring order, and its flags are clear again. All PEs get
      the same value even if the operation is not associative. */
  lemma {:induction false} ReturnsResult<T>(c: Config<T>, init: State<T>, moves: seq<Move>, p: nat, s: nat, i: nat)
    requires Initial(c, init) && p < c.n && s < c.nSeg && i < c.n
    requires Exec(c, init, moves).pes[p].phase == Finished
    ensures Exec(c, init, moves).pes[p].dst[s][i] == Result(c, s, i)
    ensures forall r :: 0 <= r < Rounds(c.n) ==> Exec(c, init, moves).pes[p].pSync[r] == 0
  {
    InitialInv(c, init);
    ExecInv(c, init, moves);
    var t, o := Exec(c, init, moves), Prev(c.n, p);
    assert LinkOk(c, o, t.links[o], t.pes[p]) && ChunkOk(c, p, t.pes[p], t.links[o].data, s, i);
    ExpectedAtEnd(c, p, s, i, t.links[o].data);
  }

  /** Nothing is left under way to a PE that has returned. */
  lemma {:induction false} QuietAtReturn<T>(c: Config<T>, init: State<T>, moves: seq<Move>, p: nat)
    requires Initial(c, init) && p < c.n && Exec(c, init, moves).pes[p].phase == Finished
    ensures var l := Exec(c, init, moves).links[Prev(c.n, p)];
      l.data == l.flag == Total(c) && l.net.Keys == {}
  {
    InitialInv(c, init);
    ExecInv(c, init, moves);
    var t, o := Exec(c, init, moves), Prev(c.n, p);
    assert LinkOk(c, o, t.links[o], t.pes[p]);
    Window(c, t, o);
  }
}
