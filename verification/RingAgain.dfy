/**
 Two ring reductions one after the other with the same flags and work array, as
 `to_all(team)` makes them with the team's own arrays. Nothing makes a PE wait for
 the others between the calls.

 A PE's flag words are one memory: while it is in the first call they are kept in
 its state of that call, afterwards in its state of the second. The work array may
 be cut differently by the two calls, so each has its own view of it, and a write
 through one may change the other in any way. The results are different buffers.
 */
module RingAgain {
  import opened RingReduce
  import opened RingInvariant
  import opened RingTheorems
  import opened RingReturn

  /** `seen1(w, v)`: what the first call sees in the work array, having seen v, after
      the second has written and sees w; `seen2` the other way round. */
  datatype Calls<!T> = Calls(one: Config<T>, two: Config<T>,
                             seen1: (seq<T>, seq<T>) -> seq<T>, seen2: (seq<T>, seq<T>) -> seq<T>)

  datatype Twice<T> = Twice(a: State<T>, b: State<T>)

  datatype Turn = First(m: Move) | Second(m: Move)

  predicate Pair<T>(w: Calls<T>, d: Twice<T>) {
    w.one.n == w.two.n && Shape(w.one, d.a) && Shape(w.two, d.b)
  }

  /** Reset is the last step of a call. */
  predicate Back<T>(s: State<T>, p: nat)
    requires p < |s.pes|
  {
    s.pes[p].phase == Finished
  }

  function WithWork<T>(c: Config<T>, s: State<T>, q: nat, wrk: seq<T>): (t: State<T>)
    requires Shape(c, s) && q < c.n
    ensures Shape(c, t)
  {
    if |wrk| == c.n then s.(pes := s.pes[q := s.pes[q].(wrk := wrk)]) else s
  }

  /** The flag of position k is stored in the memory of PE q. */
  function WithFlag<T>(c: Config<T>, s: State<T>, q: nat, k: nat): (t: State<T>)
    requires Shape(c, s) && q < c.n
    ensures Shape(c, t)
  {
    s.(pes := s.pes[q := Raise(c, s.pes[q], k)])
  }

  /** The flag leaves the link; where it arrives is a separate matter. */
  function FlagGone<T>(c: Config<T>, s: State<T>, p: nat): (t: State<T>)
    requires Shape(c, s) && p < c.n && s.links[p].flag < s.links[p].data
    ensures Shape(c, t)
  {
    s.(links := s.links[p := s.links[p].(flag := s.links[p].flag + 1)])
  }

  /** The next delivery goes to the work array. */
  predicate ToWork<T>(n: nat, l: Link<T>)
    requires n >= 2
  {
    l.data in l.net && Round(n, l.data) < n - 1
  }

  function FirstStep<T>(w: Calls<T>, d: Twice<T>, m: Move): (e: Twice<T>)
    requires Pair(w, d)
    ensures Pair(w, e)
  {
    if m.p >= w.one.n then d
    else
      var q := Next(w.one.n, m.p);
      match m
      case DeliverData(p) =>
        var a := DataStep(w.one, d.a, p);
        Twice(a, if ToWork(w.one.n, d.a.links[p])
                 then WithWork(w.two, d.b, q, w.seen2(a.pes[q].wrk, d.b.pes[q].wrk)) else d.b)
      case DeliverFlag(p) =>
        var l := d.a.links[p];
        if l.flag < l.data && Back(d.a, q)
        then Twice(FlagGone(w.one, d.a, p), WithFlag(w.two, d.b, q, l.flag))
        else Twice(FlagStep(w.one, d.a, p), d.b)
      case _ => Twice(Step(w.one, d.a, m), d.b)
  }

  /** A PE calls again after it has returned, and its link keeps the order. */
  predicate InOrder<T>(w: Calls<T>, d: Twice<T>, m: Move)
    requires Pair(w, d) && m.p < w.one.n
  {
    match m
    case Begin(p) => Back(d.a, p)
    case DeliverData(p) => d.a.links[p].data == Total(w.one)
    case DeliverFlag(p) => d.a.links[p].flag == Total(w.one)
    case _ => true
  }

  function SecondStep<T>(w: Calls<T>, d: Twice<T>, m: Move): (e: Twice<T>)
    requires Pair(w, d)
    ensures Pair(w, e)
  {
    if m.p >= w.one.n || !InOrder(w, d, m) then d
    else
      var q := Next(w.one.n, m.p);
      match m
      case DeliverData(p) =>
        var b := DataStep(w.two, d.b, p);
        Twice(if ToWork(w.two.n, d.b.links[p])
              then WithWork(w.one, d.a, q, w.seen1(b.pes[q].wrk, d.a.pes[q].wrk)) else d.a, b)
      case DeliverFlag(p) =>
        var l := d.b.links[p];
        if l.flag < l.data && !Back(d.a, q)
        then Twice(WithFlag(w.one, d.a, q, l.flag), FlagGone(w.two, d.b, p))
        else Twice(d.a, FlagStep(w.two, d.b, p))
      case _ => Twice(d.a, Step(w.two, d.b, m))
  }

  function TurnStep<T>(w: Calls<T>, d: Twice<T>, t: Turn): (e: Twice<T>)
    requires Pair(w, d)
    ensures Pair(w, e)
  {
    match t
    case First(m) => FirstStep(w, d, m)
    case Second(m) => SecondStep(w, d, m)
  }

  function Run<T>(w: Calls<T>, d: Twice<T>, turns: seq<Turn>): (e: Twice<T>)
    requires Pair(w, d)
    ensures Pair(w, e)
    decreases |turns|
  {
    if turns == [] then d else Run(w, TurnStep(w, d, turns[0]), turns[1..])
  }

  ghost predicate AtStart<T>(w: Calls<T>, d: Twice<T>) {
    w.one.n == w.two.n && Initial(w.one, d.a) && Initial(w.two, d.b)
  }

  /** A flag of the second call reaches a PE that has yet to reset after the first. */
  predicate Early<T>(w: Calls<T>, d: Twice<T>, t: Turn)
    requires Pair(w, d)
  {
    && t.Second? && t.m.DeliverFlag? && t.m.p < w.one.n && InOrder(w, d, t.m)
    && d.b.links[t.m.p].flag < d.b.links[t.m.p].data && !Back(d.a, Next(w.one.n, t.m.p))
  }

  predicate NeverEarly<T>(w: Calls<T>, d: Twice<T>, turns: seq<Turn>)
    requires Pair(w, d)
    decreases |turns|
  {
    turns == [] || (!Early(w, d, turns[0]) && NeverEarly(w, TurnStep(w, d, turns[0]), turns[1..]))
  }

  // ----- while no flag is early -----

  /** Both calls are as if they were alone. */
  ghost predicate Good<T>(w: Calls<T>, d: Twice<T>) {
    && w.one.n == w.two.n && Inv(w.one, d.a) && Inv(w.two, d.b)
    && (forall q :: 0 <= q < w.one.n && d.b.pes[q].phase != Outside ==> Back(d.a, q))
    && (forall p :: 0 <= p < w.one.n && d.b.links[p].data > 0 ==> d.a.links[p].data == Total(w.one))
    && (forall p :: 0 <= p < w.one.n && d.b.links[p].flag > 0 ==> Back(d.a, Next(w.one.n, p)))
  }

  lemma StartGood<T>(w: Calls<T>, d: Twice<T>)
    requires AtStart(w, d)
    ensures Good(w, d)
  {
    InitialInv(w.one, d.a);
    InitialInv(w.two, d.b);
  }

  lemma NothingComing<T>(c: Config<T>, s: State<T>, q: nat)
    requires Inv(c, s) && q < c.n && Back(s, q)
    ensures var l := s.links[Prev(c.n, q)]; l.flag == l.data == Total(c)
  {
    var o := Prev(c.n, q);
    assert LinkOk(c, o, s.links[o], s.pes[q]);
    Window(c, s, o);
  }

  /** The work array may hold anything when none of it is awaited. */
  lemma AnyWork<T>(c: Config<T>, s: State<T>, p: nat, wrk: seq<T>)
    requires Inv(c, s) && p < c.n
    requires forall k :: s.pes[Next(c.n, p)].done <= k < s.links[p].data ==> Round(c.n, k) >= c.n - 1
    ensures Inv(c, WithWork(c, s, Next(c.n, p), wrk))
  {
    var q := Next(c.n, p);
    if |wrk| == c.n {
      var b := s.pes[q].(wrk := wrk);
      assert LinkOk(c, p, s.links[p], s.pes[q]);
      DstStays(c, q, s.links[p], s.pes[q], b);
      SyncStays(c, s.links[p], s.pes[q], b);
      assert LinkOk(c, p, s.links[p], b);
      OneLink(c, s, p, s.links[p], b, WithWork(c, s, q, wrk));
    }
  }

  lemma FirstInv<T>(w: Calls<T>, d: Twice<T>, m: Move)
    requires Good(w, d)
    ensures FirstStep(w, d, m).a == Step(w.one, d.a, m)
    ensures Inv(w.one, FirstStep(w, d, m).a) && Inv(w.two, FirstStep(w, d, m).b)
  {
    StepInv(w.one, d.a, m);
    if m.p < w.one.n {
      var q := Next(w.one.n, m.p);
      match m
      case DeliverData(p) =>
        Window(w.one, d.a, p);
        if ToWork(w.one.n, d.a.links[p]) {
          AnyWork(w.two, d.b, p, w.seen2(DataStep(w.one, d.a, p).pes[q].wrk, d.b.pes[q].wrk));
        }
      case DeliverFlag(p) =>
        if Back(d.a, q) {
          NothingComing(w.one, d.a, q);
        }
      case _ =>
    }
  }

  /** Only the views change in the other call. */
  lemma FirstFrame<T>(w: Calls<T>, d: Twice<T>, m: Move)
    requires Good(w, d)
    ensures var e := FirstStep(w, d, m);
      && e.b.links == d.b.links && forall q :: 0 <= q < w.one.n ==> e.b.pes[q].phase == d.b.pes[q].phase
  {
    if m.DeliverFlag? && m.p < w.one.n && Back(d.a, Next(w.one.n, m.p)) {
      NothingComing(w.one, d.a, Next(w.one.n, m.p));
    }
  }

  lemma StepGrows<T>(c: Config<T>, s: State<T>, m: Move, p: nat)
    requires Inv(c, s) && p < c.n
    ensures s.links[p].data == Total(c) ==> Step(c, s, m).links[p].data == Total(c)
    ensures Back(s, p) ==> Back(Step(c, s, m), p)
  {
    StaysFinishedIf(c, s, m, p);
    Window(c, s, p);
    if m.p < c.n && m.p != p {
      assert Step(c, s, m).links[p] == s.links[p];
    }
  }

  lemma StaysFinishedIf<T>(c: Config<T>, s: State<T>, m: Move, p: nat)
    requires Shape(c, s) && p < c.n
    ensures Back(s, p) ==> Back(Step(c, s, m), p)
  {
    if Back(s, p) {
      StaysFinished(c, s, m, p);
    }
  }

  lemma FirstGood<T>(w: Calls<T>, d: Twice<T>, m: Move)
    requires Good(w, d)
    ensures Good(w, FirstStep(w, d, m))
  {
    FirstInv(w, d, m);
    FirstFrame(w, d, m);
    forall p | 0 <= p < w.one.n
      ensures d.a.links[p].data == Total(w.one) ==> Step(w.one, d.a, m).links[p].data == Total(w.one)
      ensures Back(d.a, p) ==> Back(Step(w.one, d.a, m), p)
    {
      StepGrows(w.one, d.a, m, p);
    }
  }

  /** A PE that has called again has returned; its successor is in its last rounds of
      the first call and has no more use for the work array. */
  lemma SuccessorIsLast<T>(w: Calls<T>, d: Twice<T>, p: nat)
    requires Good(w, d) && p < w.one.n && d.b.links[p].data in d.b.links[p].net
    ensures forall k :: d.a.pes[Next(w.one.n, p)].done <= k < d.a.links[p].data ==> Round(w.one.n, k) >= w.one.n - 1
  {
    var q, o := Next(w.one.n, p), Prev(w.one.n, p);
    Window(w.two, d.b, p);
    assert LinkOk(w.two, o, d.b.links[o], d.b.pes[p]);
    assert d.b.pes[p].phase != Outside;
    assert LinkOk(w.one, o, d.a.links[o], d.a.pes[p]);
    Apart(w.one, d.a, q, p);
    Window(w.one, d.a, p);
    forall k: nat | d.a.pes[q].done <= k < d.a.links[p].data ensures Round(w.one.n, k) >= w.one.n - 1 {
      LastRounds(w.one, k);
    }
  }

  lemma SecondInv<T>(w: Calls<T>, d: Twice<T>, m: Move)
    requires Good(w, d) && !Early(w, d, Second(m)) && m.p < w.one.n && InOrder(w, d, m)
    ensures SecondStep(w, d, m).b == Step(w.two, d.b, m)
    ensures Inv(w.one, SecondStep(w, d, m).a) && Inv(w.two, SecondStep(w, d, m).b)
  {
    StepInv(w.two, d.b, m);
    var q := Next(w.one.n, m.p);
    if m.DeliverData? && ToWork(w.two.n, d.b.links[m.p]) {
      SuccessorIsLast(w, d, m.p);
      AnyWork(w.one, d.a, m.p, w.seen1(DataStep(w.two, d.b, m.p).pes[q].wrk, d.a.pes[q].wrk));
    }
  }

  lemma SecondFrame<T>(w: Calls<T>, d: Twice<T>, m: Move)
    requires Good(w, d) && !Early(w, d, Second(m)) && m.p < w.one.n && InOrder(w, d, m)
    ensures var e := SecondStep(w, d, m);
      && e.a.links == d.a.links && forall q :: 0 <= q < w.one.n ==> e.a.pes[q].phase == d.a.pes[q].phase
  {
  }

  lemma Entered<T>(w: Calls<T>, d: Twice<T>, m: Move, q: nat)
    requires Good(w, d) && m.p < w.one.n && InOrder(w, d, m) && q < w.one.n
    ensures Step(w.two, d.b, m).pes[q].phase != Outside ==> Back(d.a, q)
  {
    if !m.Begin? {
      OutsideUntilBegin(w.two, d.b, m, q);
    }
  }

  lemma SecondLink<T>(w: Calls<T>, d: Twice<T>, m: Move, p: nat)
    requires Good(w, d) && !Early(w, d, Second(m)) && m.p < w.one.n && InOrder(w, d, m) && p < w.one.n
    ensures Step(w.two, d.b, m).links[p].data > 0 ==> d.a.links[p].data == Total(w.one)
    ensures Step(w.two, d.b, m).links[p].flag > 0 ==> Back(d.a, Next(w.one.n, p))
  {
    if m.p != p {
      assert Step(w.two, d.b, m).links[p] == d.b.links[p];
    }
  }

  lemma SecondGood<T>(w: Calls<T>, d: Twice<T>, m: Move)
    requires Good(w, d) && !Early(w, d, Second(m))
    ensures Good(w, SecondStep(w, d, m))
  {
    if m.p < w.one.n && InOrder(w, d, m) {
      SecondInv(w, d, m);
      SecondFrame(w, d, m);
      var e := SecondStep(w, d, m);
      forall q | 0 <= q < w.one.n ensures e.b.pes[q].phase != Outside ==> Back(e.a, q) {
        Entered(w, d, m, q);
      }
      forall p | 0 <= p < w.one.n
        ensures e.b.links[p].data > 0 ==> e.a.links[p].data == Total(w.one)
        ensures e.b.links[p].flag > 0 ==> Back(e.a, Next(w.one.n, p))
      {
        SecondLink(w, d, m, p);
      }
    }
  }

  lemma {:induction false} RunGood<T>(w: Calls<T>, d: Twice<T>, turns: seq<Turn>)
    requires Good(w, d) && NeverEarly(w, d, turns)
    ensures Good(w, Run(w, d, turns))
    decreases |turns|
  {
    if turns != [] {
      match turns[0] {
        case First(m) => FirstGood(w, d, m);
        case Second(m) => SecondGood(w, d, m);
      }
      RunGood(w, TurnStep(w, d, turns[0]), turns[1..]);
    }
  }

  /** As long as no flag was early, whoever returns from either call has its result. */
  lemma {:induction false} BothRight<T>(w: Calls<T>, d: Twice<T>, turns: seq<Turn>, p: nat)
    requires AtStart(w, d) && NeverEarly(w, d, turns) && p < w.one.n
    ensures RightAfter(w.one, Run(w, d, turns).a, [], p) && RightAfter(w.two, Run(w, d, turns).b, [], p)
  {
    StartGood(w, d);
    RunGood(w, d, turns);
    RightFromInv(w.one, Run(w, d, turns).a, [], p);
    RightFromInv(w.two, Run(w, d, turns).b, [], p);
  }

  ghost predicate AllBack<T>(w: Calls<T>, d: Twice<T>)
    requires Pair(w, d)
  {
    forall p :: 0 <= p < w.one.n ==> Back(d.a, p) && Back(d.b, p)
  }

  /** When all have returned from the first call, the second goes on by itself. */
  lemma SecondGoesOn<T>(w: Calls<T>, d: Twice<T>) returns (t: Turn)
    requires Good(w, d) && (forall p :: 0 <= p < w.one.n ==> Back(d.a, p)) && exists p :: Running(d.b, p)
    ensures TurnStep(w, d, t) != d
  {
    var m := NeverStuck(w.two, d.b);
    if m.p < w.one.n {
      NothingComing(w.one, d.a, Next(w.one.n, m.p));
      SecondInv(w, d, m);
    }
    t := Second(m);
  }

  lemma GoesOn<T>(w: Calls<T>, d: Twice<T>) returns (t: Turn)
    requires Good(w, d) && !AllBack(w, d)
    ensures TurnStep(w, d, t) != d
  {
    if p :| Running(d.a, p) {
      var m := NeverStuck(w.one, d.a);
      FirstInv(w, d, m);
      t := First(m);
    } else {
      forall p | 0 <= p < w.one.n ensures Back(d.a, p) {
        assert !Running(d.a, p);
      }
      var p :| 0 <= p < w.one.n && !Back(d.b, p);
      assert Running(d.b, p);
      t := SecondGoesOn(w, d);
    }
  }

  // ----- after an early flag -----

  /** The flag that PE q needs to begin with has come and gone. */
  predicate Lost<T>(w: Calls<T>, d: Twice<T>, q: nat)
    requires Pair(w, d) && q < w.one.n
  {
    var p, b := Prev(w.one.n, q), d.b.pes[q];
    && d.a.links[p].flag == d.a.links[p].data == Total(w.one) && d.b.links[p].flag >= 1 && Total(w.two) >= 1
    && b.done == 0 && b.phase in {Outside, Ready, Waiting} && b.pSync[0] != 100
  }

  /** An early flag is in the memory of its PE, where the reset after the first call
      will clear it. */
  lemma EarlyIsLost<T>(w: Calls<T>, d: Twice<T>, t: Turn)
    requires Good(w, d) && Early(w, d, t)
    ensures TurnStep(w, d, t).a.pes[Next(w.one.n, t.m.p)].pSync[0] == 100
    ensures Lost(w, TurnStep(w, d, t), Next(w.one.n, t.m.p))
  {
    var p, q := t.m.p, Next(w.one.n, t.m.p);
    assert LinkOk(w.two, p, d.b.links[p], d.b.pes[q]);
    assert NotRaised(w.two, d.b.pes[q], 0);
    Window(w.one, d.a, p);
    Window(w.two, d.b, p);
  }

  lemma LostDelivery<T>(w: Calls<T>, d: Twice<T>, m: Move, q: nat)
    requires Pair(w, d) && q < w.one.n && Lost(w, d, q) && m.p < w.one.n && (m.DeliverData? || m.DeliverFlag?)
    ensures Lost(w, FirstStep(w, d, m), q)
  {
    if m.p == Prev(w.one.n, q) {
      assert FirstStep(w, d, m) == d;
    } else {
      assert Next(w.one.n, m.p) != q;
    }
  }

  lemma LostFirst<T>(w: Calls<T>, d: Twice<T>, m: Move, q: nat)
    requires Pair(w, d) && q < w.one.n && Lost(w, d, q)
    ensures Lost(w, FirstStep(w, d, m), q)
  {
    if m.p < w.one.n && (m.DeliverData? || m.DeliverFlag?) {
      LostDelivery(w, d, m, q);
    }
  }

  /** Later flags have another place or another value. */
  lemma LostFlag<T>(w: Calls<T>, d: Twice<T>, q: nat)
    requires Pair(w, d) && q < w.one.n && Lost(w, d, q)
    ensures Lost(w, SecondStep(w, d, DeliverFlag(Prev(w.one.n, q))), q)
  {
    AtIs(w.two.n, 0, 0, d.b.links[Prev(w.one.n, q)].flag);
  }

  lemma LostOwn<T>(c: Config<T>, q: nat, b: Pe<T>, m: Move)
    requires c.n >= 2 && q < c.n && PeShape(c, b) && Total(c) >= 1
    requires b.done == 0 && b.phase in {Outside, Ready, Waiting} && b.pSync[0] != 100
    ensures var r := RunPe(c, q, b, m); r.done == 0 && r.phase in {Outside, Ready, Waiting} && r.pSync == b.pSync
  {
  }

  lemma LostTransfer<T>(w: Calls<T>, d: Twice<T>, m: Move, q: nat)
    requires Pair(w, d) && q < w.one.n && Lost(w, d, q) && m.p < w.one.n
    requires m.Fetch? || m.DeliverData? || (m.DeliverFlag? && m.p != Prev(w.one.n, q))
    ensures Lost(w, SecondStep(w, d, m), q)
  {
    assert m.p != Prev(w.one.n, q) ==> Next(w.one.n, m.p) != q;
  }

  lemma LostSecond<T>(w: Calls<T>, d: Twice<T>, m: Move, q: nat)
    requires Pair(w, d) && q < w.one.n && Lost(w, d, q)
    ensures Lost(w, SecondStep(w, d, m), q)
  {
    if m.p < w.one.n && InOrder(w, d, m) {
      if m == DeliverFlag(Prev(w.one.n, q)) {
        LostFlag(w, d, q);
      } else if m.Fetch? || m.DeliverData? || m.DeliverFlag? {
        LostTransfer(w, d, m, q);
      } else if m.p == q {
        LostOwn(w.two, q, d.b.pes[q], m);
      }
    }
  }

  lemma {:induction false} LostForever<T>(w: Calls<T>, d: Twice<T>, turns: seq<Turn>, q: nat)
    requires Pair(w, d) && q < w.one.n && Lost(w, d, q)
    ensures Lost(w, Run(w, d, turns), q)
    decreases |turns|
  {
    if turns != [] {
      match turns[0] {
        case First(m) => LostFirst(w, d, m, q);
        case Second(m) => LostSecond(w, d, m, q);
      }
      LostForever(w, TurnStep(w, d, turns[0]), turns[1..], q);
    }
  }

  lemma {:induction false} SomeFlagLost<T>(w: Calls<T>, d: Twice<T>, turns: seq<Turn>) returns (q: nat)
    requires Good(w, d) && !NeverEarly(w, d, turns)
    ensures q < w.one.n && Lost(w, Run(w, d, turns), q)
    decreases |turns|
  {
    var t := turns[0];
    if Early(w, d, t) {
      q := Next(w.one.n, t.m.p);
      EarlyIsLost(w, d, t);
      LostForever(w, TurnStep(w, d, t), turns[1..], q);
    } else {
      match t {
        case First(m) => FirstGood(w, d, m);
        case Second(m) => SecondGood(w, d, m);
      }
      q := SomeFlagLost(w, TurnStep(w, d, t), turns[1..]);
    }
  }

  /** After an early flag some PE never returns from the second call. */
  lemma EarlyNeverReturns<T>(w: Calls<T>, d: Twice<T>, turns: seq<Turn>) returns (q: nat)
    requires AtStart(w, d) && !NeverEarly(w, d, turns)
    ensures q < w.one.n && forall more :: !Back(Run(w, Run(w, d, turns), more).b, q)
  {
    StartGood(w, d);
    q := SomeFlagLost(w, d, turns);
    forall more ensures !Back(Run(w, Run(w, d, turns), more).b, q) {
      LostForever(w, Run(w, d, turns), more, q);
    }
  }

  /** When nothing can move any more, all PEs have returned from both calls exactly
      when no flag was early. */
  lemma {:induction false} TwoCallsIff<T>(w: Calls<T>, d: Twice<T>, turns: seq<Turn>)
    requires AtStart(w, d) && forall t :: TurnStep(w, Run(w, d, turns), t) == Run(w, d, turns)
    ensures AllBack(w, Run(w, d, turns)) <==> NeverEarly(w, d, turns)
  {
    StartGood(w, d);
    var e := Run(w, d, turns);
    if NeverEarly(w, d, turns) {
      RunGood(w, d, turns);
      if !AllBack(w, e) {
        var t := GoesOn(w, e);
      }
    } else {
      var q := SomeFlagLost(w, d, turns);
      assert !Back(e.b, q);
    }
  }

  // ----- nothing rules it out but a barrier -----

  /** As with a barrier in between: the second call begins when all are back. */
  predicate Separated<T>(w: Calls<T>, d: Twice<T>, turns: seq<Turn>)
    requires Pair(w, d)
    decreases |turns|
  {
    turns == [] ||
    (&& (turns[0].Second? && turns[0].m.Begin? ==> forall q :: 0 <= q < w.one.n ==> Back(d.a, q))
     && Separated(w, TurnStep(w, d, turns[0]), turns[1..]))
  }

  /** Once somebody is in the second call, all are back from the first. */
  ghost predicate Apiece<T>(w: Calls<T>, d: Twice<T>)
    requires Pair(w, d)
  {
    forall p, q :: 0 <= p < w.one.n && 0 <= q < w.one.n && d.b.pes[p].phase != Outside ==> Back(d.a, q)
  }

  lemma ApieceNotEarly<T>(w: Calls<T>, d: Twice<T>, t: Turn)
    requires Good(w, d) && Apiece(w, d)
    ensures !Early(w, d, t)
  {
    if t.m.p < w.one.n {
      HasEntered(w.two, d.b, t.m.p);
    }
  }

  lemma HasEntered<T>(c: Config<T>, s: State<T>, p: nat)
    requires Inv(c, s) && p < c.n
    ensures s.links[p].flag < s.links[p].data ==> s.pes[p].phase != Outside
  {
    Window(c, s, p);
    assert LinkOk(c, Prev(c.n, p), s.links[Prev(c.n, p)], s.pes[p]);
  }

  lemma OutsideUntilBegin<T>(c: Config<T>, s: State<T>, m: Move, p: nat)
    requires Shape(c, s) && p < c.n && !m.Begin?
    ensures s.pes[p].phase == Outside ==> Step(c, s, m).pes[p].phase == Outside
  {
  }

  lemma ApieceFirst<T>(w: Calls<T>, d: Twice<T>, m: Move)
    requires Good(w, d) && Apiece(w, d)
    ensures Apiece(w, FirstStep(w, d, m))
  {
    FirstInv(w, d, m);
    FirstFrame(w, d, m);
    forall q | 0 <= q < w.one.n ensures Back(d.a, q) ==> Back(Step(w.one, d.a, m), q) {
      StepGrows(w.one, d.a, m, q);
    }
  }

  lemma ApieceBoth<T>(w: Calls<T>, d: Twice<T>, m: Move, p: nat, q: nat)
    requires Good(w, d) && Apiece(w, d) && m.p < w.one.n && InOrder(w, d, m) && p < w.one.n && q < w.one.n
    requires (m.Begin? ==> Back(d.a, q)) && Step(w.two, d.b, m).pes[p].phase != Outside
    ensures Back(d.a, q)
  {
    if !m.Begin? {
      OutsideUntilBegin(w.two, d.b, m, p);
    }
  }

  lemma ApieceSecond<T>(w: Calls<T>, d: Twice<T>, m: Move)
    requires Good(w, d) && Apiece(w, d)
    requires m.Begin? ==> forall q :: 0 <= q < w.one.n ==> Back(d.a, q)
    ensures Apiece(w, SecondStep(w, d, m))
  {
    ApieceNotEarly(w, d, Second(m));
    if m.p < w.one.n && InOrder(w, d, m) {
      SecondInv(w, d, m);
      SecondFrame(w, d, m);
      var e := SecondStep(w, d, m);
      forall p: nat, q: nat | p < w.one.n && q < w.one.n && e.b.pes[p].phase != Outside ensures Back(e.a, q) {
        assert m.Begin? ==> Back(d.a, q);
        ApieceBoth(w, d, m, p, q);
        assert e.a.pes[q].phase == d.a.pes[q].phase;
      }
    }
  }

  /** With a barrier between the calls no flag is early. */
  lemma {:induction false} SeparatedNeverEarly<T>(w: Calls<T>, d: Twice<T>, turns: seq<Turn>)
    requires Good(w, d) && Apiece(w, d) && Separated(w, d, turns)
    ensures NeverEarly(w, d, turns)
    decreases |turns|
  {
    if turns != [] {
      ApieceNotEarly(w, d, turns[0]);
      match turns[0] {
        case First(m) =>
          FirstGood(w, d, m);
          ApieceFirst(w, d, m);
        case Second(m) =>
          SecondGood(w, d, m);
          ApieceSecond(w, d, m);
      }
      SeparatedNeverEarly(w, TurnStep(w, d, turns[0]), turns[1..]);
    }
  }

  /** Two calls with a barrier in between: results are right, and when nothing can move
      any more all PEs have returned from both. */
  lemma {:induction false} SeparatedCallsReturn<T>(w: Calls<T>, d: Twice<T>, turns: seq<Turn>, p: nat)
    requires AtStart(w, d) && Separated(w, d, turns) && p < w.one.n
    ensures RightAfter(w.one, Run(w, d, turns).a, [], p) && RightAfter(w.two, Run(w, d, turns).b, [], p)
    ensures (forall t :: TurnStep(w, Run(w, d, turns), t) == Run(w, d, turns)) ==> AllBack(w, Run(w, d, turns))
  {
    StartGood(w, d);
    SeparatedNeverEarly(w, d, turns);
    BothRight(w, d, turns, p);
    if forall t :: TurnStep(w, Run(w, d, turns), t) == Run(w, d, turns) {
      TwoCallsIff(w, d, turns);
    }
  }

  function FirstTurns(moves: seq<Move>): seq<Turn> {
    if moves == [] then [] else [First(moves[0])] + FirstTurns(moves[1..])
  }

  lemma {:induction false} RunFirst<T>(w: Calls<T>, d: Twice<T>, moves: seq<Move>)
    requires Good(w, d)
    ensures var e := Run(w, d, FirstTurns(moves));
      && Good(w, e) && e.a == Exec(w.one, d.a, moves) && e.b.links == d.b.links
      && forall q :: 0 <= q < w.one.n ==> e.b.pes[q].phase == d.b.pes[q].phase
    decreases |moves|
  {
    if moves != [] {
      FirstGood(w, d, moves[0]);
      FirstInv(w, d, moves[0]);
      FirstFrame(w, d, moves[0]);
      RunFirst(w, FirstStep(w, d, moves[0]), moves[1..]);
      assert FirstTurns(moves)[1..] == FirstTurns(moves[1..]);
    }
  }

  lemma {:induction false} RunConcat<T>(w: Calls<T>, d: Twice<T>, x: seq<Turn>, y: seq<Turn>)
    requires Pair(w, d)
    ensures Run(w, d, x + y) == Run(w, Run(w, d, x), y)
    ensures NeverEarly(w, d, x + y) ==> NeverEarly(w, Run(w, d, x), y)
    decreases |x|
  {
    if x == [] {
      assert x + y == y;
    } else {
      assert (x + y)[1..] == x[1..] + y;
      RunConcat(w, TurnStep(w, d, x[0]), x[1..], y);
    }
  }

  /** All of p's puts and flags can arrive with nobody moving. */
  lemma {:induction false} Drain<T>(c: Config<T>, s: State<T>, p: nat) returns (moves: seq<Move>)
    requires Inv(c, s) && p < c.n
    ensures var t := Exec(c, s, moves);
      t.links[p].flag == Sent(s.pes[p]) && forall q :: 0 <= q < c.n ==> t.pes[q].phase == s.pes[q].phase
    decreases (6 * Total(c) + 2) * c.n - Work(s)
  {
    if s.links[p].flag == Sent(s.pes[p]) {
      moves := [];
    } else {
      var m := Transfer(p, s.links[p]);
      TransferWorks(c, s, p);
      TransferKeeps(c, s, p);
      StepInv(c, s, m);
      StepWork(c, s, m);
      WorkBounded(c, Step(c, s, m));
      var rest := Drain(c, Step(c, s, m), p);
      moves := [m] + rest;
      ExecCons(c, s, m, rest);
    }
  }

  lemma TransferKeeps<T>(c: Config<T>, s: State<T>, p: nat)
    requires Shape(c, s) && p < c.n
    ensures var t := Step(c, s, Transfer(p, s.links[p]));
      forall q :: 0 <= q < c.n ==> t.pes[q].phase == s.pes[q].phase && Sent(t.pes[q]) == Sent(s.pes[q])
  {
  }

  /** PE p is back, all its data has arrived, and its successor has yet to reset. */
  ghost predicate Poised<T>(w: Calls<T>, d: Twice<T>, p: nat) {
    && Good(w, d) && p < w.one.n && w.two.nSeg >= 1 && Back(d.a, p) && !Back(d.a, Next(w.one.n, p))
    && d.a.links[p].data == Total(w.one) && d.b.links[p].flag == 0 && d.b.pes[p].done == 0
  }

  /** Where p's first round of the second call has got to. */
  predicate FirstRound<T>(s: State<T>, p: nat, k: nat)
    requires p < |s.pes| && p < |s.links|
  {
    match k
    case 0 => s.pes[p].phase == Outside && s.links[p].data == 0
    case 1 => s.pes[p].phase == Ready && s.links[p].data == 0
    case 2 => s.pes[p].phase == Waiting && s.links[p].data == 0 && 0 !in s.links[p].net
    case 3 => s.links[p].data == 0 && 0 in s.links[p].net
    case _ => s.links[p].data == 1
  }

  function Opening(p: nat, k: nat): Move {
    match k
    case 0 => Begin(p)
    case 1 => Put(p)
    case 2 => Fetch(p, 0)
    case 3 => DeliverData(p)
    case _ => DeliverFlag(p)
  }

  lemma OpeningStep<T>(w: Calls<T>, d: Twice<T>, p: nat, k: nat)
    requires Poised(w, d, p) && k < 4 && FirstRound(d.b, p, k)
    ensures Poised(w, SecondStep(w, d, Opening(p, k)), p) && FirstRound(SecondStep(w, d, Opening(p, k)).b, p, k + 1)
    ensures SecondStep(w, d, Opening(p, k)).a.links == d.a.links
  {
    var m := Opening(p, k);
    TotalAtLeast(w.two);
    SecondGood(w, d, m);
    SecondInv(w, d, m);
    SecondFrame(w, d, m);
  }

  /** Five moves of p alone make its first flag early. */
  lemma {:induction false} OpeningIsEarly<T>(w: Calls<T>, d: Twice<T>, p: nat, k: nat) returns (turns: seq<Turn>)
    requires Poised(w, d, p) && k <= 4 && FirstRound(d.b, p, k) && d.a.links[p].flag == Total(w.one)
    ensures !NeverEarly(w, d, turns)
    decreases 4 - k
  {
    var t := Second(Opening(p, k));
    if k == 4 {
      turns := [t];
      assert Early(w, d, t);
    } else {
      OpeningStep(w, d, p, k);
      var rest := OpeningIsEarly(w, TurnStep(w, d, t), p, k + 1);
      turns := [t] + rest;
      assert turns[1..] == rest;
    }
  }

  /** p returns, and what it sent arrives, before its successor resets. */
  lemma Overtakes<T>(c: Config<T>, init: State<T>, p: nat) returns (moves: seq<Move>)
    requires Initial(c, init) && c.nSeg >= 1 && p < c.n
    ensures var s := Exec(c, init, moves);
      && Back(s, p) && !Back(s, Next(c.n, p)) && s.links[p].flag == s.links[p].data == Total(c)
  {
    var first := ReturnsUnread(c, init, p);
    InitialInv(c, init);
    ExecInv(c, init, first);
    var s := Exec(c, init, first);
    var rest := Drain(c, s, p);
    moves := first + rest;
    ExecConcat(c, init, first, rest);
    assert LinkOk(c, Prev(c.n, p), s.links[Prev(c.n, p)], s.pes[p]);
  }

  lemma {:induction false} ExecConcat<T>(c: Config<T>, s: State<T>, x: seq<Move>, y: seq<Move>)
    requires Shape(c, s)
    ensures Exec(c, s, x + y) == Exec(c, Exec(c, s, x), y)
    decreases |x|
  {
    if x == [] {
      assert x + y == y;
    } else {
      assert (x + y)[1..] == x[1..] + y;
      ExecConcat(c, Step(c, s, x[0]), x[1..], y);
    }
  }

  lemma {:induction false} DrainData<T>(c: Config<T>, s: State<T>, p: nat) returns (moves: seq<Move>)
    requires Inv(c, s) && p < c.n
    ensures var t := Exec(c, s, moves);
      && t.links[p].data == Sent(s.pes[p]) && t.links[p].flag == s.links[p].flag
      && forall q :: 0 <= q < c.n ==> t.pes[q].phase == s.pes[q].phase
    decreases (6 * Total(c) + 2) * c.n - Work(s)
  {
    var l := s.links[p];
    if l.data == Sent(s.pes[p]) {
      moves := [];
    } else {
      var m := if l.data in l.net then DeliverData(p) else Fetch(p, l.data);
      assert Step(c, s, m).links[p] != l;
      StepInv(c, s, m);
      StepWork(c, s, m);
      WorkBounded(c, Step(c, s, m));
      var rest := DrainData(c, Step(c, s, m), p);
      moves := [m] + rest;
      ExecCons(c, s, m, rest);
    }
  }

  /** p returns, and its data arrives, before its last flag does. */
  lemma FlagStillDue<T>(c: Config<T>, init: State<T>, p: nat) returns (moves: seq<Move>)
    requires Initial(c, init) && c.nSeg >= 1 && p < c.n
    ensures var s := Exec(c, init, moves);
      && Back(s, p) && !Back(s, Next(c.n, p)) && s.links[p].data == Total(c) && s.links[p].flag < Total(c)
  {
    var first := ReturnsUnread(c, init, p);
    InitialInv(c, init);
    ExecInv(c, init, first);
    var s := Exec(c, init, first);
    assert LinkOk(c, Prev(c.n, p), s.links[Prev(c.n, p)], s.pes[p]);
    Window(c, s, p);
    var rest := DrainData(c, s, p);
    moves := first + rest;
    ExecConcat(c, init, first, rest);
  }

  /** What the first call sees in q's work array is what the second has left there. */
  ghost predicate Shared<T>(w: Calls<T>, d: Twice<T>, q: nat, before: seq<T>)
    requires Pair(w, d) && q < w.one.n
  {
    var seen := w.seen1(d.b.pes[q].wrk, before);
    |seen| == w.one.n ==> d.a.pes[q].wrk == seen
  }

  lemma {:induction false} OpeningToWork<T>(w: Calls<T>, d: Twice<T>, p: nat, k: nat)
      returns (turns: seq<Turn>, before: seq<T>)
    requires Poised(w, d, p) && k <= 3 && FirstRound(d.b, p, k)
    ensures var e := Run(w, d, turns);
      Poised(w, e, p) && e.a.links == d.a.links && Shared(w, e, Next(w.one.n, p), before)
    decreases 3 - k
  {
    var t := Second(Opening(p, k));
    OpeningStep(w, d, p, k);
    if k == 3 {
      turns, before := [t], d.a.pes[Next(w.one.n, p)].wrk;
      RunOnce(w, d, t);
      assert ToWork(w.two.n, d.b.links[p]);
    } else {
      var rest;
      rest, before := OpeningToWork(w, TurnStep(w, d, t), p, k + 1);
      turns := [t] + rest;
      assert turns[1..] == rest;
    }
  }

  lemma {:induction false} RunOnce<T>(w: Calls<T>, d: Twice<T>, t: Turn)
    requires Pair(w, d)
    ensures Run(w, d, [t]) == TurnStep(w, d, t)
  {
    assert [t][1..] == [];
  }

  /** The calls do overlap: p's data of the second can be in its successor's work array
      while the successor is in the first and has yet to see p's last flag. */
  lemma WorkOverlaps<T>(w: Calls<T>, d: Twice<T>, p: nat) returns (turns: seq<Turn>, before: seq<T>)
    requires AtStart(w, d) && w.one.nSeg >= 1 && w.two.nSeg >= 1 && p < w.one.n
    ensures var e, q := Run(w, d, turns), Next(w.one.n, p);
      && Good(w, e) && Back(e.a, p) && !Back(e.a, q) && e.a.links[p].flag < Total(w.one)
      && Shared(w, e, q, before)
  {
    var moves := FlagStillDue(w.one, d.a, p);
    StartGood(w, d);
    RunFirst(w, d, moves);
    var x := FirstTurns(moves);
    var e := Run(w, d, x);
    assert LinkOk(w.two, Prev(w.two.n, p), e.b.links[Prev(w.two.n, p)], e.b.pes[p]);
    var y;
    y, before := OpeningToWork(w, e, p, 0);
    turns := x + y;
    RunConcat(w, d, x, y);
  }

  /** Without a barrier some flag can always be early, whatever the two calls are and
      whoever comes first, and then some PE never returns from the second call. */
  lemma UnseparatedCanHang<T>(w: Calls<T>, d: Twice<T>, p: nat) returns (turns: seq<Turn>, q: nat)
    requires AtStart(w, d) && w.one.nSeg >= 1 && w.two.nSeg >= 1 && p < w.one.n
    ensures q < w.one.n && forall more :: !Back(Run(w, Run(w, d, turns), more).b, q)
  {
    var moves := Overtakes(w.one, d.a, p);
    StartGood(w, d);
    RunFirst(w, d, moves);
    var x := FirstTurns(moves);
    var e := Run(w, d, x);
    assert LinkOk(w.two, Prev(w.two.n, p), e.b.links[Prev(w.two.n, p)], e.b.pes[p]);
    var y := OpeningIsEarly(w, e, p, 0);
    turns := x + y;
    RunConcat(w, d, x, y);
    q := EarlyNeverReturns(w, d, turns);
  }
}
