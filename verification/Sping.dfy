/**
 The host ping test. Even and odd partner bounce a message of `words` words; a
 round for each message size, barriers around every round. A put writes `words`
 separate words, each in flight on its own and delivered in any order; the
 partner waits on the last word only and then zeroes it.
 */
module Sping {
  import opened Arith
  import opened Sums

  datatype Pc =
    | StartBarrier // about to enter the barrier before the round
    | StartWait    // arrived there
    | FirstWait    // odd: wait before the loop
    | FirstReset   // odd: zero the flag word before the loop
    | Test         // while (r-- > 0)
    | Put
    | Wait
    | Reset
    | LastPut      // odd: put after the loop
    | EndBarrier   // about to enter the barrier after the round
    | EndWait      // arrived there
    | Finished

  /** `puts` and `waits` count what this PE did in the current round. */
  datatype Pe = Pe(pc: Pc, words: nat, r: int, puts: nat, waits: nat)

  /** `buf[p]` is the receive buffer of PE p; `pend[p][i]` counts writes in flight to its word i. */
  datatype State = State(pes: seq<Pe>, buf: seq<seq<int>>, pend: seq<seq<nat>>)

  datatype Config = Config(reps: nat, minWords: nat, maxWords: nat, incWords: nat)

  predicate ValidConfig(c: Config) {
    c.reps >= 1 && 1 <= c.minWords <= c.maxWords
  }

  datatype Move = Run(pe: nat) | Deliver(dst: nat, word: nat)

  function Payload(i: nat): int {
    1000 + i % 256
  }

  function NextWords(c: Config, words: nat): nat {
    if c.incWords != 0 then words + c.incWords else if words != 0 then 2 * words else 1
  }

  function Start(c: Config): State {
    State([Pe(StartBarrier, c.minWords, 0, 0, 0), Pe(StartBarrier, c.minWords, 0, 0, 0)],
          [seq(c.maxWords, _ => 0), seq(c.maxWords, _ => 0)],
          [seq(c.maxWords, _ => 0), seq(c.maxWords, _ => 0)])
  }

  predicate Shape(c: Config, s: State) {
    && |s.pes| == 2 && |s.buf| == 2 && |s.pend| == 2
    && (forall p :: 0 <= p < 2 ==> |s.buf[p]| == c.maxWords && |s.pend[p]| == c.maxWords)
    && (forall p :: 0 <= p < 2 && s.pes[p].pc != Finished ==> 1 <= s.pes[p].words <= c.maxWords)
  }

  function With(s: State, p: nat, pe: Pe): State
    requires p < |s.pes|
  {
    s.(pes := s.pes[p := pe])
  }

  /** One more write in flight to each of the first `words` words of the partner. */
  function Send(s: State, p: nat): State
    requires p < 2 && |s.pes| == 2 && |s.pend| == 2
  {
    var q := 1 - p;
    var row := seq(|s.pend[q]|, i requires 0 <= i < |s.pend[q]| =>
      s.pend[q][i] + if i < s.pes[p].words then 1 else 0);
    s.(pend := s.pend[q := row])
  }

  predicate Quiet(s: State, p: nat)
    requires p < 2 && |s.pend| == 2
  {
    NoneInFlight(s.pend[1 - p])
  }

  predicate NoneInFlight(pend: seq<nat>) {
    forall i :: 0 <= i < |pend| ==> pend[i] == 0
  }

  function RunPe(c: Config, s: State, p: nat): State
    requires p < 2 && Shape(c, s)
  {
    var me, you := s.pes[p], s.pes[1 - p];
    var odd := p == 1;
    match me.pc
    case StartBarrier => if Quiet(s, p) then With(s, p, me.(pc := StartWait)) else s
    case StartWait =>
      // the partner has arrived at the barrier of this round
      if you.words > me.words || (you.words == me.words && you.pc != StartBarrier)
      then With(s, p, me.(pc := if odd then FirstWait else Test, r := if odd then c.reps - 1 else c.reps)) else s
    case FirstWait =>
      if s.buf[p][me.words - 1] != 0 then With(s, p, me.(pc := FirstReset, waits := me.waits + 1)) else s
    case FirstReset => With(s, p, me.(pc := Test)).(buf := s.buf[p := s.buf[p][me.words - 1 := 0]])
    case Test =>
      With(s, p, me.(pc := if me.r > 0 then Put else if odd then LastPut else EndBarrier, r := me.r - 1))
    case Put => With(Send(s, p), p, me.(pc := Wait, puts := me.puts + 1))
    case Wait =>
      if s.buf[p][me.words - 1] != 0 then With(s, p, me.(pc := Reset, waits := me.waits + 1)) else s
    case Reset => With(s, p, me.(pc := Test)).(buf := s.buf[p := s.buf[p][me.words - 1 := 0]])
    case LastPut => With(Send(s, p), p, me.(pc := EndBarrier, puts := me.puts + 1))
    case EndBarrier => if Quiet(s, p) then With(s, p, me.(pc := EndWait)) else s
    case EndWait =>
      // the partner has arrived there, or has already left
      if you.words > me.words || (you.words == me.words && you.pc == EndWait) then
        var w := NextWords(c, me.words);
        With(s, p, Pe(if w <= c.maxWords then StartBarrier else Finished, w, 0, 0, 0))
      else s
    case Finished => s
  }

  function DeliverWord(s: State, dst: nat, i: nat): State
    requires dst < 2 && |s.buf| == 2 && |s.pend| == 2 && i < |s.pend[dst]| == |s.buf[dst]|
  {
    if s.pend[dst][i] == 0 then s
    else s.(pend := s.pend[dst := s.pend[dst][i := s.pend[dst][i] - 1]],
            buf := s.buf[dst := s.buf[dst][i := Payload(i)]])
  }

  function Step(c: Config, s: State, m: Move): State
    requires Shape(c, s)
  {
    match m
    case Run(p) => if p < 2 then RunPe(c, s, p) else s
    case Deliver(dst, i) => if dst < 2 && i < c.maxWords then DeliverWord(s, dst, i) else s
  }

  /** A run; a malformed state, which no run reaches, would stay put. */
  function Exec(c: Config, s: State, moves: seq<Move>): State
    decreases |moves|
  {
    if moves == [] || !Shape(c, s) then s else Exec(c, Step(c, s, moves[0]), moves[1..])
  }

  // ----- the invariant -----

  predicate Holds(p: nat, pc: Pc) {
    if p == 0 then pc != Wait else pc in {FirstReset, Test, Put, Reset, LastPut}
  }

  function Held(p: nat, pc: Pc): nat {
    if Holds(p, pc) then 1 else 0
  }

  /** Loop counter, puts and waits of the even PE at each point. */
  predicate EvenCounts(c: Config, me: Pe) {
    match me.pc
    case StartBarrier => me.puts == 0 && me.waits == 0
    case StartWait => me.puts == 0 && me.waits == 0
    case Test => 0 <= me.r <= c.reps && me.puts == c.reps - me.r && me.waits == me.puts
    case Put => 0 <= me.r < c.reps && me.puts == c.reps - me.r - 1 && me.waits == me.puts
    case Wait => 0 <= me.r < c.reps && me.puts == c.reps - me.r && me.waits == me.puts - 1
    case Reset => 0 <= me.r < c.reps && me.puts == c.reps - me.r && me.waits == me.puts
    case EndBarrier => me.puts == c.reps && me.waits == c.reps
    case EndWait => me.puts == c.reps && me.waits == c.reps
    case Finished => true
    case _ => false
  }

  predicate OddCounts(c: Config, me: Pe) {
    match me.pc
    case StartBarrier => me.puts == 0 && me.waits == 0
    case StartWait => me.puts == 0 && me.waits == 0
    case FirstWait => me.r == c.reps - 1 && me.puts == 0 && me.waits == 0
    case FirstReset => me.r == c.reps - 1 && me.puts == 0 && me.waits == 1
    case Test => 0 <= me.r < c.reps && me.waits == c.reps - me.r && me.puts == me.waits - 1
    case Put => 0 <= me.r < c.reps - 1 && me.waits == c.reps - me.r - 1 && me.puts == me.waits - 1
    case Wait => 0 <= me.r < c.reps - 1 && me.waits == c.reps - me.r - 1 && me.puts == me.waits
    case Reset => 0 <= me.r < c.reps - 1 && me.waits == c.reps - me.r && me.puts == me.waits - 1
    case LastPut => me.waits == c.reps && me.puts == c.reps - 1
    case EndBarrier => me.puts == c.reps && me.waits == c.reps
    case EndWait => me.puts == c.reps && me.waits == c.reps
    case Finished => true
  }

  predicate Counts(c: Config, p: nat, me: Pe) {
    if p == 0 then EvenCounts(c, me) else OddCounts(c, me)
  }

  /** Tokens on their way to PE p or waiting in its flag word f: exactly those that
      the partner put and p has not consumed. */
  predicate Incoming(s: State, p: nat, f: nat)
    requires p < 2 && |s.pes| == 2 && |s.buf| == 2 && |s.pend| == 2 && f < |s.buf[p]| && f < |s.pend[p]|
  {
    var inFlag := if s.buf[p][f] != 0 then 1 else 0;
    if s.pes[p].pc in {FirstReset, Reset}
    then s.pend[p][f] == 0 && inFlag == 1 && s.pes[1 - p].puts == s.pes[p].waits
    else s.pend[p][f] + inFlag == s.pes[1 - p].puts - s.pes[p].waits
  }

  /** Words from `from` on have never been written and nothing is on its way to them. */
  predicate Untouched(s: State, from: nat) {
    forall p, i :: 0 <= p < |s.buf| && p < |s.pend| && from <= i < |s.buf[p]| && i < |s.pend[p]| ==>
      s.buf[p][i] == 0 && s.pend[p][i] == 0
  }

  predicate AtBarrier(pc: Pc) {
    pc in {StartBarrier, StartWait, EndWait, Finished}
  }

  /** Both PEs are in the round of the same message size. */
  predicate SameRound(c: Config, s: State)
    requires Shape(c, s)
  {
    var even, odd := s.pes[0], s.pes[1];
    && even.words == odd.words && even.pc != Finished && odd.pc != Finished
    && Untouched(s, even.words)
    && Incoming(s, 0, even.words - 1) && Incoming(s, 1, even.words - 1)
    && (even.puts - odd.waits) + (odd.puts - even.waits) + Held(0, even.pc) + Held(1, odd.pc) == 1
    && (even.pc == StartBarrier ==> odd.pc in {StartBarrier, StartWait})
    && (odd.pc == StartBarrier ==> even.pc in {StartBarrier, StartWait})
  }

  /** PE q has left the end barrier that PE 1 - q is still in. */
  predicate Between(c: Config, s: State, q: nat)
    requires q < 2 && Shape(c, s)
  {
    var ahead, behind := s.pes[q], s.pes[1 - q];
    && behind.pc == EndWait && ahead.words == NextWords(c, behind.words)
    && ahead.pc in {StartBarrier, StartWait, Finished} && (ahead.pc == Finished <==> ahead.words > c.maxWords)
    && Untouched(s, behind.words - 1)
  }

  predicate Inv(c: Config, s: State) {
    && Shape(c, s)
    && Counts(c, 0, s.pes[0]) && Counts(c, 1, s.pes[1])
    && (AtBarrier(s.pes[0].pc) ==> Quiet(s, 0)) && (AtBarrier(s.pes[1].pc) ==> Quiet(s, 1))
    && (SameRound(c, s) || Between(c, s, 0) || Between(c, s, 1) || (s.pes[0].pc == Finished && s.pes[1].pc == Finished))
  }

  lemma StartInv(c: Config)
    requires ValidConfig(c)
    ensures Inv(c, Start(c))
  {
  }

  lemma NextIsLarger(c: Config, words: nat)
    requires words >= 1
    ensures NextWords(c, words) > words
  {
  }

  // ----- every move keeps the invariant -----

  lemma DeliverInv(c: Config, s: State, dst: nat, i: nat)
    requires Inv(c, s) && dst < 2 && i < c.maxWords
    ensures Inv(c, DeliverWord(s, dst, i))
  {
    var t := DeliverWord(s, dst, i);
    if s.pend[dst][i] > 0 {
      assert !Quiet(s, 1 - dst);
      assert SameRound(c, s);
      assert Incoming(t, 0, t.pes[0].words - 1);
      assert Incoming(t, 1, t.pes[0].words - 1);
      assert SameRound(c, t);
    }
  }

  lemma InRound(c: Config, s: State, p: nat)
    requires Inv(c, s) && p < 2 && !AtBarrier(s.pes[p].pc)
    ensures SameRound(c, s)
  {
  }

  /** The clauses of Inv that a move within the round has to re-establish. */
  lemma StaysInRound(c: Config, s: State, t: State, p: nat)
    requires Inv(c, s) && p < 2 && Shape(c, t) && t.pes[1 - p] == s.pes[1 - p]
    requires Counts(c, p, t.pes[p]) && SameRound(c, t)
    requires t.pend[p] == s.pend[p] && (AtBarrier(t.pes[p].pc) ==> Quiet(t, p))
    ensures Inv(c, t)
  {
    assert Quiet(t, 1 - p) == Quiet(s, 1 - p);
    if p == 0 {
      assert t.pes[1] == s.pes[1];
    } else {
      assert t.pes[0] == s.pes[0];
    }
  }

  /** A move of PE p that keeps the number of tokens keeps the round. */
  lemma KeepsRound(c: Config, s: State, t: State, p: nat)
    requires Inv(c, s) && SameRound(c, s) && p < 2 && !AtBarrier(s.pes[p].pc)
    requires Shape(c, t) && t.pes[1 - p] == s.pes[1 - p] && t.pes[p].words == s.pes[p].words
    requires t.pes[p].pc !in {StartBarrier, Finished} && Untouched(t, s.pes[p].words)
    requires Incoming(t, p, s.pes[p].words - 1) && Incoming(t, 1 - p, s.pes[p].words - 1)
    requires t.pes[p].puts - t.pes[p].waits + Held(p, t.pes[p].pc)
             == s.pes[p].puts - s.pes[p].waits + Held(p, s.pes[p].pc)
    ensures SameRound(c, t)
  {
    if p == 0 {
      assert t.pes[1] == s.pes[1];
    } else {
      assert t.pes[0] == s.pes[0];
    }
  }

  lemma TestInv(c: Config, s: State, p: nat)
    requires Inv(c, s) && p < 2 && s.pes[p].pc == Test
    ensures Inv(c, RunPe(c, s, p))
  {
    InRound(c, s, p);
    var t := RunPe(c, s, p);
    assert Counts(c, p, t.pes[p]);
    KeepsRound(c, s, t, p);
    StaysInRound(c, s, t, p);
  }

  lemma WaitInv(c: Config, s: State, p: nat)
    requires Inv(c, s) && p < 2 && s.pes[p].pc in {FirstWait, Wait}
    ensures Inv(c, RunPe(c, s, p))
  {
    InRound(c, s, p);
    var t := RunPe(c, s, p);
    if t != s {
      assert Counts(c, p, t.pes[p]);
      KeepsRound(c, s, t, p);
      StaysInRound(c, s, t, p);
    }
  }

  lemma ResetInv(c: Config, s: State, p: nat)
    requires Inv(c, s) && p < 2 && s.pes[p].pc in {FirstReset, Reset}
    ensures Inv(c, RunPe(c, s, p))
  {
    InRound(c, s, p);
    var t := RunPe(c, s, p);
    assert Counts(c, p, t.pes[p]);
    KeepsRound(c, s, t, p);
    StaysInRound(c, s, t, p);
  }

  lemma PutArrives(c: Config, s: State, p: nat)
    requires Inv(c, s) && SameRound(c, s) && p < 2 && s.pes[p].pc in {Put, LastPut}
    ensures var t := RunPe(c, s, p);
      && t.buf == s.buf && t.pend[p] == s.pend[p] && Untouched(t, s.pes[p].words)
      && t.pend[1 - p][s.pes[p].words - 1] == s.pend[1 - p][s.pes[p].words - 1] + 1
  {
  }

  lemma PutInv(c: Config, s: State, p: nat)
    requires Inv(c, s) && p < 2 && s.pes[p].pc in {Put, LastPut}
    ensures Inv(c, RunPe(c, s, p))
  {
    InRound(c, s, p);
    PutArrives(c, s, p);
    var t := RunPe(c, s, p);
    assert Counts(c, p, t.pes[p]);
    KeepsRound(c, s, t, p);
    StaysInRound(c, s, t, p);
  }

  lemma EndBarrierInv(c: Config, s: State, p: nat)
    requires Inv(c, s) && p < 2 && s.pes[p].pc == EndBarrier
    ensures Inv(c, RunPe(c, s, p))
  {
    InRound(c, s, p);
    var t := RunPe(c, s, p);
    if t != s {
      assert Counts(c, p, t.pes[p]);
      assert SameRound(c, t);
      StaysInRound(c, s, t, p);
    }
  }

  lemma StartBarrierInv(c: Config, s: State, p: nat)
    requires Inv(c, s) && p < 2 && s.pes[p].pc == StartBarrier
    ensures Inv(c, RunPe(c, s, p))
  {
    var t := RunPe(c, s, p);
    if SameRound(c, s) {
      assert SameRound(c, t);
      StaysInRound(c, s, t, p);
    } else {
      assert Between(c, t, p);
    }
  }

  lemma StartWaitInv(c: Config, s: State, p: nat)
    requires Inv(c, s) && p < 2 && s.pes[p].pc == StartWait
    ensures Inv(c, RunPe(c, s, p))
  {
    var t := RunPe(c, s, p);
    if t != s {
      assert s.pes[p].words >= 1;
      if !SameRound(c, s) {
        NextIsLarger(c, s.pes[1 - p].words);
      }
      assert SameRound(c, t);
      StaysInRound(c, s, t, p);
    }
  }

  lemma EndWaitInv(c: Config, s: State, p: nat)
    requires Inv(c, s) && p < 2 && s.pes[p].pc == EndWait
    ensures Inv(c, RunPe(c, s, p))
  {
    NextIsLarger(c, s.pes[p].words);
  }

  lemma StepInv(c: Config, s: State, m: Move)
    requires Inv(c, s)
    ensures Inv(c, Step(c, s, m))
  {
    match m
    case Deliver(dst, i) =>
      if dst < 2 && i < c.maxWords {
        DeliverInv(c, s, dst, i);
      }
    case Run(p) =>
      if p < 2 {
        match s.pes[p].pc {
          case StartBarrier => StartBarrierInv(c, s, p);
          case StartWait => StartWaitInv(c, s, p);
          case FirstWait => WaitInv(c, s, p);
          case FirstReset => ResetInv(c, s, p);
          case Test => TestInv(c, s, p);
          case Put => PutInv(c, s, p);
          case Wait => WaitInv(c, s, p);
          case Reset => ResetInv(c, s, p);
          case LastPut => PutInv(c, s, p);
          case EndBarrier => EndBarrierInv(c, s, p);
          case EndWait => EndWaitInv(c, s, p);
          case Finished =>
        }
      }
  }

  lemma {:induction false} ExecInv(c: Config, s: State, moves: seq<Move>)
    requires Inv(c, s)
    ensures Inv(c, Exec(c, s, moves))
    decreases |moves|
  {
    if moves != [] {
      StepInv(c, s, moves[0]);
      ExecInv(c, Step(c, s, moves[0]), moves[1..]);
    }
  }

  // ----- what holds in every run -----

  /** Tokens that are in flight to PE p or wait in its flag word. */
  function OnTheWay(s: State, p: nat, f: nat): nat
    requires p < |s.pes| && p < |s.buf| && p < |s.pend| && f < |s.buf[p]| && f < |s.pend[p]|
  {
    s.pend[p][f] + if s.buf[p][f] != 0 && s.pes[p].pc !in {FirstReset, Reset} then 1 else 0
  }

  /** Exactly one token per pair: in flight, in a flag word, or held by one side.
      Every wait consumes one put: puts of one side and waits of the other differ
      by the tokens under way. */
  lemma {:induction false} OneToken(c: Config, moves: seq<Move>)
    requires ValidConfig(c)
    ensures var s := Exec(c, Start(c), moves);
      && Shape(c, s)
      && (s.pes[0].pc != Finished && s.pes[0].words == s.pes[1].words ==>
          var f := s.pes[0].words - 1;
          && OnTheWay(s, 0, f) + OnTheWay(s, 1, f) + Held(0, s.pes[0].pc) + Held(1, s.pes[1].pc) == 1
          && s.pes[0].puts == s.pes[1].waits + OnTheWay(s, 1, f)
          && s.pes[1].puts == s.pes[0].waits + OnTheWay(s, 0, f))
  {
    StartInv(c);
    ExecInv(c, Start(c), moves);
    var s := Exec(c, Start(c), moves);
    if Between(c, s, 0) {
      NextIsLarger(c, s.pes[1].words);
    } else if Between(c, s, 1) {
      NextIsLarger(c, s.pes[0].words);
    }
  }

  /** While PE q is a round ahead, the other is at the end of its own round, which
      is complete, with no token left. */
  lemma {:induction false} NoTokenBetweenRounds(c: Config, moves: seq<Move>, q: nat)
    requires ValidConfig(c) && q < 2
    ensures var s := Exec(c, Start(c), moves);
      && Shape(c, s)
      && (s.pes[q].words > s.pes[1 - q].words && s.pes[1 - q].pc != Finished ==>
          var f := s.pes[1 - q].words - 1;
          && s.pes[1 - q].pc == EndWait && s.pes[q].pc in {StartBarrier, StartWait, Finished}
          && OnTheWay(s, 0, f) + OnTheWay(s, 1, f) == 0
          && s.pes[1 - q].puts == s.pes[1 - q].waits == c.reps)
  {
    StartInv(c);
    ExecInv(c, Start(c), moves);
    var s := Exec(c, Start(c), moves);
    if Between(c, s, 1 - q) {
      NextIsLarger(c, s.pes[q].words);
    }
  }

  /** Whoever has finished a round did exactly `reps` puts and `reps` waits in it. */
  lemma {:induction false} ExactlyReps(c: Config, moves: seq<Move>, p: nat)
    requires ValidConfig(c) && p < 2
    ensures var s := Exec(c, Start(c), moves);
      Shape(c, s) && (s.pes[p].pc in {EndBarrier, EndWait} ==> s.pes[p].puts == c.reps && s.pes[p].waits == c.reps)
  {
    StartInv(c);
    ExecInv(c, Start(c), moves);
  }

  /** When a round starts, the flag words of its size are zero and no write to
      them is in flight: no earlier, smaller message has touched them. */
  lemma {:induction false} FlagsFreshAtRoundStart(c: Config, moves: seq<Move>, p: nat, q: nat)
    requires ValidConfig(c) && p < 2 && q < 2
    ensures var s := Exec(c, Start(c), moves);
      && Shape(c, s)
      && (s.pes[p].pc == StartBarrier ==>
            s.buf[q][s.pes[p].words - 1] == 0 && s.pend[q][s.pes[p].words - 1] == 0)
  {
    StartInv(c);
    ExecInv(c, Start(c), moves);
    var s := Exec(c, Start(c), moves);
    if s.pes[p].pc == StartBarrier && !SameRound(c, s) {
      NextIsLarger(c, s.pes[1 - p].words);
    }
  }

  // ----- sizes and contents -----

  /** The size of message in round k. */
  function SizeAt(c: Config, k: nat): nat {
    if c.incWords != 0 then c.minWords + k * c.incWords else c.minWords * TwoTo(k)
  }

  lemma NextSize(c: Config, k: nat)
    requires c.minWords >= 1
    ensures SizeAt(c, 0) == c.minWords && SizeAt(c, k) >= 1 && NextWords(c, SizeAt(c, k)) == SizeAt(c, k + 1)
  {
    MulAtLeast(c.minWords, TwoTo(k));
    assert c.minWords * (2 * TwoTo(k)) == 2 * (c.minWords * TwoTo(k));
  }

  /** PE p is in round k, or has finished as size k is too large. */
  ghost predicate InRoundNumber(c: Config, s: State, p: nat, k: nat)
    requires p < |s.pes|
  {
    s.pes[p].words == SizeAt(c, k) && (k > 0 ==> SizeAt(c, k - 1) <= c.maxWords)
  }

  ghost predicate OnSchedule(c: Config, s: State, p: nat)
    requires p < |s.pes|
  {
    (exists k: nat :: InRoundNumber(c, s, p, k)) && (s.pes[p].pc == Finished <==> s.pes[p].words > c.maxWords)
  }

  /** A PE keeps its size, or leaves the end barrier for the next one. */
  lemma WordsStep(c: Config, s: State, m: Move, p: nat)
    requires Shape(c, s) && p < 2
    ensures |Step(c, s, m).pes| == 2
    ensures var me, now := s.pes[p], Step(c, s, m).pes[p];
      if now.words == me.words && (now.pc == Finished <==> me.pc == Finished) then true
      else && me.pc == EndWait && now.words == NextWords(c, me.words)
           && (now.pc == Finished <==> now.words > c.maxWords)
  {
  }

  lemma ScheduleStep(c: Config, s: State, m: Move, p: nat)
    requires ValidConfig(c) && Shape(c, s) && p < 2 && OnSchedule(c, s, p)
    ensures |Step(c, s, m).pes| == 2 && OnSchedule(c, Step(c, s, m), p)
  {
    var k: nat :| InRoundNumber(c, s, p, k);
    NextSize(c, k);
    WordsStep(c, s, m, p);
    var t := Step(c, s, m);
    if t.pes[p].words == s.pes[p].words {
      assert InRoundNumber(c, t, p, k);
    } else {
      assert InRoundNumber(c, t, p, k + 1);
    }
  }

  /** In every run a PE goes through the sizes of the schedule in order, and has
      finished exactly when the next one is too large. */
  lemma {:induction false} SizesInOrder(c: Config, s: State, moves: seq<Move>, p: nat)
    requires ValidConfig(c) && Inv(c, s) && p < 2 && OnSchedule(c, s, p)
    ensures |Exec(c, s, moves).pes| == 2 && OnSchedule(c, Exec(c, s, moves), p)
    decreases |moves|
  {
    if moves != [] {
      StepInv(c, s, moves[0]);
      ScheduleStep(c, s, moves[0], p);
      SizesInOrder(c, Step(c, s, moves[0]), moves[1..], p);
    }
  }

  lemma StartOnSchedule(c: Config, p: nat)
    requires ValidConfig(c) && p < 2
    ensures OnSchedule(c, Start(c), p)
  {
    NextSize(c, 0);
    assert InRoundNumber(c, Start(c), p, 0);
  }

  /** Once PE p has put in this round, every word before the flag is under way to the
      partner or there. */
  predicate Sent(s: State, p: nat)
    requires p < 2 && |s.pes| == 2 && |s.buf| == 2 && |s.pend| == 2
  {
    s.pes[p].puts >= 1 ==>
      forall i :: 0 <= i < s.pes[p].words - 1 && i < |s.pend[1 - p]| && i < |s.buf[1 - p]| ==>
        s.pend[1 - p][i] > 0 || s.buf[1 - p][i] == 1000 + i % 256
  }

  lemma SentOwn(c: Config, s: State, p: nat)
    requires Shape(c, s) && p < 2 && Sent(s, p)
    ensures var t := RunPe(c, s, p); |t.pes| == 2 && |t.buf| == 2 && |t.pend| == 2 && Sent(t, p)
  {
    var t := RunPe(c, s, p);
    if s.pes[p].pc !in {Put, LastPut} {
      assert t.pend[1 - p] == s.pend[1 - p] && t.buf[1 - p] == s.buf[1 - p];
    }
  }

  /** The partner zeroes the flag word only. */
  lemma SentPartner(c: Config, s: State, p: nat)
    requires Shape(c, s) && p < 2 && Sent(s, p)
    requires s.pes[1 - p].pc in {FirstReset, Reset} ==> s.pes[1 - p].words == s.pes[p].words
    ensures var t := RunPe(c, s, 1 - p); |t.pes| == 2 && |t.buf| == 2 && |t.pend| == 2 && Sent(t, p)
  {
    var q, t := 1 - p, RunPe(c, s, 1 - p);
    assert t.pend[q] == s.pend[q] && t.pes[p] == s.pes[p];
    if s.pes[q].pc in {FirstReset, Reset} {
      assert t.buf[q] == s.buf[q][s.pes[p].words - 1 := 0];
    } else {
      assert t.buf[q] == s.buf[q];
    }
  }

  lemma SameSize(c: Config, s: State, p: nat)
    requires Inv(c, s) && p < 2
    ensures s.pes[1 - p].pc in {FirstReset, Reset} ==> s.pes[1 - p].words == s.pes[p].words
  {
    if s.pes[1 - p].pc in {FirstReset, Reset} {
      InRound(c, s, 1 - p);
    }
  }

  lemma SentDeliver(s: State, p: nat, dst: nat, i: nat)
    requires p < 2 && |s.pes| == 2 && |s.buf| == 2 && |s.pend| == 2 && Sent(s, p)
    requires dst < 2 && i < |s.pend[dst]| == |s.buf[dst]|
    ensures Sent(DeliverWord(s, dst, i), p)
  {
  }

  lemma SentStep(c: Config, s: State, m: Move, p: nat)
    requires Inv(c, s) && p < 2 && Sent(s, p)
    ensures Inv(c, Step(c, s, m)) && Sent(Step(c, s, m), p)
  {
    StepInv(c, s, m);
    match m
    case Run(o) =>
      if o == p {
        SentOwn(c, s, p);
      } else if o == 1 - p {
        SameSize(c, s, p);
        SentPartner(c, s, p);
      }
    case Deliver(dst, i) =>
      if dst < 2 && i < c.maxWords {
        SentDeliver(s, p, dst, i);
      }
  }

  lemma {:induction false} SentAlways(c: Config, s: State, moves: seq<Move>, p: nat)
    requires Inv(c, s) && p < 2 && Sent(s, p)
    ensures Inv(c, Exec(c, s, moves)) && Sent(Exec(c, s, moves), p)
    decreases |moves|
  {
    if moves != [] {
      SentStep(c, s, moves[0], p);
      SentAlways(c, Step(c, s, moves[0]), moves[1..], p);
    }
  }

  /** In every run, a PE that has arrived at the barrier after a round has delivered
      the whole message: the partner has all its words, of a size of the schedule,
      but for the flag, which it zeroes. */
  lemma {:induction false} MessageArrives(c: Config, moves: seq<Move>, p: nat)
    requires ValidConfig(c) && p < 2
    ensures var s := Exec(c, Start(c), moves);
      && Shape(c, s) && OnSchedule(c, s, p)
      && (s.pes[p].pc == EndWait ==> forall i :: 0 <= i < s.pes[p].words - 1 ==> s.buf[1 - p][i] == 1000 + i % 256)
  {
    StartInv(c);
    StartOnSchedule(c, p);
    SizesInOrder(c, Start(c), moves, p);
    SentAlways(c, Start(c), moves, p);
  }

  /** No reachable state is stuck: while a PE is unfinished, some move changes the state. */
  lemma NeverStuck(c: Config, s: State) returns (m: Move)
    requires ValidConfig(c) && Inv(c, s) && (s.pes[0].pc != Finished || s.pes[1].pc != Finished)
    ensures Step(c, s, m) != s
  {
    if i :| 0 <= i < c.maxWords && s.pend[0][i] > 0 {
      m := Deliver(0, i);
      assert Step(c, s, m).pend[0][i] != s.pend[0][i];
    } else if i :| 0 <= i < c.maxWords && s.pend[1][i] > 0 {
      m := Deliver(1, i);
      assert Step(c, s, m).pend[1][i] != s.pend[1][i];
    } else {
      assert Quiet(s, 0) && Quiet(s, 1);
      if Step(c, s, Run(0)).pes[0] != s.pes[0] {
        m := Run(0);
      } else {
        m := Run(1);
        OneCanRun(c, s);
      }
    }
  }

  /** With nothing in flight, at most one side is blocked. */
  lemma OneCanRun(c: Config, s: State)
    requires ValidConfig(c) && Inv(c, s) && Quiet(s, 0) && Quiet(s, 1)
    requires s.pes[0].pc != Finished || s.pes[1].pc != Finished
    ensures RunPe(c, s, 0).pes[0] != s.pes[0] || RunPe(c, s, 1).pes[1] != s.pes[1]
  {
    if SameRound(c, s) {
      var f := s.pes[0].words - 1;
      assert s.pend[0][f] == 0 && s.pend[1][f] == 0;
      assert s.pes[0].pc == Wait ==> Holds(1, s.pes[1].pc) || s.buf[0][f] != 0 || s.buf[1][f] != 0;
    } else if Between(c, s, 0) {
      NextIsLarger(c, s.pes[1].words);
    } else {
      assert Between(c, s, 1);
      NextIsLarger(c, s.pes[0].words);
    }
  }

  // ----- every run finishes -----

  function RoundsLeft(c: Config, words: nat): nat
    requires words >= 1
    decreases c.maxWords - words
  {
    var w := NextWords(c, words);
    if w > c.maxWords then 0 else 1 + RoundsLeft(c, w)
  }

  /** Steps left in the current round. */
  function InRoundLeft(c: Config, me: Pe): int {
    match me.pc
    case StartBarrier => 4 * c.reps + 6
    case StartWait => 4 * c.reps + 5
    case FirstWait => 4 * c.reps + 2
    case FirstReset => 4 * c.reps + 1
    case Test => 4 * me.r + 4
    case Put => 4 * me.r + 7
    case Wait => 4 * me.r + 6
    case Reset => 4 * me.r + 5
    case LastPut => 3
    case EndBarrier => 2
    case EndWait => 1
    case Finished => 0
  }

  function StepsLeft(c: Config, me: Pe): int {
    if me.pc == Finished || me.words < 1 then 0
    else InRoundLeft(c, me) + (4 * c.reps + 7) * RoundsLeft(c, me.words)
  }

  lemma StepsLeftNonNegative(c: Config, s: State, p: nat)
    requires Inv(c, s) && p < 2
    ensures StepsLeft(c, s.pes[p]) >= 0
  {
  }

  /** Within a round the steps left in it go down. */
  lemma InRoundGoesDown(c: Config, s: State, p: nat)
    requires Inv(c, s) && p < 2 && RunPe(c, s, p) != s && s.pes[p].pc != EndWait
    ensures var me, now := s.pes[p], RunPe(c, s, p).pes[p];
      now.words == me.words && now.pc != Finished && InRoundLeft(c, now) < InRoundLeft(c, me)
  {
  }

  lemma {:induction false} NextRound(c: Config, w: nat, v: nat)
    requires w >= 1 && v == NextWords(c, w) && v <= c.maxWords
    ensures (4 * c.reps + 7) * RoundsLeft(c, w) == (4 * c.reps + 7) + (4 * c.reps + 7) * RoundsLeft(c, v)
  {
    Distribute(4 * c.reps + 7, 1, RoundsLeft(c, v));
  }

  /** Every effective step of a PE uses up at least one of its steps. */
  lemma StepsGoDown(c: Config, s: State, p: nat)
    requires Inv(c, s) && p < 2 && RunPe(c, s, p) != s
    ensures StepsLeft(c, RunPe(c, s, p).pes[p]) < StepsLeft(c, s.pes[p])
  {
    var me, now := s.pes[p], RunPe(c, s, p).pes[p];
    if me.pc != EndWait {
      InRoundGoesDown(c, s, p);
    } else {
      MulMonotone(4 * c.reps + 7, 0, RoundsLeft(c, me.words));
      if now.words <= c.maxWords {
        NextRound(c, me.words, now.words);
      }
    }
  }

  lemma OtherUnchanged(c: Config, s: State, p: nat)
    requires p < 2 && Shape(c, s)
    ensures |RunPe(c, s, p).pes| == 2 && RunPe(c, s, p).pes[1 - p] == s.pes[1 - p]
  {
  }

  function Id(): nat -> nat {
    (n: nat) => n
  }

  function InFlight(s: State): nat
    requires |s.pend| == 2
  {
    Sum(Id(), s.pend[0]) + Sum(Id(), s.pend[1])
  }

  lemma {:induction false} SumBump(xs: seq<nat>, ys: seq<nat>)
    requires |xs| == |ys| && forall i :: 0 <= i < |xs| ==> ys[i] <= xs[i] + 1
    ensures Sum(Id(), ys) <= Sum(Id(), xs) + |xs|
  {
    if xs != [] {
      SumBump(xs[1..], ys[1..]);
    }
  }

  lemma FlightOfRun(c: Config, s: State, p: nat)
    requires Inv(c, s) && p < 2
    ensures |RunPe(c, s, p).pend| == 2 && InFlight(RunPe(c, s, p)) <= InFlight(s) + c.maxWords
  {
    var t := RunPe(c, s, p);
    if s.pes[p].pc in {Put, LastPut} {
      SumBump(s.pend[1 - p], t.pend[1 - p]);
      assert t.pend[p] == s.pend[p];
    } else {
      assert t.pend == s.pend;
    }
  }

  /** Upper bound on the effective moves still possible. */
  function Budget(c: Config, s: State): int
    requires |s.pes| == 2 && |s.pend| == 2
  {
    (c.maxWords + 1) * (StepsLeft(c, s.pes[0]) + StepsLeft(c, s.pes[1])) + InFlight(s)
  }

  lemma BudgetNonNegative(c: Config, s: State)
    requires Inv(c, s)
    ensures Budget(c, s) >= 0
  {
    StepsLeftNonNegative(c, s, 0);
    StepsLeftNonNegative(c, s, 1);
    MulMonotone(c.maxWords + 1, 0, StepsLeft(c, s.pes[0]) + StepsLeft(c, s.pes[1]));
  }

  lemma DeliverUsesBudget(c: Config, s: State, dst: nat, i: nat)
    requires Inv(c, s) && dst < 2 && i < c.maxWords && s.pend[dst][i] > 0
    ensures InFlight(DeliverWord(s, dst, i)) < InFlight(s)
  {
    SumUpdate(Id(), s.pend[dst], i, s.pend[dst][i] - 1);
  }

  lemma RunUsesBudget(c: Config, s: State, p: nat)
    requires Inv(c, s) && p < 2 && RunPe(c, s, p) != s
    ensures |RunPe(c, s, p).pes| == 2 && |RunPe(c, s, p).pend| == 2
    ensures Budget(c, RunPe(c, s, p)) < Budget(c, s)
  {
    var t := RunPe(c, s, p);
    StepsGoDown(c, s, p);
    OtherUnchanged(c, s, p);
    FlightOfRun(c, s, p);
    var before := StepsLeft(c, s.pes[0]) + StepsLeft(c, s.pes[1]);
    var after := StepsLeft(c, t.pes[0]) + StepsLeft(c, t.pes[1]);
    assert after < before by {
      if p == 0 {
        assert t.pes[1] == s.pes[1];
      } else {
        assert t.pes[0] == s.pes[0];
      }
    }
    MulStep(c.maxWords + 1, after, before);
  }

  /** Every move either spins or uses up budget, so together with NeverStuck every
      run that keeps taking effective moves ends with both PEs finished. */
  lemma BudgetGoesDown(c: Config, s: State, m: Move)
    requires Inv(c, s) && Step(c, s, m) != s
    ensures Inv(c, Step(c, s, m)) && 0 <= Budget(c, Step(c, s, m)) < Budget(c, s)
  {
    StepInv(c, s, m);
    BudgetNonNegative(c, Step(c, s, m));
    match m
    case Deliver(dst, i) => DeliverUsesBudget(c, s, dst, i);
    case Run(p) => RunUsesBudget(c, s, p);
  }

  /** Moves of a run that changed the state. */
  function Effective(c: Config, s: State, moves: seq<Move>): nat
    decreases |moves|
  {
    if moves == [] || !Shape(c, s) then 0
    else (if Step(c, s, moves[0]) != s then 1 else 0) + Effective(c, Step(c, s, moves[0]), moves[1..])
  }

  lemma {:induction false} EffectiveBounded(c: Config, s: State, moves: seq<Move>)
    requires Inv(c, s)
    ensures Effective(c, s, moves) <= Budget(c, s)
    decreases |moves|
  {
    BudgetNonNegative(c, s);
    if moves != [] {
      StepInv(c, s, moves[0]);
      if Step(c, s, moves[0]) != s {
        BudgetGoesDown(c, s, moves[0]);
      }
      EffectiveBounded(c, Step(c, s, moves[0]), moves[1..]);
    }
  }

  /** Total correctness of the whole schedule of sizes: a run makes only boundedly
      many effective moves, and when no move is effective any more both PEs have
      finished every round. */
  lemma {:induction false} EveryRunFinishes(c: Config, moves: seq<Move>)
    requires ValidConfig(c)
    ensures Effective(c, Start(c), moves) <= Budget(c, Start(c))
    ensures var s := Exec(c, Start(c), moves);
      && Shape(c, s)
      && ((forall m :: Step(c, s, m) == s) ==> s.pes[0].pc == Finished && s.pes[1].pc == Finished)
  {
    StartInv(c);
    EffectiveBounded(c, Start(c), moves);
    ExecInv(c, Start(c), moves);
    var s := Exec(c, Start(c), moves);
    if s.pes[0].pc != Finished || s.pes[1].pc != Finished {
      var m := NeverStuck(c, s);
    }
  }
}
