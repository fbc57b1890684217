/**
 The GPU ping-pong kernel with one work-group per PE. PE 0 writes i + 1 to PE 1
 and waits for i + 1; PE 1 waits for i + 1 and writes it back. A remote write is
 in flight until some delivery move; a wait spins on local memory.
 */
module PingPong {

  datatype Write = Write(dst: nat, value: int)

  /** `sending` is whether the PE is at its write rather than at its wait. */
  datatype Pe = Pe(round: nat, sending: bool, mem: int)

  datatype State = State(pe0: Pe, pe1: Pe, flight: seq<Write>)

  datatype Move = Run0 | Run1 | Deliver(index: nat)

  /** Both buffers are zeroed before the kernels start. */
  const START := State(Pe(0, true, 0), Pe(0, false, 0), [])

  function Step(rounds: nat, s: State, m: Move): State {
    match m
    case Run0 =>
      if s.pe0.round >= rounds then s
      else if s.pe0.sending then
        s.(pe0 := s.pe0.(sending := false), flight := s.flight + [Write(1, s.pe0.round + 1)])
      else if s.pe0.mem == s.pe0.round + 1 then
        s.(pe0 := s.pe0.(sending := true, round := s.pe0.round + 1))
      else s
    case Run1 =>
      if s.pe1.round >= rounds then s
      else if s.pe1.sending then
        s.(pe1 := s.pe1.(sending := false, round := s.pe1.round + 1), flight := s.flight + [Write(0, s.pe1.round + 1)])
      else if s.pe1.mem == s.pe1.round + 1 then
        s.(pe1 := s.pe1.(sending := true))
      else s
    case Deliver(i) =>
      if i >= |s.flight| then s
      else
        var w := s.flight[i];
        var rest := s.flight[..i] + s.flight[i + 1..];
        if w.dst == 0 then s.(pe0 := s.pe0.(mem := w.value), flight := rest)
        else s.(pe1 := s.pe1.(mem := w.value), flight := rest)
  }

  function Exec(rounds: nat, s: State, moves: seq<Move>): State
    decreases |moves|
  {
    if moves == [] then s else Exec(rounds, Step(rounds, s, moves[0]), moves[1..])
  }

  /** Moves that changed the state, as opposed to spinning. */
  function Effective(rounds: nat, s: State, moves: seq<Move>): nat
    decreases |moves|
  {
    if moves == [] then 0
    else (if Step(rounds, s, moves[0]) != s then 1 else 0) + Effective(rounds, Step(rounds, s, moves[0]), moves[1..])
  }

  // ----- the one line of states -----

  datatype Phase = Ready | Ping | PingLanded | PongReady | Pong | PongLanded

  /** Round n, at the given phase: the only state the two PEs can be in then. */
  function At(n: nat, ph: Phase): State {
    match ph
    case Ready => State(Pe(n, true, n), Pe(n, false, n), [])
    case Ping => State(Pe(n, false, n), Pe(n, false, n), [Write(1, n + 1)])
    case PingLanded => State(Pe(n, false, n), Pe(n, false, n + 1), [])
    case PongReady => State(Pe(n, false, n), Pe(n, true, n + 1), [])
    case Pong => State(Pe(n, false, n), Pe(n + 1, false, n + 1), [Write(0, n + 1)])
    case PongLanded => State(Pe(n, false, n + 1), Pe(n + 1, false, n + 1), [])
  }

  function Index(n: nat, ph: Phase): nat {
    6 * n + match ph
      case Ready => 0 case Ping => 1 case PingLanded => 2
      case PongReady => 3 case Pong => 4 case PongLanded => 5
  }

  function After(n: nat, ph: Phase): (nat, Phase) {
    match ph
    case Ready => (n, Ping)
    case Ping => (n, PingLanded)
    case PingLanded => (n, PongReady)
    case PongReady => (n, Pong)
    case Pong => (n, PongLanded)
    case PongLanded => (n + 1, Ready)
  }

  /** The one move that is not a spin. */
  function Mover(ph: Phase): Move {
    match ph
    case Ready => Run0
    case Ping => Deliver(0)
    case PingLanded => Run1
    case PongReady => Run1
    case Pong => Deliver(0)
    case PongLanded => Run0
  }

  /** In every state of the line exactly one move does anything, and it leads to
      the next state; at the end none does. */
  lemma LineStep(rounds: nat, n: nat, ph: Phase, m: Move)
    requires n < rounds || (n == rounds && ph == Ready)
    ensures var s, t := At(n, ph), Step(rounds, At(n, ph), m);
      if n < rounds && m == Mover(ph) then t == At(After(n, ph).0, After(n, ph).1) && t != s else t == s
  {
    var s := At(n, ph);
    if m.Deliver? && m.index == 0 && |s.flight| == 1 {
      assert s.flight[..0] + s.flight[1..] == [];
    }
  }

  /** Lockstep: every interleaving walks the same line of states, one state per
      effective move, and never further than `rounds` rounds. */
  lemma {:induction false} Lockstep(rounds: nat, n: nat, ph: Phase, moves: seq<Move>) returns (k: nat, ph': Phase)
    requires n < rounds || (n == rounds && ph == Ready)
    ensures k < rounds || (k == rounds && ph' == Ready)
    ensures Exec(rounds, At(n, ph), moves) == At(k, ph')
    ensures Index(k, ph') == Index(n, ph) + Effective(rounds, At(n, ph), moves)
    decreases |moves|
  {
    if moves == [] {
      k, ph' := n, ph;
    } else {
      LineStep(rounds, n, ph, moves[0]);
      if n < rounds && moves[0] == Mover(ph) {
        var (n1, ph1) := After(n, ph);
        k, ph' := Lockstep(rounds, n1, ph1, moves[1..]);
      } else {
        k, ph' := Lockstep(rounds, n, ph, moves[1..]);
      }
    }
  }

  /** In every reachable state at most one write is in flight, the round counters
      differ by at most one, and a value that a PE awaits is not about to be
      overwritten: once it is in memory, nothing is in flight to that PE. */
  lemma {:induction false} SafeInEveryRun(rounds: nat, moves: seq<Move>)
    ensures var s := Exec(rounds, START, moves);
      && |s.flight| <= 1
      && s.pe0.round <= s.pe1.round <= s.pe0.round + 1 <= rounds + 1 && s.pe1.round <= rounds
      && (!s.pe0.sending && s.pe0.mem == s.pe0.round + 1 ==> s.flight == [])
      && (!s.pe1.sending && s.pe1.mem == s.pe1.round + 1 ==> s.flight == [])
  {
    assert START == At(0, Ready);
    var k, ph := Lockstep(rounds, 0, Ready, moves);
  }

  predicate Finished(rounds: nat, s: State) {
    s.pe0.round == rounds && s.pe1.round == rounds && s.flight == []
  }

  /** No run gets stuck or runs on: it has made at most 6 * rounds effective
      moves, it is finished exactly when it has made them all, and otherwise some
      move is effective. */
  lemma {:induction false} FinishesInEveryRun(rounds: nat, moves: seq<Move>)
    ensures Effective(rounds, START, moves) <= 6 * rounds
    ensures Finished(rounds, Exec(rounds, START, moves)) <==> Effective(rounds, START, moves) == 6 * rounds
    ensures !Finished(rounds, Exec(rounds, START, moves)) ==>
      exists m :: Step(rounds, Exec(rounds, START, moves), m) != Exec(rounds, START, moves)
  {
    assert START == At(0, Ready);
    var k, ph := Lockstep(rounds, 0, Ready, moves);
    LineStep(rounds, k, ph, Mover(ph));
  }
}
