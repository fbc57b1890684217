/**
 The device-side barrier `sync`, called on any teams in any order. The root is the
 first PE of a team. Teams of fewer than 64 PEs use the direct algorithm: a member
 writes 1 to the root's word that has its member number, and the root waits for
 and zeroes those words in turn. Larger teams use the atomic algorithm: members
 add 1 to the root's word 0, and the root waits until it is the number of other
 members and zeroes it. In both the root then writes 1 to word 0 of every other
 member, which waits for it and zeroes it.

 One array of words per PE serves all teams and all barriers. Writes and additions
 are asynchronous. Seeing an awaited value and zeroing it is one step.
 */
module SyncBarrier {

  /** The barrier calls of the program, in one order for everybody; a call is the
      list of its members' PEs, root first. A PE makes the calls it is a member of. */
  datatype Config = Config(n: nat, calls: seq<seq<nat>>)

  const DIRECT_LIMIT: nat := 64

  predicate Atomic(r: seq<nat>) {
    |r| >= DIRECT_LIMIT
  }

  predicate RosterOk(n: nat, r: seq<nat>) {
    && 1 <= |r| <= n && (forall i :: 0 <= i < |r| ==> r[i] < n)
    && forall i, k :: 0 <= i < k < |r| ==> r[i] != r[k]
  }

  predicate CallsOk(c: Config) {
    forall g :: 0 <= g < |c.calls| ==> RosterOk(c.n, c.calls[g])
  }

  datatype Phase = Idle | Collect | Release | Waiting

  /** `at` is the next call, or the current one; `next` is the loop index. */
  datatype Local = Local(at: nat, phase: Phase, next: nat)

  /** `words[p][i]` is word i at PE p, `puts[p][i]` the writes of 1 under way to it,
      `adds[p]` the additions under way to word 0. */
  datatype State = State(pes: seq<Local>, words: seq<seq<nat>>, puts: seq<seq<nat>>, adds: seq<nat>)

  datatype Move = Enter(p: nat) | Run(p: nat) | DeliverPut(p: nat, i: nat) | DeliverAdd(p: nat)

  predicate Shape(c: Config, s: State) {
    && CallsOk(c) && |s.pes| == |s.words| == |s.puts| == |s.adds| == c.n
    && forall p :: 0 <= p < c.n ==> |s.words[p]| == c.n && |s.puts[p]| == c.n && LocalOk(c, p, s.pes[p])
  }

  /** A PE is in a call only in the role it has there. */
  predicate LocalOk(c: Config, p: nat, l: Local)
    requires CallsOk(c)
  {
    && l.at <= |c.calls|
    && (l.phase in {Collect, Release} ==> l.at < |c.calls| && c.calls[l.at][0] == p && 1 <= l.next <= |c.calls[l.at]|)
    && (l.phase == Collect && Atomic(c.calls[l.at]) ==> l.next == 1)
    && (l.phase == Waiting ==> l.at < |c.calls| && p in c.calls[l.at] && c.calls[l.at][0] != p)
  }

  /** The member number of p, or the number of members if it is none. */
  function SlotOf(r: seq<nat>, p: nat): (i: nat)
    ensures i <= |r| && (i < |r| ==> r[i] == p) && (i == |r| <==> p !in r)
  {
    if r == [] then 0 else if r[0] == p then 0 else 1 + SlotOf(r[1..], p)
  }

  function SetPe(s: State, p: nat, l: Local): State
    requires p < |s.pes|
  {
    s.(pes := s.pes[p := l])
  }

  function Store(rows: seq<seq<nat>>, p: nat, i: nat, v: nat): seq<seq<nat>>
    requires p < |rows| && i < |rows[p]|
  {
    var row: seq<nat> := rows[p][i := v];
    rows[p := row]
  }

  function SendPut(s: State, p: nat, i: nat): State
    requires p < |s.puts| && i < |s.puts[p]|
  {
    s.(puts := Store(s.puts, p, i, s.puts[p][i] + 1))
  }

  function SendAdd(s: State, p: nat): State
    requires p < |s.adds|
  {
    s.(adds := s.adds[p := s.adds[p] + 1])
  }

  function SetWord(s: State, p: nat, i: nat, v: nat): State
    requires p < |s.words| && i < |s.words[p]|
  {
    s.(words := Store(s.words, p, i, v))
  }

  /** A PE that is not a member goes on to its next call. */
  function EnterStep(c: Config, s: State, p: nat): (t: State)
    requires Shape(c, s) && p < c.n
    ensures Shape(c, t)
  {
    var l := s.pes[p];
    if l.phase != Idle || l.at == |c.calls| then s
    else
      var r := c.calls[l.at];
      var i := SlotOf(r, p);
      if i == |r| then SetPe(s, p, l.(at := l.at + 1))
      else if i == 0 then SetPe(s, p, l.(phase := Collect, next := 1))
      else if Atomic(r) then SendAdd(SetPe(s, p, l.(phase := Waiting)), r[0])
      else SendPut(SetPe(s, p, l.(phase := Waiting)), r[0], i)
  }

  function CollectStep(c: Config, s: State, p: nat): (t: State)
    requires Shape(c, s) && p < c.n && s.pes[p].phase == Collect
    ensures Shape(c, t)
  {
    var l := s.pes[p];
    var r := c.calls[l.at];
    if Atomic(r) then
      if s.words[p][0] == |r| - 1 then SetPe(SetWord(s, p, 0, 0), p, l.(phase := Release, next := 1)) else s
    else if l.next == |r| then SetPe(s, p, l.(phase := Release, next := 1))
    else if s.words[p][l.next] == 1 then SetPe(SetWord(s, p, l.next, 0), p, l.(next := l.next + 1))
    else s
  }

  function ReleaseStep(c: Config, s: State, p: nat): (t: State)
    requires Shape(c, s) && p < c.n && s.pes[p].phase == Release
    ensures Shape(c, t)
  {
    var l := s.pes[p];
    if l.next == |c.calls[l.at]| then SetPe(s, p, Local(l.at + 1, Idle, 0))
    else SetPe(SendPut(s, c.calls[l.at][l.next], 0), p, l.(next := l.next + 1))
  }

  function RunStep(c: Config, s: State, p: nat): (t: State)
    requires Shape(c, s) && p < c.n
    ensures Shape(c, t)
  {
    match s.pes[p].phase
    case Idle => s
    case Collect => CollectStep(c, s, p)
    case Release => ReleaseStep(c, s, p)
    case Waiting =>
      if s.words[p][0] == 1 then SetPe(SetWord(s, p, 0, 0), p, Local(s.pes[p].at + 1, Idle, 0)) else s
  }

  function PutStep(c: Config, s: State, p: nat, i: nat): (t: State)
    requires Shape(c, s) && p < c.n && i < c.n
    ensures Shape(c, t)
  {
    if s.puts[p][i] == 0 then s
    else SetWord(s.(puts := Store(s.puts, p, i, s.puts[p][i] - 1)), p, i, 1)
  }

  function AddStep(c: Config, s: State, p: nat): (t: State)
    requires Shape(c, s) && p < c.n
    ensures Shape(c, t)
  {
    if s.adds[p] == 0 then s
    else SetWord(s.(adds := s.adds[p := s.adds[p] - 1]), p, 0, s.words[p][0] + 1)
  }

  function Step(c: Config, s: State, m: Move): (t: State)
    requires Shape(c, s)
    ensures Shape(c, t)
  {
    if m.p >= c.n then s
    else match m
      case Enter(p) => EnterStep(c, s, p)
      case Run(p) => RunStep(c, s, p)
      case DeliverPut(p, i) => if i < c.n then PutStep(c, s, p, i) else s
      case DeliverAdd(p) => AddStep(c, s, p)
  }

  function Exec(c: Config, s: State, moves: seq<Move>): (t: State)
    requires Shape(c, s)
    ensures Shape(c, t)
    decreases |moves|
  {
    if moves == [] then s else Exec(c, Step(c, s, moves[0]), moves[1..])
  }

  function Start(c: Config): (s: State)
    requires CallsOk(c)
    ensures Shape(c, s)
  {
    var zeros := seq(c.n, _ => seq(c.n, _ => 0));
    State(seq(c.n, _ => Local(0, Idle, 0)), zeros, zeros, seq(c.n, _ => 0))
  }

  // ----- what the barrier is for -----

  predicate Entered(l: Local, g: nat) {
    l.at > g || (l.at == g && l.phase != Idle)
  }

  predicate HasLeft(l: Local, g: nat) {
    l.at > g
  }

  /** No member has left a call that another member has not entered. */
  predicate Safe(c: Config, s: State)
    requires Shape(c, s)
  {
    forall g, i, k :: 0 <= g < |c.calls| && 0 <= i < |c.calls[g]| && 0 <= k < |c.calls[g]| ==>
      HasLeft(s.pes[c.calls[g][i]], g) ==> Entered(s.pes[c.calls[g][k]], g)
  }

  ghost predicate AllLeft(c: Config, s: State)
    requires Shape(c, s)
  {
    forall p :: 0 <= p < c.n ==> s.pes[p].at == |c.calls|
  }

  /** Nothing is left to do. */
  ghost predicate Stuck(c: Config, s: State)
    requires Shape(c, s)
  {
    forall m :: Step(c, s, m) == s
  }

  // ----- when two calls get along -----

  /** Direct calls with one root use a common word for the same member, atomic ones
      have the same members, and the root of an atomic call, whose word 0 is a
      counter, is no other call's member that awaits a release there. */
  predicate Agree(a: seq<nat>, b: seq<nat>)
    requires a != [] && b != []
  {
    && (!Atomic(a) && !Atomic(b) && a[0] == b[0] ==> forall i :: 0 <= i < |a| && i < |b| ==> a[i] == b[i])
    && (Atomic(a) && Atomic(b) && a[0] == b[0] ==> a == b)
    && (Atomic(a) ==> a[0] !in b[1..])
  }

  predicate AllAgree(c: Config)
    requires CallsOk(c)
  {
    forall g, h :: 0 <= g < |c.calls| && 0 <= h < |c.calls| ==> Agree(c.calls[g], c.calls[h])
  }
}
