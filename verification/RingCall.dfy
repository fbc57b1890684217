/**
 The reduction call that chooses the ring: for which counts of elements every PE
 gets the reduction of the whole buffer.
 */
module RingCall {
  import opened Arith
  import opened RingReduce
  import opened RingTheorems
  import opened RingPlan
  import opened RingBuffer

  /** A call on `n` PEs with `nreduce` elements and the work array a caller owes. */
  ghost predicate CallOf<E>(j: Job<E>, n: nat, nreduce: nat)
    requires n >= 1
  {
    && j.n == n && j.size == nreduce && j.plan == MakePlan(n, nreduce) && j.work == ProvidedWork(nreduce)
    && |j.src| == n && forall p :: 0 <= p < n ==> |j.src[p]| == nreduce
  }

  lemma CallIsJob<E>(j: Job<E>, n: nat, nreduce: nat)
    requires n >= 1 && nreduce >= 1 && CallOf(j, n, nreduce)
    ensures JobOk(j)
  {
    PlanLimits(n, nreduce);
  }

  /** If PE p returns at the end of this run, element x is the reduction. */
  ghost predicate RightAt(j: Job<int>, init: Machine<int>, moves: seq<Move>, p: nat, x: nat) {
    MachineInitial(j, init) && Associative(j.op) && Commutative(j.op) && p < j.n && x < j.size
    && MachineRun(j, init, moves).pes[p].phase == Finished ==>
      MachineRun(j, init, moves).pes[p].buf[x] == ReducedElement(j, x)
  }

  /** All results of all runs, for all contributions and all operations. */
  ghost predicate AlwaysReduces(n: nat, nreduce: nat)
    requires n >= 1
  {
    forall j: Job<int>, init: Machine<int>, moves: seq<Move>, p: nat, x: nat ::
      CallOf(j, n, nreduce) ==> RightAt(j, init, moves, p, x)
  }

  function Ones(n: nat): seq<int> {
    seq(n, _ => 1)
  }

  /** Everybody contributes ones to a sum. */
  function SumOfOnes(n: nat, nreduce: nat): Job<int>
    requires n >= 1
  {
    Job(n, nreduce, MakePlan(n, nreduce), ProvidedWork(nreduce), (a, b) => a + b, seq(n, _ => Ones(nreduce)))
  }

  function Fresh<E>(j: Job<E>, e: E): Machine<E> {
    var flags := seq(if j.n >= 2 then Rounds(j.n) else 0, _ => SYNC_VALUE);
    var pe := Local(Outside, 0, seq(j.size, _ => e), seq(j.work, _ => e), flags);
    Machine(seq(j.n, _ => pe), seq(j.n, _ => Link(0, 0, map[])))
  }

  lemma FreshIsInitial<E>(j: Job<E>, e: E)
    requires JobOk(j)
    ensures MachineInitial(j, Fresh(j, e))
  {
  }

  lemma {:induction false} FoldOnes(op: (int, int) -> int, n: nat)
    requires n >= 1 && forall a, b :: op(a, b) == a + b
    ensures Fold(op, Ones(n)) == n
  {
    if n > 1 {
      assert Ones(n)[..n - 1] == Ones(n - 1);
      FoldOnes(op, n - 1);
    }
  }

  /** An element in no chunk comes out as one instead of n. */
  lemma UncoveredIsWrong(n: nat, nreduce: nat, x: nat)
    requires n >= 2 && x < nreduce && !Covered(n, MakePlan(n, nreduce), x)
    ensures !AlwaysReduces(n, nreduce)
  {
    var j := SumOfOnes(n, nreduce);
    CallIsJob(j, n, nreduce);
    var init := Fresh(j, 0);
    FreshIsInitial(j, 0);
    var moves := AllCanReturn(j, init);
    ElementResult(j, init, moves, 0, x);
    assert Column(j.src, x) == Ones(n);
    FoldOnes(j.op, n);
    assert !RightAt(j, init, moves, 0, x);
  }

  /** Every result of the ring, run with the plan for these counts, is the reduction,
      for all contributions, operations and interleavings, exactly when there is one
      PE or the count is even in this sense. Calls that do not choose the ring are not
      meant. */
  lemma WholeBufferIff(n: nat, nreduce: nat)
    requires n >= 1 && nreduce >= 1
    ensures AlwaysReduces(n, nreduce) <==> n == 1 || EvenCount(n, nreduce)
  {
    CoverageIff(n, nreduce);
    var plan := MakePlan(n, nreduce);
    if n == 1 || forall x: nat :: x < nreduce ==> Covered(n, plan, x) {
      forall j: Job<int>, init: Machine<int>, moves: seq<Move>, p: nat, x: nat | CallOf(j, n, nreduce)
        ensures RightAt(j, init, moves, p, x)
      {
        if MachineInitial(j, init) && Associative(j.op) && Commutative(j.op) && p < j.n && x < j.size
           && MachineRun(j, init, moves).pes[p].phase == Finished {
          ElementResult(j, init, moves, p, x);
        }
      }
    } else {
      var x: nat :| x < nreduce && !Covered(n, plan, x);
      UncoveredIsWrong(n, nreduce, x);
    }
  }

  /** Two PEs and 1025 elements: whoever returns has its own last element there. */
  lemma {:induction false} LastElementKept<E(!new)>(j: Job<E>, init: Machine<E>, moves: seq<Move>, p: nat)
    requires CallOf(j, 2, 1025) && MachineInitial(j, init) && Associative(j.op) && Commutative(j.op) && p < 2
    requires MachineRun(j, init, moves).pes[p].phase == Finished
    ensures UsesRing(2, 1025) && MachineRun(j, init, moves).pes[p].buf[1024] == j.src[p][1024]
  {
    LastElementUncovered();
    ElementResult(j, init, moves, p, 1024);
  }

  /** The team entry: the chunks of elements of `bytes` bytes fit into the team's own
      work array, as the buffer model asks, exactly when their bytes do. */
  lemma TeamCallIff<E>(j: Job<E>, n: nat, nreduce: nat, bytes: nat)
    requires n >= 1 && nreduce >= 1 && bytes >= 1
    requires CallOf(j.(work := ProvidedWork(nreduce)), n, nreduce) && j.work == TEAM_WORK_BYTES / bytes
    ensures JobOk(j) <==> bytes * (j.plan.chunk * n) <= TEAM_WORK_BYTES
  {
    PlanLimits(n, nreduce);
    Parts(TEAM_WORK_BYTES, bytes);
    var need, have := j.plan.chunk * n, TEAM_WORK_BYTES / bytes;
    if need <= have {
      MulMonotone(bytes, need, have);
    } else {
      MulMonotone(bytes, have + 1, need);
      Distribute(bytes, have, 1);
    }
  }
}
