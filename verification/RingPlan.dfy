/**
 How `to_all` cuts a buffer of `nreduce` elements into segments and chunks for
 the ring, and which elements the ring then reduces.
 */
module RingPlan {
  import opened Arith

  const MIN_WORK: nat := 1024
  const SYNC_SIZE: nat := 256

  datatype Plan = Plan(nSeg: nat, segSize: nat, chunk: nat)

  function Max(a: nat, b: nat): nat {
    if a > b then a else b
  }

  function ProvidedWork(nreduce: nat): nat {
    Max(nreduce / 2 + 1, MIN_WORK)
  }

  /** Neither the direct algorithm nor giving up. */
  predicate UsesRing(n: nat, nreduce: nat) {
    !(ProvidedWork(nreduce) >= n * nreduce && SYNC_SIZE >= n) && 2 * n <= SYNC_SIZE
  }

  function MakePlan(n: nat, nreduce: nat): Plan
    requires n >= 1
  {
    var fits := ProvidedWork(nreduce) >= 1024 * n;
    var work := if fits then 1024 * n else Max(nreduce / 2, MIN_WORK);
    var chunk := if fits then 1024 else work / n;
    if nreduce / work == 0 then Plan(1, nreduce, nreduce / n) else Plan(nreduce / work, work, chunk)
  }

  /** Element x is in chunk i of segment s. */
  predicate InChunk(n: nat, plan: Plan, s: nat, i: nat, x: nat) {
    && s < plan.nSeg && i < n
    && plan.segSize * s + plan.chunk * i <= x < plan.segSize * s + plan.chunk * i + plan.chunk
  }

  ghost predicate Covered(n: nat, plan: Plan, x: nat) {
    exists s: nat, i: nat :: InChunk(n, plan, s, i, x)
  }

  lemma PlanShape(n: nat, nreduce: nat)
    requires n >= 1 && nreduce >= 1
    ensures var plan := MakePlan(n, nreduce);
      && plan.segSize >= 1 && plan.chunk == plan.segSize / n
      && plan.segSize <= nreduce && plan.nSeg == nreduce / plan.segSize
  {
    DivideUnique(1024 * n, n, 1024, 0);
    DivideUnique(nreduce, nreduce, 1, 0);
    var plan := MakePlan(n, nreduce);
    var work := if ProvidedWork(nreduce) >= 1024 * n then 1024 * n else Max(nreduce / 2, MIN_WORK);
    if nreduce < work {
      DivideUnique(nreduce, work, 0, nreduce);
    } else {
      QuotientPositive(nreduce, work);
    }
  }

  lemma QuotientPositive(a: nat, b: nat)
    requires 1 <= b <= a
    ensures a / b >= 1
  {
    if a / b <= 0 {
      MulMonotone(b, a / b, 0);
    }
  }

  lemma Parts(a: nat, b: nat)
    requires b >= 1
    ensures b * (a / b) <= a < b * (a / b) + b
    ensures a % b == 0 <==> b * (a / b) == a
  {
  }

  /** Chunks fit in their segment, segments in the buffer, and a segment's chunks in
      the work array that a caller of the active-set entry must provide. */
  lemma PlanLimits(n: nat, nreduce: nat)
    requires n >= 1 && nreduce >= 1
    ensures var plan := MakePlan(n, nreduce);
      && plan.chunk * n <= plan.segSize && plan.segSize * plan.nSeg <= nreduce
      && plan.chunk * n <= ProvidedWork(nreduce)
  {
    PlanShape(n, nreduce);
    var plan := MakePlan(n, nreduce);
    Parts(plan.segSize, n);
    Parts(nreduce, plan.segSize);
  }

  lemma PlanFits(n: nat, nreduce: nat, s: nat, i: nat, x: nat)
    requires n >= 1 && nreduce >= 1 && InChunk(n, MakePlan(n, nreduce), s, i, x)
    ensures var plan := MakePlan(n, nreduce);
      x < plan.segSize * s + plan.chunk * n <= plan.segSize * s + plan.segSize <= plan.segSize * plan.nSeg <= nreduce
  {
    PlanLimits(n, nreduce);
    var plan := MakePlan(n, nreduce);
    MulMonotone(plan.chunk, i + 1, n);
    Distribute(plan.chunk, i, 1);
    MulMonotone(plan.segSize, s + 1, plan.nSeg);
    Distribute(plan.segSize, s, 1);
  }

  /** No element is in two chunks. */
  lemma OneChunk(n: nat, nreduce: nat, s: nat, i: nat, t: nat, j: nat, x: nat)
    requires n >= 1 && nreduce >= 1
    requires InChunk(n, MakePlan(n, nreduce), s, i, x) && InChunk(n, MakePlan(n, nreduce), t, j, x)
    ensures s == t && i == j
  {
    PlanFits(n, nreduce, s, i, x);
    PlanFits(n, nreduce, t, j, x);
    PlanShape(n, nreduce);
    var plan := MakePlan(n, nreduce);
    MulMonotone(plan.chunk, 0, i);
    MulMonotone(plan.chunk, 0, j);
    if s != t {
      MulStep(plan.segSize, if s < t then s else t, if s < t then t else s);
    } else if i != j {
      MulStep(plan.chunk, if i < j then i else j, if i < j then j else i);
    }
  }

  lemma QuotientBelow(a: nat, b: nat, q: nat)
    requires b >= 1 && a < b * q
    ensures a / b < q
  {
    Parts(a, b);
    MulOrder(b, a / b, q);
  }

  /** Segment and chunk of an element when both divisions come out even. */
  lemma Locate(n: nat, plan: Plan, x: nat) returns (s: nat, i: nat)
    requires plan.chunk >= 1 && plan.segSize == plan.chunk * n && x < plan.segSize * plan.nSeg
    requires plan.segSize >= 1
    ensures InChunk(n, plan, s, i, x)
  {
    s := x / plan.segSize;
    Parts(x, plan.segSize);
    QuotientBelow(x, plan.segSize, plan.nSeg);
    var y := x - plan.segSize * s;
    i := y / plan.chunk;
    Parts(y, plan.chunk);
    QuotientBelow(y, plan.chunk, n);
  }

  lemma AllInChunks(n: nat, nreduce: nat, x: nat)
    requires n >= 1 && x < nreduce
    requires nreduce % MakePlan(n, nreduce).segSize == 0 && MakePlan(n, nreduce).segSize % n == 0
    ensures Covered(n, MakePlan(n, nreduce), x)
  {
    PlanShape(n, nreduce);
    var plan := MakePlan(n, nreduce);
    Parts(nreduce, plan.segSize);
    Parts(plan.segSize, n);
    MulPositive(n, plan.chunk);
    var s, i := Locate(n, plan, x);
  }

  /** Elements after the last whole segment, or after a segment's last chunk. */
  lemma SomeMissed(n: nat, nreduce: nat) returns (x: nat)
    requires n >= 1 && nreduce >= 1
    requires nreduce % MakePlan(n, nreduce).segSize != 0 || MakePlan(n, nreduce).segSize % n != 0
    ensures x < nreduce && !Covered(n, MakePlan(n, nreduce), x)
  {
    PlanShape(n, nreduce);
    var plan := MakePlan(n, nreduce);
    Parts(nreduce, plan.segSize);
    Parts(plan.segSize, n);
    x := if nreduce % plan.segSize != 0 then plan.segSize * plan.nSeg else plan.chunk * n;
    forall s: nat, i: nat ensures !InChunk(n, plan, s, i, x) {
      if InChunk(n, plan, s, i, x) {
        NotInChunk(n, nreduce, s, i, x);
      }
    }
  }

  lemma NotInChunk(n: nat, nreduce: nat, s: nat, i: nat, x: nat)
    requires n >= 1 && nreduce >= 1 && InChunk(n, MakePlan(n, nreduce), s, i, x)
    ensures x < MakePlan(n, nreduce).segSize * MakePlan(n, nreduce).nSeg
    ensures x < MakePlan(n, nreduce).chunk * n || x >= MakePlan(n, nreduce).segSize
  {
    PlanFits(n, nreduce, s, i, x);
    var plan := MakePlan(n, nreduce);
    MulMonotone(plan.chunk, 0, i);
    if s >= 1 {
      MulMonotone(plan.segSize, 1, s);
    }
  }

  /** The count of elements, by itself: from 2048 per PE on a multiple of 1024 per PE,
      below that from 2048 on a multiple of twice the PEs, and else at most 1024 and
      a multiple of the PEs. */
  predicate EvenCount(n: nat, nreduce: nat)
    requires n >= 1
  {
    if nreduce + 2 >= 2048 * n then nreduce % (1024 * n) == 0
    else if nreduce >= 2048 then nreduce % (2 * n) == 0
    else nreduce <= 1024 && nreduce % n == 0
  }

  /** The plan is for whole segments of whole chunks. */
  predicate EvenPlan(n: nat, nreduce: nat)
    requires n >= 1 && nreduce >= 1
  {
    PlanShape(n, nreduce);
    nreduce % MakePlan(n, nreduce).segSize == 0 && MakePlan(n, nreduce).segSize % n == 0
  }

  /** The work array holds 1024 elements per PE. */
  lemma LargeCount(n: nat, nreduce: nat)
    requires n >= 1 && nreduce >= 1 && nreduce + 2 >= 2048 * n
    ensures EvenPlan(n, nreduce) <==> nreduce % (1024 * n) == 0
  {
    DivideUnique(1024 * n, n, 1024, 0);
    if nreduce < 1024 * n {
      DivideUnique(nreduce, 1024 * n, 0, nreduce);
    } else {
      QuotientPositive(nreduce, 1024 * n);
    }
  }

  lemma HalfCount(nreduce: nat, half: nat, n: nat)
    requires n >= 1 && half == nreduce / 2 && half >= 2
    ensures nreduce % half == 0 && half % n == 0 <==> nreduce % (2 * n) == 0
  {
    Parts(nreduce, 2);
    if nreduce == 2 * half {
      DivideUnique(nreduce, half, 2, 0);
      Parts(half, n);
      var q, r := half / n, half % n;
      assert half == n * q + r;
      Associate(2, n, q);
      DivideUnique(nreduce, 2 * n, q, 2 * r);
    } else {
      DivideUnique(nreduce, half, 2, 1);
      OddRemainder(nreduce, half, n);
    }
  }

  lemma OddRemainder(a: nat, half: nat, n: nat)
    requires n >= 1 && a == 2 * half + 1
    ensures a % (2 * n) != 0
  {
    var q := a / (2 * n);
    assert a == (2 * n) * q + a % (2 * n);
    Associate(2, n, q);
  }

  /** It does not, and the segment is half the buffer. */
  lemma MiddleCount(n: nat, nreduce: nat)
    requires n >= 1 && 2048 <= nreduce && nreduce + 2 < 2048 * n
    ensures EvenPlan(n, nreduce) <==> nreduce % (2 * n) == 0
  {
    QuotientPositive(nreduce, nreduce / 2);
    HalfCount(nreduce, nreduce / 2, n);
  }

  /** It does not, and the segment is 1024 elements or the buffer. */
  lemma SmallCount(n: nat, nreduce: nat)
    requires n >= 1 && 1 <= nreduce < 2048 && nreduce + 2 < 2048 * n
    ensures EvenPlan(n, nreduce) <==> nreduce <= 1024 && nreduce % n == 0
  {
    if nreduce < 1024 {
      DivideUnique(nreduce, 1024, 0, nreduce);
      DivideUnique(nreduce, nreduce, 1, 0);
    } else {
      DivideUnique(nreduce, 1024, 1, nreduce - 1024);
    }
  }

  lemma EvenPlanIff(n: nat, nreduce: nat)
    requires n >= 1 && nreduce >= 1
    ensures EvenPlan(n, nreduce) <==> EvenCount(n, nreduce)
  {
    if nreduce + 2 >= 2048 * n {
      LargeCount(n, nreduce);
    } else if nreduce >= 2048 {
      MiddleCount(n, nreduce);
    } else {
      SmallCount(n, nreduce);
    }
  }

  /** The ring is chosen exactly for at most 128 PEs with more than 1024 elements in
      all. */
  lemma UsesRingIff(n: nat, nreduce: nat)
    requires n >= 1
    ensures UsesRing(n, nreduce) <==> n <= 128 && n * nreduce > 1024
  {
    if n >= 2 {
      MulMonotone(nreduce, 2, n);
    }
  }

  /** The chunks cover the whole buffer exactly when it is a whole number of
      segments and a segment is a whole number of chunks, said of the count alone. */
  lemma CoverageIff(n: nat, nreduce: nat)
    requires n >= 1 && nreduce >= 1
    ensures (forall x: nat :: x < nreduce ==> Covered(n, MakePlan(n, nreduce), x)) <==> EvenCount(n, nreduce)
  {
    EvenPlanIff(n, nreduce);
    PlanShape(n, nreduce);
    var plan := MakePlan(n, nreduce);
    if nreduce % plan.segSize == 0 && plan.segSize % n == 0 {
      forall x: nat | x < nreduce ensures Covered(n, plan, x) {
        AllInChunks(n, nreduce, x);
      }
    } else {
      var x := SomeMissed(n, nreduce);
    }
  }

  /** Two PEs and 1025 elements: one element lies after the only segment. */
  lemma LastElementUncovered()
    ensures UsesRing(2, 1025) && MakePlan(2, 1025) == Plan(1, 1024, 512)
    ensures !Covered(2, MakePlan(2, 1025), 1024)
  {
    forall s: nat, i: nat ensures !InChunk(2, Plan(1, 1024, 512), s, i, 1024) {
    }
  }

  // ----- the work array of the team entry -----

  /** A team's work array: room for 1024 doubles, next to the following team's. */
  const TEAM_WORK_BYTES: nat := 8 * MIN_WORK

  /** Element y of chunk i ends inside the team's work array. */
  predicate InTeamWork(plan: Plan, bytes: nat, i: nat, y: nat) {
    bytes * (plan.chunk * i + y + 1) <= TEAM_WORK_BYTES
  }

  lemma ElementBeforeEnd(n: nat, plan: Plan, bytes: nat, i: nat, y: nat)
    requires i < n && y < plan.chunk
    ensures bytes * (plan.chunk * i + y + 1) <= bytes * (plan.chunk * n)
  {
    MulMonotone(plan.chunk, i + 1, n);
    Distribute(plan.chunk, i, 1);
    MulMonotone(bytes, plan.chunk * i + y + 1, plan.chunk * n);
  }

  /** The team entry hands the ring the team's own array, whatever the count. Its
      chunks stay inside exactly when this many bytes do. */
  lemma TeamWorkIff(n: nat, plan: Plan, bytes: nat)
    ensures (forall i: nat, y: nat :: i < n && y < plan.chunk ==> InTeamWork(plan, bytes, i, y))
            <==> bytes * (plan.chunk * n) <= TEAM_WORK_BYTES
  {
    if plan.chunk >= 1 && n >= 1 {
      Distribute(plan.chunk, n, 1);
      assert plan.chunk * (n - 1) + (plan.chunk - 1) + 1 == plan.chunk * n;
      assert InTeamWork(plan, bytes, n - 1, plan.chunk - 1) <==> bytes * (plan.chunk * n) <= TEAM_WORK_BYTES;
    }
    if bytes * (plan.chunk * n) <= TEAM_WORK_BYTES {
      forall i: nat, y: nat | i < n && y < plan.chunk ensures InTeamWork(plan, bytes, i, y) {
        ElementBeforeEnd(n, plan, bytes, i, y);
      }
    }
  }

  /** Two PEs and 4096 doubles: the ring's chunks need twice a team's array. */
  lemma TeamWorkOverrun()
    ensures UsesRing(2, 4096) && MakePlan(2, 4096) == Plan(2, 2048, 1024)
    ensures !InTeamWork(MakePlan(2, 4096), 8, 1, 0) && 8 * (MakePlan(2, 4096).chunk * 2) == 2 * TEAM_WORK_BYTES
  {
  }
}
