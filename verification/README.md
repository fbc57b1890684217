# ROC_SHMEM: a verified model of its concurrent core

ROC_SHMEM is an OpenSHMEM library for GPUs. This project models the parts of it
whose correctness depends on more than one function or more than one processing
element (PE), and proves properties of every input, every interleaving and every
reachable state. Run `dafny verify dfyconfig.toml` to check it.

Protocols are transition systems. A `Step` function gives the effect of one move
(one CAS, load, store, delivery, arrival, ...) and `Exec` runs an arbitrary
sequence of moves, so a lemma about all move sequences is a lemma about every
interleaving. Objects that the library updates in place are classes, loops are
methods with loops, and arithmetic is functions.

| file | what it models |
|---|---|
| `GroupLock.dfy` | the work-group re-entrant lock around every dispatched device call |
| `LockedCounter.dfy` | the lock's unit-test client, a non-atomic counter |
| `Lanes.dfy` | ballot arithmetic that counts and ranks active lanes |
| `SymmetricHeap.dfy` | collective malloc/free on N PEs with asynchronous puts, for any deterministic allocator |
| `Pow2Bins.dfy` | the power-of-two allocator itself |
| `SymmetricObjects.dfy` | the two together |
| `SyncBarrier.dfy`, `BarrierInvariant.dfy`, `BarrierProgress.dfy`, `BarrierCollision.dfy`, `TeamBarriers.dfy` | the device-side barriers, direct and atomic, called on any teams over one array of words |
| `RingReduce.dfy`, `RingInvariant.dfy`, `RingTheorems.dfy` | the segmented ring reduction over non-blocking puts, chunk by chunk |
| `RingReturn.dfy`, `RingAgain.dfy` | what a PE may rely on when it returns from the ring, and two ring calls in a row |
| `RingPlan.dfy`, `RingBuffer.dfy`, `RingCall.dfy` | how a call is cut into segments and chunks, the same protocol on flat buffers, and the result element by element |
| `Teams.dfy`, `Communicator.dfy` | strided teams, translation, splits, the MPI communicator of a split |
| `WorkPool.dfy` | the pool of per-team work arrays of the GPU-IB backend |
| `Lifecycle.dfy` | tracking and destruction of teams and contexts on one PE |
| `TeamCreation.dfy`, `ReuseProgram.dfy` | a split on all PEs with their pools; the shrinking-teams program |
| `Sping.dfy`, `PingPong.dfy` | two token protocols over put and wait_until |
| `RandomAccess.dfy`, `RandomAccessTester.dfy` | the random-access test: layout, kernel, oracle |
| `Sums.dfy`, `Arith.dfy` | sums over sequences, integer arithmetic |

## What turned out not to hold as promised

Each of these is stated as an if-and-only-if, with the failing inputs exhibited.

- `increment_counter`: the fixture asserts counter == threads for work-groups of
  any size. A complete run meets it exactly when work-groups have one thread (or
  the grid is empty), because the lock admits all waves of the owning work-group
  (`FixtureAssertIff`, `ProtectsCounterIff`).
- `roc_shmem_team_split_strided` accepts a split whose last member is PE
  `num_pes`, one past the end, and does not check that the triplet lies in the
  parent (`SplitMembersExistIff`, `SplitContainedIff`). The MPI communicator of a
  team made by a chain of splits then has fewer ranks than the team has PEs; it is
  complete exactly when the team's last member is not past the last member of any
  ancestor, the world included (`SizeAgreesIff`, with `MissingPe` and `LostPe`).
- A split on the GPU-IB backend can report success without a team to a PE that is
  below the team limit and belongs to the new team: exactly when every work array is
  held by some PE of the new communicator (`TeamCreation.SilentFailureIff`). A
  reachable state in which that happens to PEs 0 and 1, with one team each and room
  for two, is `FragmentedSplit`.
- The device barriers use one array of words for all teams. Teams of fewer than 64
  PEs pick a word by member number, larger ones count in word 0 of their first PE,
  which is also where a PE awaits its release. Barriers on a set of teams (with
  existing members and power-of-two strides) are right in every program, that is
  nobody leaves early and every program ends, exactly when no two of them collide:
  two teams of 2 to 63 PEs with one first PE and different strides; two different
  larger teams with one first PE; or a larger team whose first PE is a later member
  of another team (`AlwaysRightIff`). The barrier over 3 to 63 PEs and one over PEs 0 and 2
  collide, over 64 and more they do not, but then over all of 100 PEs and over the
  first 64 do (`FirstAndEvenUnsafe`, `WorldAndEvenRight`, `WorldAndFirst64`).
- The random-access oracle is right for all draws exactly when the message size
  is a multiple of `sizeof(int)` (`OracleIff`).
- `init_bins` divides the buffer by `num_bins + num_waves`; for several waves all
  draws stay inside the buffer exactly when `num_bins * num_waves` such shares do
  (`InBufferIff`). The tester's assertions restrict it to one wave, where they do;
  this is about `init_bins` alone.
- The ring, run with the plan for a count of elements, gives every PE the reduction
  of the whole buffer exactly when there is one PE, or the element count is a multiple
  of 1024 per PE (from 2048 per PE on), of twice the PEs (below that, from 2048 on), or
  at most 1024 and a multiple of the PEs (`WholeBufferIff`); other
  elements keep the PE's own value (`ElementResult`), as does the last one of 1025 on
  two PEs (`LastElementKept`).
- The team entry of the reduction hands the ring the team's own work array of 1024
  doubles, whatever the count. The chunks stay inside it exactly when
  `chunk * n * sizeof(T)` is at most 8192; with two PEs and 4096 doubles they run
  into the next team's array (`TeamWorkIff`, `TeamCallIff`, `TeamWorkOverrun`).
- Two ring reductions in a row on the same flags, as `to_all(team)` makes them with
  the team's own `reduce_pSync`, are not kept apart. All PEs return from both exactly
  when no flag of the second reached a PE that had yet to reset after the first
  (`TwoCallsIff`); after such a flag some PE never returns (`EarlyNeverReturns`).
  Any two calls with something to reduce have such a run (`UnseparatedCanHang`);
  with a barrier between them they have none (`SeparatedCallsReturn`).
- The ring runs over all PEs, also for a team that is a proper subset: while one PE
  does not call, nobody returns (`NobodyReturnsWithout`), and when all call, all do
  (`RingTheorems.EveryRunFinishes`).
- A PE can return from the ring while its own last put has yet to read its source
  (`ReturnsUnread`). Overwriting a chunk of the result is then harmless to the others
  exactly when no such put reads that chunk (`OverwriteIff`).
- `shmem_team_reuse_teams` reports no error exactly when the team limit is at
  least 3, or is 2 and there is a single PE (`ReuseTeams`).

## Assumptions

- Steps are sequentially consistent; fences, caches and back-off delays are
  stutter steps. A wave has the same active lanes in `lock` and in the matching
  `unlock`, and its lanes run in lockstep.
- Work-group ids are non-negative, integers do not overflow, and all PEs use the
  same heap size and the same misalignment of the heap base.
- `MPI_Comm_split` and `MPI_Barrier` behave as section 6.4.2 and section 5.3 of
  MPI 3.1 say. The host barrier completes the caller's own remote writes first.
- A non-blocking put reads its source at any time until delivery, puts in any
  order; a fence delivers earlier puts before later ones, as section 9.10 of OpenSHMEM
  1.4 says. A first reduction starts with clear `pSync` on every PE. Other teams do not
  write to the ring's work array, which on the team entry is the condition of
  `TeamCallIff`; two calls of one team do, and may cut it differently. Their results
  are different buffers.
- All PEs make the barrier calls they share in the same order.
- Random numbers, scheduling, delivery order and fresh handles are arguments.

## Model

| member | source | states |
|---|---|---|
| GroupLock.StepInv | library/src/device_mutex.cpp:253-351 | every single CAS, load, store and release of any wave keeps the inductive invariant: one holder of the short lock, count equal to the counted lanes, all counted waves in the owner's group |
| GroupLock.ExclusionIff | library/src/device_mutex.cpp:253-351 | in every run locked calls of different work-groups never overlap, exactly when the lock is shareable or there is one work-group |
| GroupLock.PrivateFieldsConstant | library/src/device_mutex.cpp:255-257 | a non-shareable lock never blocks and never changes its fields in any run |
| GroupLock.PrivateCall | library/src/device_mutex.cpp:255-257 | a non-shareable lock lets a wave in and out in one step each, whoever is inside |
| GroupLock.Accounting | library/src/device_mutex.cpp:268-349 | in every reachable state every wave carries the active lanes of its latest call, read off the moves; with the short lock free the thread count is their sum over the waves inside, all of them in the owner's group, and the owner is -1 iff nobody is inside |
| GroupLock.CallCountsItsLanes | library/src/device_mutex.cpp:253-351 | from every such state with no other group inside, for every k in 1..64, a wave that calls lock with k active lanes gets in on its own and the count grows by k; its unlock takes exactly k off and restores all fields |
| GroupLock.CountInRange | library/src/device_mutex.cpp:316-348 | when no work-group has more than 1024 threads in waves of 64, the thread count stays within 0..1024 at every step of every run |
| GroupLock.StepRefines | library/src/device_mutex.cpp:253-351 | each concrete step is one allowed step of the abstract group lock, or none |
| GroupLock.RunRefines | library/src/device_mutex.cpp:253-351 | every run from an invariant state is a legal behaviour of the abstract group lock |
| GroupLock.RunsFromStartRefine | library/src/backend_type.hpp:77-89 | every run refines the abstract lock from its empty state, and a wave in a dispatched call is a member of it |
| GroupLock.OwnerGroupEnters | library/src/device_mutex.cpp:285-320 | a wave whose group owns the context enters in five own steps after it gets the short lock and never passes the waiting branch |
| GroupLock.HolderStep | library/src/device_mutex.cpp:285-349 | each own step of the holder of the short lock brings its release one step nearer and moves nobody else |
| GroupLock.FinishOne | library/src/device_mutex.cpp:275-349 | while a call is in progress and the short lock is free, some call can be completed with nobody else moving |
| GroupLock.ReleaseAlone | library/src/device_mutex.cpp:295-349 | whoever holds the short lock releases it within seven own steps, where it then is, and what it has added to the count or taken off |
| GroupLock.Drain | library/src/device_mutex.cpp:275-349 | from every invariant state all waves can finish their calls and leave the lock in its initial state |
| GroupLock.NoDeadEnd | library/src/device_mutex.cpp:275-349 | deadlock freedom: every finite run can be extended to one with the lock idle |
| LockedCounter.TickInv | clients/unit_tests/device_mutex_gtest.hpp:34-41 | lock, load and store steps keep the counter at most the number of finished increments, and equal to it when no two waves share a group |
| LockedCounter.CounterBounds | clients/unit_tests/device_mutex_gtest.hpp:50-57 | a complete run never counts more than one per wave, and counts every wave when each work-group sends one |
| LockedCounter.CompleteIsFinal | clients/unit_tests/device_mutex_gtest.hpp:43-48 | each wave makes one call, so a complete job never changes again |
| LockedCounter.RacingCalls | clients/unit_tests/device_mutex_gtest.hpp:34-41 | two waves of one group can both enter, load the same value and leave having counted one |
| LockedCounter.SomeRunLosesAnUpdate | clients/unit_tests/device_mutex_gtest.hpp:43-48 | whenever two waves share a work-group there is a complete run that ends one short |
| LockedCounter.ProtectsCounterIff | clients/unit_tests/device_mutex_gtest.hpp:34-57 | no run loses an update iff no two waves share a work-group |
| LockedCounter.FixtureAssertIff | clients/unit_tests/device_mutex_gtest.hpp:94-117 | a complete run meets the fixture's assertion counter == threads iff blocks have one thread or the grid is empty |
| Lanes.RankCountsLowerLanes | library/src/device_mutex.cpp:87-196 | shifting, inverting and masking leaves exactly the active lanes below the caller |
| Lanes.LowestIsLeast | library/src/device_mutex.cpp:56-85 | the lowest active lane is active and no active lane is below it |
| Lanes.RankIncreasing | library/src/device_mutex.cpp:87-196 | logical lane ids are below the active count and ordered as the lanes are |
| Lanes.RankOnto | library/src/device_mutex.cpp:87-196 | every rank below the active count is some active lane's |
| Lanes.RankBijection | library/src/device_mutex.cpp:28-196 | for every ballot of any width, logical ids are an order-preserving bijection onto 0..count-1 and id 0 is the lowest active lane |
| SymmetricHeap.StepInv | library/src/roc_shmem.cpp:147-170 | every move of N PEs keeps barrier order, put ownership and the local heaps |
| SymmetricHeap.AdvanceBarrier | library/src/host/host.cpp:359-370 | every PE's next part keeps all departures from a barrier after all arrivals at it |
| SymmetricHeap.AdvancePuts | library/src/roc_shmem.cpp:161-170 | a PE with a put in flight cannot reach the release of the object it writes |
| SymmetricHeap.PtrStable | library/src/roc_shmem.cpp:147-159 | an address, once assigned, stays |
| SymmetricHeap.SymmetricAddresses | library/src/roc_shmem.cpp:147-159 | in every interleaving every PE gets from malloc k the offset a lone PE would get |
| SymmetricHeap.PutsLandOnLiveObjects | library/src/roc_shmem.cpp:147-170 | a put in flight at any moment of any run is to an object its target has allocated and not released, at the sender's address |
| SymmetricHeap.OwnsIff | library/src/roc_shmem.cpp:147-170 | an object may be used from leaving the barrier of its malloc until arriving at that of its free |
| SymmetricHeap.PutsComeAndGo | library/src/host/host.cpp:359-370 | exactly the puts to objects in use go into flight, and a delivery takes exactly one out |
| SymmetricHeap.PutFlies | library/src/roc_shmem.cpp:147-170 | at every point of the list at which an object may be used there is a run with any put to it in flight |
| SymmetricHeap.SkewAtMostTwo | library/src/roc_shmem.cpp:147-170 | no PE is more than two heap steps ahead, and two only across a free directly followed by a malloc |
| SymmetricHeap.SkewReached | library/src/roc_shmem.cpp:147-170 | every list with a free directly followed by a malloc has a run with a skew of two |
| SymmetricHeap.NeverStuck | library/src/host/host.cpp:359-370 | while a PE is unfinished, a put can be delivered or the slowest PE can move |
| SymmetricHeap.CanFinish | library/src/roc_shmem.cpp:147-170 | from every state the collective list can be completed with all puts delivered |
| Pow2Bins.SplitLargerFinds | library/src/memory/pow2_bins.hpp:253-277 | the recursive split leaves a bin empty iff all larger bins are empty, and then changes nothing |
| Pow2Bins.SplitLargerCover | library/src/memory/pow2_bins.hpp:253-277 | splitting keeps every byte in exactly as many records and every record in the bin of its size |
| Pow2Bins.RetrieveKeeps | library/src/memory/pow2_bins.hpp:203-237 | retrieving from a bin conserves bytes and fails, without a change, iff that bin and all larger ones are empty |
| Pow2Bins.AllocCorrect | library/src/memory/pow2_bins.hpp:92-128 | allocation succeeds iff a large enough bin has a record; it returns a fresh block of the smallest fitting size; no byte is gained, lost or duplicated |
| Pow2Bins.FreeCorrect | library/src/memory/pow2_bins.hpp:141-145 | releasing a live block fails no assertion, removes just that block and conserves every byte |
| Pow2Bins.BuildCorrect | library/src/memory/binner.hpp:115-248 | the greedy cut covers every byte from the first aligned one exactly once, wasting less than one alignment unit at the end |
| Pow2Bins.LargestBin | library/src/memory/binner.hpp:120-143 | the largest bin is of the largest power of two in the heap's size |
| Pow2Bins.FreshAllocIff | library/src/memory/binner.hpp:207-248 | a fresh heap serves a request iff some 128 * 2^k is at least the request and at most the usable size |
| Pow2Bins.SkipsToAlignment | library/src/memory/binner.hpp:185-199 | the bytes skipped at the start are the fewest that align the first record to 128 |
| Pow2Bins.Strategy.constructor | library/src/memory/pow2_bins.hpp:79-84 | the chunking loop builds that heap |
| Pow2Bins.Strategy.SplitLargerBin | library/src/memory/pow2_bins.hpp:253-277 | the in-place recursion computes the specified split |
| Pow2Bins.Strategy.RetrieveFrom | library/src/memory/pow2_bins.hpp:203-237 | in-place retrieval from one bin |
| Pow2Bins.Strategy.Allocate | library/src/memory/pow2_bins.hpp:92-128 | in-place allocation: exact size first, then rounded up; block fresh and large enough; bytes conserved |
| Pow2Bins.Strategy.Release | library/src/memory/single_heap.cpp:45-51 | in-place release, nothing for the null pointer; bytes conserved |
| SymmetricObjects.PoolAlways | library/src/roc_shmem.cpp:147-170 | after any prefix of a legal list, live objects keep distinct, large enough blocks, every block handed out belongs to a live object, and the heap's bytes are conserved |
| SymmetricObjects.OnlyLiveBlocks | library/src/roc_shmem.cpp:161-170 | the blocks handed out are exactly those of the objects allocated and not released |
| SymmetricObjects.AllFreeAgain | library/src/roc_shmem.cpp:161-170 | after a list that releases everything nothing is handed out and every usable byte is in exactly one free record |
| SymmetricObjects.FreesNeverFail | library/src/roc_shmem.cpp:161-170 | no release in a legal list fails an allocator assertion |
| SymmetricObjects.PoolMalloc | library/src/roc_shmem.cpp:147-159 | an allocation keeps every live object's block and gives the new object one of its own |
| SymmetricObjects.PoolFree | library/src/roc_shmem.cpp:161-170 | a legal release fails no allocator assertion and keeps every other object's block |
| SymmetricObjects.PutHitsOnlyItsObject | library/src/roc_shmem.cpp:147-170 | at its target, a byte of a put in flight belongs to the intended object, which is allocated there, and to no other live object, although addresses are reused |
| BarrierInvariant.RightSender | library/src/gpu_ib/gpu_ib_gpu_coll.cpp:40-43 | the word that the root of a direct barrier sees is from the member it waits for, at this very barrier |
| BarrierInvariant.AllHaveCome | library/src/gpu_ib/gpu_ib_gpu_coll.cpp:68-70 | when the counter of an atomic barrier is complete every member waits at this very barrier and nothing is under way to the counter |
| BarrierInvariant.StepInv | library/src/gpu_ib/gpu_ib_gpu_coll.cpp:31-98 | for any program of direct and atomic barriers on calls that agree on the words, every write, addition, delivery, wait and reset keeps each signal tied to the waiting member that sent it |
| BarrierInvariant.NobodyLeavesEarly | library/src/gpu_ib/gpu_ib_gpu_coll.cpp:31-98 | in every interleaving of such a program nobody leaves a barrier before every member has entered it |
| BarrierInvariant.NoSignalLost | library/src/gpu_ib/gpu_ib_gpu_coll.cpp:31-82 | in every run of such a program a flag has at most one signal, under way or raised, and a counter never holds more than its other members, so that no reset loses one |
| BarrierProgress.NeverStuck | library/src/gpu_ib/gpu_ib_gpu_coll.cpp:31-98 | while some PE has barriers left some move has an effect |
| BarrierProgress.EveryRunFinishes | library/src/gpu_ib/gpu_ib_gpu_coll.cpp:31-98 | a run has at most (3n + 1) * calls * n moves with an effect, and when none is left every PE has left every barrier |
| BarrierCollision.LeavesEarly | library/src/gpu_ib/gpu_ib_gpu_coll.cpp:36-49 | when a PE outside the first call signals for the second where member 1 of the first would, the root leaves the first before member 1 has entered |
| BarrierCollision.LeavesBeforeRoot | library/src/gpu_ib/gpu_ib_gpu_coll.cpp:61-82 | a PE that adds to the counter of an atomic barrier whose root awaits its release from another makes that root leave before the other's root has entered |
| BarrierCollision.NeverEnds | library/src/gpu_ib/gpu_ib_gpu_coll.cpp:61-82 | and when all members of the atomic barrier are in the other one, the addition spoils the awaited value and some program ends with that root still waiting |
| TeamBarriers.AgreeIff | library/src/gpu_ib/gpu_ib_gpu_coll.cpp:51-73 | the calls of two strided teams agree on the words they use iff the teams do not collide |
| TeamBarriers.SplitIsOk | library/src/gpu_ib/gpu_ib_gpu_coll.cpp:102-120 | every split whose members exist and whose stride meets the assertion is a team these results are about |
| TeamBarriers.ProgramRight | library/src/gpu_ib/gpu_ib_gpu_coll.cpp:84-125 | on teams that do not collide every program is safe, ends, and does so within the bound |
| TeamBarriers.SameStartUnsafe | library/src/gpu_ib/gpu_ib_gpu_coll.cpp:84-125 | colliding teams with the same first PE let a PE leave early in some program |
| TeamBarriers.FollowsWrong | library/src/gpu_ib/gpu_ib_gpu_coll.cpp:84-125 | an atomic team whose first PE follows in another team has a program that goes wrong, by an early exit if a member is not in the other team |
| TeamBarriers.AlwaysRightIff | library/src/gpu_ib/gpu_ib_gpu_coll.cpp:84-125 | with one array of words for all teams, direct and atomic, every program on a set of teams is safe and ends in every interleaving iff no two of the teams collide |
| TeamBarriers.MixedPair | library/src/gpu_ib/gpu_ib_gpu_coll.cpp:89-94 | an atomic and a direct team with the same first PE get along |
| TeamBarriers.FirstAndEvenUnsafe | library/src/gpu_ib/gpu_ib_gpu_coll.cpp:102-125 | a barrier over the first PEs, fewer than 64 of them, and one over PEs 0 and 2 are not safe together |
| TeamBarriers.WorldAndEvenRight | library/src/gpu_ib/gpu_ib_gpu_coll.cpp:102-125 | from 64 PEs on the barrier over all PEs and one over PEs 0 and 2 are right together |
| TeamBarriers.WorldAndFirst64 | library/src/gpu_ib/gpu_ib_gpu_coll.cpp:102-125 | the barriers over all of 100 PEs and over the first 64 are not safe together |
| RingReduce.IndexFormulas | library/src/gpu_ib/gpu_ib_gpu_templates.hpp:164-181 | successor and chunk numbers equal the code's remainder expressions for every PE and round |
| RingReduce.Lead | library/src/gpu_ib/gpu_ib_gpu_templates.hpp:175-219 | around the ring, what a PE has sent stays less than n rounds ahead of what its second successor has been told |
| RingInvariant.FetchedIsPayload | library/src/gpu_ib/gpu_ib_gpu_templates.hpp:183-186 | whenever, and in whatever order, non-blocking puts read their sources, each finds the value it was issued for |
| RingInvariant.DeliveredWork | library/src/gpu_ib/gpu_ib_gpu_templates.hpp:183-203 | a delivery never overwrites a chunk of the work array that is still needed, although the next segment reuses it at once |
| RingInvariant.FlagLink | library/src/gpu_ib/gpu_ib_gpu_templates.hpp:188-195 | a flag is never overwritten before it has been seen, and has the awaited value only for the awaited round |
| RingInvariant.CombinedDst | library/src/gpu_ib/gpu_ib_gpu_templates.hpp:198-203 | adding a received chunk gives the next partial sum in ring order and touches nothing else |
| RingInvariant.DeliveredDst | library/src/gpu_ib/gpu_ib_gpu_templates.hpp:205-211 | a second-phase delivery puts the complete chunk in the successor's result, after the successor's last own use of it |
| RingInvariant.StepInv | library/src/gpu_ib/gpu_ib_gpu_templates.hpp:152-227 | every issue, read, data delivery, flag delivery, wait, addition and reset keeps the contents of all arrays as a function of the rounds done |
| RingInvariant.ReturnsResult | library/src/gpu_ib/gpu_ib_gpu_templates.hpp:152-227 | in every interleaving, for any operation and any number of PEs and segments, a returning PE has the same ring-order sum as all others in every chunk, and its flags are clear again |
| RingInvariant.QuietAtReturn | library/src/gpu_ib/gpu_ib_gpu_templates.hpp:221-227 | no data or flag of this call is still to come to a PE that has returned, so its reset of the flags loses none of this call's |
| RingTheorems.ResultIsRotated | library/src/gpu_ib/gpu_ib_gpu_templates.hpp:177-203 | for any operation the ring-order sum of chunk i is the fold over the PEs that starts at PE i - 1 and goes once around |
| RingTheorems.ResultIsFold | library/src/gpu_ib/gpu_ib_gpu_templates.hpp:177-203 | for an associative and commutative operation the ring-order sum is the fold over PEs 0, 1, ... |
| RingTheorems.ReturnsReduction | library/src/gpu_ib/gpu_ib_gpu_templates.hpp:152-227 | the collective's promise: in every interleaving a returning PE has that fold in every chunk |
| RingTheorems.NeverStuck | library/src/gpu_ib/gpu_ib_gpu_templates.hpp:175-219 | while a PE has not returned some move has an effect |
| RingTheorems.EveryRunFinishes | library/src/gpu_ib/gpu_ib_gpu_templates.hpp:152-227 | a run has at most (6 * rounds + 2) * n moves with an effect, and when none is left all PEs have returned |
| RingTheorems.CanFinish | library/src/gpu_ib/gpu_ib_gpu_templates.hpp:152-227 | from every reachable state all PEs can return |
| RingReturn.NobodyReturnsWithout | library/src/gpu_ib/gpu_ib_gpu_templates.hpp:164-219 | the ring goes over all PEs: in every run in which one PE does not call, no PE returns |
| RingReturn.ReturnsUnread | library/src/gpu_ib/gpu_ib_gpu_templates.hpp:205-227 | every PE has a run in which it returns while its last put has yet to read its source and its successor has not returned |
| RingReturn.PendingIsHarmful | library/src/gpu_ib/gpu_ib_gpu_templates.hpp:205-227 | overwriting the source of such a put after returning makes the successor return with the new value |
| RingReturn.OverwriteIff | library/src/gpu_ib/gpu_ib_gpu_templates.hpp:205-227 | in every run, whatever a returned PE stores in a chunk of its result and however the run goes on, all others still get the reduction, iff no put of that PE has yet to read that chunk |
| RingAgain.RunGood | library/src/gpu_ib/gpu_ib_gpu_templates.hpp:291-322 | two calls in a row on one set of flags and one work array, cut differently or not: as long as no flag is early both keep the invariant of a call made alone |
| RingAgain.BothRight | library/src/gpu_ib/gpu_ib_gpu_templates.hpp:291-322 | and then whoever returns from either call has its reduction |
| RingAgain.WorkOverlaps | library/src/gpu_ib/gpu_ib_gpu_templates.hpp:183-195 | any two calls have a run in which data of the second is in a successor's work array while the successor is in the first and has yet to see the last flag |
| RingAgain.EarlyIsLost | library/src/gpu_ib/gpu_ib_gpu_templates.hpp:188-226 | a flag of the second call that comes before the reset is in memory then, and will not be there after it |
| RingAgain.EarlyNeverReturns | library/src/gpu_ib/gpu_ib_gpu_templates.hpp:188-227 | after a flag of the second call has reached a PE that has yet to reset after the first, some PE never returns from the second, however the run goes on |
| RingAgain.TwoCallsIff | library/src/gpu_ib/gpu_ib_gpu_templates.hpp:291-322 | when nothing can move any more, all PEs have returned from both calls iff no flag was early |
| RingAgain.SeparatedCallsReturn | library/src/gpu_ib/gpu_ib_gpu_templates.hpp:291-322 | with a barrier between the calls results are right and all PEs return from both |
| RingAgain.UnseparatedCanHang | library/src/gpu_ib/gpu_ib_gpu_templates.hpp:291-322 | without one, any two calls have a run after which some PE never returns |
| RingPlan.PlanFits | library/src/gpu_ib/gpu_ib_gpu_templates.hpp:359-383 | chunks lie in their segment and segments in the buffer |
| RingPlan.PlanLimits | library/src/gpu_ib/gpu_ib_gpu_templates.hpp:339-383 | a segment's chunks fit in the work array a caller of the active-set entry has to provide |
| RingPlan.OneChunk | library/src/gpu_ib/gpu_ib_gpu_templates.hpp:359-383 | no element is in two chunks |
| RingPlan.CoverageIff | library/src/gpu_ib/gpu_ib_gpu_templates.hpp:359-383 | every element is in some chunk iff the count, from 2048 per PE on, is a multiple of 1024 per PE; below that, from 2048 on, a multiple of twice the PEs; and else at most 1024 and a multiple of the PEs |
| RingPlan.UsesRingIff | library/src/gpu_ib/gpu_ib_gpu_templates.hpp:334-357 | the ring is chosen iff there are at most 128 PEs and more than 1024 elements in all |
| RingPlan.TeamWorkIff | library/src/gpu_ib/gpu_ib_team.cpp:57-58 | the chunks stay inside a team's own work array iff chunk * n * sizeof(T) bytes do |
| RingPlan.TeamWorkOverrun | library/src/gpu_ib/backend_ib.cpp:404-405 | two PEs and 4096 doubles: the ring is chosen and its chunks need twice a team's array |
| RingBuffer.SimStep | library/src/gpu_ib/gpu_ib_gpu_templates.hpp:152-227 | every step on the flat buffers is the same step of the chunk protocol |
| RingBuffer.ViewSplice | library/src/gpu_ib/gpu_ib_gpu_templates.hpp:183-211 | writing one slice of a buffer changes exactly one chunk |
| RingBuffer.StepKeeps | library/src/gpu_ib/gpu_ib_gpu_templates.hpp:170-211 | no step changes an element outside every chunk once the source has been copied |
| RingBuffer.ElementResult | library/src/gpu_ib/gpu_ib_gpu_templates.hpp:152-227 | in every interleaving a returning PE has, at each element, the fold of all contributions if it is in a chunk or there is one PE, and its own source element otherwise |
| RingBuffer.AllCanReturn | library/src/gpu_ib/gpu_ib_gpu_templates.hpp:152-227 | runs in which everybody returns exist for every call |
| RingCall.WholeBufferIff | library/src/gpu_ib/gpu_ib_gpu_templates.hpp:359-383 | for all contributions, operations and interleavings every result of the ring, run with the plan for these counts, is the reduction iff there is one PE or the count is as `CoverageIff` says |
| RingCall.LastElementKept | library/src/gpu_ib/gpu_ib_gpu_templates.hpp:334-383 | two PEs and 1025 elements: the ring is chosen and whoever returns has its own source value at element 1024 |
| RingCall.TeamCallIff | library/src/gpu_ib/gpu_ib_gpu_templates.hpp:291-322 | the ring's chunks fit in the team's own work array, as the buffer model asks, iff chunk * n * sizeof(T), with n all PEs, is at most 8192 |
| Teams.PeInTeamIff | library/src/team.cpp:103-122 | the world-to-team conversion returns the member number, and -1 exactly for non-members |
| Teams.Truncates | library/src/roc_shmem.cpp:272-286 | division and remainder are those of C++: towards zero, with the dividend's sign |
| Teams.ActiveSetAgrees | library/src/roc_shmem.cpp:272-286 | the test used by a split equals that conversion although it divides, truncating, before it checks the sign |
| Teams.TranslateIff | library/src/team.cpp:50-65 | for any index, translation is -1 unless both teams are valid and the world PE is a member of the destination, and then it is its number there |
| Teams.TranslateInverts | library/src/team.cpp:50-65 | translating back gives the original PE |
| Teams.TranslateComposes | library/src/team.cpp:50-65 | translating through an intermediate team changes nothing |
| Teams.TranslateIncreasing | library/src/team.cpp:50-65 | translation is strictly increasing |
| Teams.NextTranslatable | library/src/team.cpp:95-122 | after a translatable PE with a later one, the PE one spacing on is translatable |
| Teams.TranslatableSpacing | library/src/team.cpp:95-122 | consecutive translatable source PEs are exactly strideDst / gcd(strideDst, strideSrc) apart |
| Teams.SplitMember | library/src/roc_shmem.cpp:319-322 | member i of a split is member start + stride * i of the parent |
| Teams.SplitAcceptedIff | library/src/roc_shmem.cpp:313-327 | a split is accepted iff its start is in the parent, its size between one and the parent's, its stride positive and its last member at most PE num_pes |
| Teams.SplitWellFormed | library/src/roc_shmem.cpp:313-327 | an accepted split of a well-formed team is well-formed |
| Teams.SplitContainedIff | library/src/roc_shmem.cpp:313-327 | an accepted split is contained in its parent iff its last member is |
| Teams.SplitMembersExistIff | library/src/roc_shmem.cpp:324-327 | all members of an accepted split exist iff its end is not the number of PEs |
| Teams.SplitPastTheEnd | library/src/roc_shmem.cpp:324-327 | a concrete accepted split with a member that does not exist |
| Teams.FlattenAgrees | library/src/roc_shmem.cpp:319-347 | for any chain of splits the flattened triplet gives the world PE that walking up every ancestor gives |
| Teams.ChainContained | library/src/roc_shmem.cpp:319-347 | when every triplet lies in its parent, a team is contained in every ancestor |
| Teams.ChainMembersExist | library/src/team.cpp:95-101 | and all its members are existing PEs |
| Communicator.RankAgrees | library/src/roc_shmem.cpp:329-373 | for any chain of splits, on every PE that joins the team, the MPI rank by key order is the PE number the library computed |
| Communicator.CommIff | library/src/roc_shmem.cpp:349-358 | a PE is in the communicator iff it is a member that no ancestor, the world included, excludes |
| Communicator.CommBelow | library/src/roc_shmem.cpp:349-358 | the PEs of the communicator below member m are exactly members 0..m-1 |
| Communicator.SizeAgreesIff | library/src/roc_shmem.cpp:324-373 | the communicator has as many ranks as the team has PEs iff the team's last member is not past the last member of any ancestor or of the world |
| Communicator.SizeAgreesFromParent | library/src/roc_shmem.cpp:324-373 | with a complete parent communicator that is exactly the precondition that the triplet lies in the parent |
| Communicator.MissingPe | library/src/roc_shmem.cpp:324-358 | twice as many PEs as the stride: a split that lies in its parent whose communicator has two ranks for three members, because the last one does not exist |
| Communicator.LostPe | library/src/roc_shmem.cpp:324-358 | a split that lies in its parent, with existing members, whose communicator has one rank for two members, because the last one was not in the grandparent |
| Lifecycle.DestroyAllOnce | library/src/team_tracker.hpp:74-81 | draining a list leaves every object ever made destroyed exactly once |
| Lifecycle.DestroyConserves | library/src/team_tracker.cpp:44-51 | every object made is tracked or destroyed, never both, after a destruction |
| Lifecycle.DoInv | library/src/backend_bc.cpp:108-136 | every allowed call succeeds and keeps that account and the team limit |
| Lifecycle.MadeIff | library/src/roc_shmem.cpp:539-556 | what counts as made after a run is what was made before and every context asked for and every team asked for below the limit |
| Lifecycle.AllowedIff | library/src/team_tracker.cpp:44-51 | a well-behaved user may create anything new and destroy exactly what is tracked, which is when the assertion holds |
| Lifecycle.LifecycleRun | library/src/roc_shmem.cpp:189-216 | over any run of a well-behaved user no untrack assertion fails, live user teams stay within the limit, and finalize leaves a team or context destroyed once if it was there or a call created it, and not at all otherwise |
| Lifecycle.Find | library/src/team_tracker.cpp:46-50 | the search finds the handle that erasing must remove |
| Lifecycle.Backend.CreateNewTeam | library/src/gpu_ib/backend_ib.cpp:163-209 | takes the least array free on all members, for exactly one new team object, and nothing when there is none |
| Lifecycle.Backend.Join | library/src/roc_shmem.cpp:360-377 | creation and tracking in place: the status of creation is dropped, and tracker, objects and pool stay in agreement |
| Lifecycle.Backend.SplitStrided | library/src/roc_shmem.cpp:288-380 | status, new team object, tracker and pool after a split, on every path; a team comes out for a joining PE iff the combined mask of the members has a free array; the caller is where its team object says |
| Lifecycle.StatusIff | library/src/roc_shmem.cpp:299-379 | for every input which status a split returns, and that a team comes out iff the limit, the parent and the arguments allow it, the caller is a member and one is created |
| Lifecycle.Backend.TeamDestroy | library/src/roc_shmem.cpp:382-394 | untracks and destroys exactly that team and gives its work array back; invalid and world are ignored; the assertion holds iff the team is tracked |
| Lifecycle.Backend.CtxCreate | library/src/roc_shmem.cpp:539-556 | a fresh context is appended to the list |
| Lifecycle.Backend.CtxDestroy | library/src/backend_bc.cpp:118-128 | erases exactly that context from the list; the assertion holds iff it is in it |
| Lifecycle.Backend.Finalize | library/src/roc_shmem.cpp:195-208 | contexts then teams are drained; all ever made are destroyed once; the pool is as at the start |
| TeamCreation.SilentFailureIff | library/src/gpu_ib/backend_ib.cpp:174-188 | for any chain of splits and any pools: a PE of the new communicator below its limit is told of success without a team iff every work array is held by some PE of that communicator |
| TeamCreation.LimitIff | library/src/roc_shmem.cpp:299-303 | for any pools a PE is told of too many teams iff it holds as many as there are arrays besides the world's |
| TeamCreation.FragmentedSplit | library/src/roc_shmem.cpp:360-379 | from the initial pools, calls after which any split that PEs 0 and 1 both join leaves each, with one team and room for two, with success and no team |
| TeamCreation.EverybodyJoins | library/src/roc_shmem.cpp:349-358 | the split of the world into itself is such a split: its communicator has all PEs |
| ReuseProgram.ShrinkStep | clients/sos_tests/shmem_team_reuse_teams.cpp:50-64 | on every PE one split takes the team of PEs i..n-1 to that of i+1..n-1, or to INVALID for PE i and below, provided the joining PEs find a work array |
| ReuseProgram.ArrayFound | library/src/gpu_ib/backend_ib.cpp:170-188 | whenever the limit admits a split the joining PEs' combined pools have an array, the teams taking turns on arrays 1 and 2; with a limit of 2 that is the first split |
| ReuseProgram.JoiningIsComm | clients/sos_tests/shmem_team_reuse_teams.cpp:46-64 | the PEs that join split i are those of the communicator that the chain of splits makes, i..n-1 |
| ReuseProgram.HeldStep | clients/sos_tests/shmem_team_reuse_teams.cpp:50-64 | for any team limit, what a PE holds after an iteration and whether it counts an error |
| ReuseProgram.PoolStep | clients/sos_tests/shmem_team_reuse_teams.cpp:50-64 | taking the new team's array and giving back the old one gives the pool that the next split counts on |
| ReuseProgram.StartTeams | clients/sos_tests/shmem_team_reuse_teams.cpp:46-48 | the first split in place, with its error count and pool, for any limit |
| ReuseProgram.ShrinkOnce | clients/sos_tests/shmem_team_reuse_teams.cpp:52-64 | split, error check and destruction of the old team in place leave only the new team tracked and its array taken |
| ReuseProgram.Iteration | clients/sos_tests/shmem_team_reuse_teams.cpp:52-64 | one iteration in place: exactly the new team stays tracked, its array is the one the other members count on, and when an error is counted |
| ReuseProgram.ShrinkAll | clients/sos_tests/shmem_team_reuse_teams.cpp:46-64 | the whole loop on any PE, for any limit |
| ReuseProgram.ReuseTeams | clients/sos_tests/shmem_team_reuse_teams.cpp:46-69 | the program ends with no team tracked and all arrays free, and reports no error iff the limit allows two teams at once or there is one PE and room for one |
| WorkPool.FindLowestBit | library/src/gpu_ib/backend_ib.cpp:51-65 | the loop finds the least set bit, and -1 iff there is none |
| WorkPool.CreateInv | library/src/gpu_ib/backend_ib.cpp:163-209 | creating a team keeps every work array free or held by one team, with the same number on all its members |
| WorkPool.ArraysExclusive | library/src/gpu_ib/backend_ib.cpp:163-228 | in every run, members destroying teams at different times, teams held by a PE never share a work array or use the world's |
| WorkPool.CreateFailsIff | library/src/gpu_ib/backend_ib.cpp:174-188 | creation fails iff every number is held by some member |
| WorkPool.CreateGives | library/src/gpu_ib/backend_ib.cpp:170-209 | creating gives all members and nobody else the least number none of them holds, and changes nothing when there is none |
| WorkPool.DestroyUndoes | library/src/gpu_ib/backend_ib.cpp:211-225 | destroying gives the number back on that PE only and undoes taking it |
| WorkPool.OneHeldFits | library/src/gpu_ib/backend_ib.cpp:174-188 | members that hold only one common team can make another when there is room for two, and members that hold nothing when there is room for one |
| WorkPool.Fragmented | library/src/gpu_ib/backend_ib.cpp:163-228 | from the initial pools of any number of PEs, calls after which PEs 0 and 1 have one team each, below the limit of two, and no common free array |
| Sping.StepInv | clients/sos_tests/sping.cpp:218-252 | every step of either PE and every delivery of a single word keeps the invariant of the pair |
| Sping.OneToken | clients/sos_tests/sping.cpp:222-245 | in every run, while both PEs are in the same round, exactly one token exists per pair: in flight, in a flag word, or held; each wait consumes one put |
| Sping.NoTokenBetweenRounds | clients/sos_tests/sping.cpp:218-252 | while one PE is a round ahead, the other is at the end of its round, which is complete, with no token left |
| Sping.ExactlyReps | clients/sos_tests/sping.cpp:222-245 | a PE that ends a round did exactly reps puts and reps waits in it |
| Sping.FlagsFreshAtRoundStart | clients/sos_tests/sping.cpp:218-223 | when a round starts its flag words are zero with nothing in flight to them |
| Sping.SizesInOrder | clients/sos_tests/sping.cpp:214-216 | in every run a PE goes through the sizes min + k * inc, or min * 2^k, in order, and has finished iff the next one is too large |
| Sping.MessageArrives | clients/sos_tests/sping.cpp:197-245 | in every run a PE at the barrier after a round has delivered every word of the message before the flag, with the contents 1000 + i % 256 |
| Sping.NeverStuck | clients/sos_tests/sping.cpp:218-252 | while a PE is unfinished some move changes the state |
| Sping.BudgetGoesDown | clients/sos_tests/sping.cpp:218-252 | every move with an effect uses up budget |
| Sping.EveryRunFinishes | clients/sos_tests/sping.cpp:218-252 | for every schedule of sizes a run has boundedly many effective moves, and when none is left both PEs have finished |
| PingPong.LineStep | clients/functional_tests/ping_pong_tester.cpp:49-61 | in each state of the protocol exactly one move is not a spin |
| PingPong.Lockstep | clients/functional_tests/ping_pong_tester.cpp:46-63 | every interleaving walks the same line of states, one per effective move |
| PingPong.SafeInEveryRun | clients/functional_tests/ping_pong_tester.cpp:46-63 | at most one write is in flight, the rounds differ by at most one, and an awaited value in memory is never about to be overwritten |
| PingPong.FinishesInEveryRun | clients/functional_tests/ping_pong_tester.cpp:46-63 | a run has at most 6 * rounds effective moves, is finished iff it made them all, and is never stuck before |
| RandomAccess.BinInShares | clients/functional_tests/random_access_tester.cpp:126-146 | every draw keeps a bin's lanes and words in the bin's own shares |
| RandomAccess.BinDrawnIff | clients/functional_tests/random_access_tester.cpp:126-146 | which bins can be drawn: every PE, every offset that leaves room in the share, and every start of a lane window but the last (and the first, if that is the only one) |
| RandomAccess.BinsDisjoint | clients/functional_tests/random_access_tester.cpp:126-146 | bins of a wave share no lane and no word |
| RandomAccess.InBufferIff | clients/functional_tests/random_access_tester.cpp:140-142 | for any number of waves all draws stay in the buffer iff all shares do |
| RandomAccess.SixFifths | clients/functional_tests/random_access_tester.cpp:140-142 | a layout of init_bins with three waves, more than the tester allows, that leaves the buffer |
| RandomAccess.LaunchIsLegal | clients/functional_tests/random_access_tester.cpp:212-214 | in every launch the assertions admit the modulus of the offset draw is positive and the shares fit |
| RandomAccess.LegalLaunchIff | clients/functional_tests/random_access_tester.cpp:129-133 | the assertions admit a launch iff the bins divide 64 and each, with one more lane than it uses, fits in the wave |
| RandomAccess.WholeIntsTile | clients/functional_tests/random_access_tester.cpp:84-103 | with whole ints the lanes of a bin write exactly its region |
| RandomAccess.BinsAreGood | clients/functional_tests/random_access_tester.cpp:126-146 | in every admitted launch every draw gives bins in their own shares |
| RandomAccess.WhoseBuffer | clients/functional_tests/random_access_tester.cpp:84-103 | a put changes, and the host expects to be changed, the buffer of the PE its bin names, a get that of PE 0 |
| RandomAccess.PartialIntDisagrees | clients/functional_tests/random_access_tester.cpp:251-253 | with a partial int zero draws give a word the oracle does not expect |
| RandomAccess.OracleIff | clients/functional_tests/random_access_tester.cpp:241-275 | for put and get, kernel and oracle agree on all PEs for all draws iff the size is a whole number of ints |
| RandomAccessTester.InitBins | clients/functional_tests/random_access_tester.cpp:120-147 | the nested loops fill the three tables with the specified bins |
| RandomAccessTester.OneWindow | clients/functional_tests/random_access_tester.cpp:46-55 | a lane falls in at most one bin's window |
| RandomAccessTester.ThreadPassing | clients/functional_tests/random_access_tester.cpp:32-57 | a lane passes iff it is in a window, with that bin's PE and its own offset |
| RandomAccessTester.LaneInBuffer | clients/functional_tests/random_access_tester.cpp:84-103 | a passing lane's bytes lie in the buffer of an existing PE |
| RandomAccessTester.RunLane | clients/functional_tests/random_access_tester.cpp:84-103 | one lane writes exactly its own bytes, repeated or not |
| RandomAccessTester.LanesTogether | clients/functional_tests/random_access_tester.cpp:59-113 | the lanes' bytes together are the specified ones |
| RandomAccessTester.Kernel | clients/functional_tests/random_access_tester.cpp:84-103 | all lanes in any order write exactly the specified bytes and no others |
| RandomAccessTester.ExpectedBuffer | clients/functional_tests/random_access_tester.cpp:244-264 | the host's loops set exactly the expected words |
| RandomAccessTester.WordFromFirstByte | clients/functional_tests/random_access_tester.cpp:266-274 | a received word is one iff its first byte was written |
| RandomAccessTester.Compare | clients/functional_tests/random_access_tester.cpp:266-274 | the comparison succeeds iff kernel and oracle agree on every word |
| RandomAccessTester.RunTest | clients/functional_tests/random_access_tester.cpp:188-275 | the whole test passes iff kernel and oracle agree for these draws, and always for whole ints |

## Left out

- GPU memory model: fences, volatile and cached loads, and the lock's clock-based back-off are stutter steps.
- DeviceMutex: the plain spin lock is a special case of the short lock inside `OldDeviceMutex` and would add only easy members.
- Starvation in the group lock: the source says fairness is not provided, and no fairness is claimed.
- Lifecycle.Backend.SplitStrided: does not model 32-bit overflow of stride times parent stride, because integers are mathematical.
- Lifecycle.Backend.Finalize: does not model the backend destructor and the release of device memory, which are foreign calls.
- Random-access tester with several waves: only the layout of `init_bins` is modelled for any number of waves; kernel and oracle are for the one wave its assertions allow.
- Sping with more than two PEs: a pair and its barrier are modelled; other PEs can only delay the barrier.
- The direct reduction, broadcast, alltoall and fcollect.
- RingAgain.TwoCallsIff: is about two ring calls with different result buffers; reusing the result is the subject of `OverwriteIff`, and a ring call followed by a direct reduction on the same flags is not modelled.
- ReuseProgram.ReuseTeams: is the program of one PE; that the other members' pools are as their own programs leave them is the argument of `PoolsAt`, which `Iteration` shows this PE to meet.
- Queue pairs, the reverse-offload command queue, InfiniBand and IPC transports, HDP flushing.
- Context forwarding wrappers, the typed API, statistics, timers and argument parsing: one-branch delegation or input and output.
