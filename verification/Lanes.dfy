/**
 Ballot arithmetic: which lanes of a wave are active, how many, and in which
 order. A ballot is a machine word of any width, bit i being lane i; the shift,
 complement and conjunction of the source are the bitwise operations below.
 */
module Lanes {

  type Word = seq<bool>

  function Ones(width: nat): Word {
    seq(width, _ => true)
  }

  function ShiftLeft(w: Word, k: nat): Word {
    seq(|w|, i requires 0 <= i < |w| => i >= k && w[i - k])
  }

  function Complement(w: Word): Word {
    seq(|w|, i requires 0 <= i < |w| => !w[i])
  }

  function And(a: Word, b: Word): Word
    requires |a| == |b|
  {
    seq(|a|, i requires 0 <= i < |a| => a[i] && b[i])
  }

  /** `__popcll` */
  function PopCount(w: Word): nat {
    if w == [] then 0 else (if w[0] then 1 else 0) + PopCount(w[1..])
  }

  /** `__ffsll`: one plus the index of the least significant set bit, or zero. */
  function FindFirstSet(w: Word): nat {
    if w == [] then 0
    else if w[0] then 1
    else var r := FindFirstSet(w[1..]); if r == 0 then 0 else r + 1
  }

  function NumberActiveLanes(ballot: Word): nat {
    PopCount(ballot)
  }

  function LowestActiveLane(ballot: Word): int {
    FindFirstSet(ballot) - 1
  }

  function ActiveLogicalLaneId(ballot: Word, lane: nat): nat {
    var laneMask := ShiftLeft(Ones(|ballot|), lane);
    var invertedMask := Complement(laneMask);
    PopCount(And(ballot, invertedMask))
  }

  lemma {:induction false} PopCountConcat(a: Word, b: Word)
    ensures PopCount(a + b) == PopCount(a) + PopCount(b)
  {
    if a == [] {
      assert a + b == b;
    } else {
      assert (a + b)[1..] == a[1..] + b;
      PopCountConcat(a[1..], b);
    }
  }

  lemma {:induction false} PopCountNone(w: Word)
    requires forall i :: 0 <= i < |w| ==> !w[i]
    ensures PopCount(w) == 0
  {
    if w != [] {
      PopCountNone(w[1..]);
    }
  }

  /** The masking keeps exactly the active lanes below mine. */
  lemma RankCountsLowerLanes(ballot: Word, lane: nat)
    requires lane < |ballot|
    ensures ActiveLogicalLaneId(ballot, lane) == PopCount(ballot[..lane])
  {
    var masked := And(ballot, Complement(ShiftLeft(Ones(|ballot|), lane)));
    assert masked == masked[..lane] + masked[lane..];
    assert masked[..lane] == ballot[..lane];
    PopCountConcat(masked[..lane], masked[lane..]);
    PopCountNone(masked[lane..]);
  }

  lemma RankSplits(ballot: Word, i: nat, j: nat)
    requires i < j <= |ballot|
    ensures PopCount(ballot[..j]) == PopCount(ballot[..i]) + (if ballot[i] then 1 else 0) + PopCount(ballot[i + 1..j])
  {
    assert ballot[..j] == ballot[..i] + ([ballot[i]] + ballot[i + 1..j]);
    PopCountConcat(ballot[..i], [ballot[i]] + ballot[i + 1..j]);
    assert ([ballot[i]] + ballot[i + 1..j])[1..] == ballot[i + 1..j];
  }

  /** Ranks are below the number of active lanes and increase with the lane. */
  lemma RankIncreasing(ballot: Word, i: nat, j: nat)
    requires i < |ballot| && j < |ballot| && ballot[i] && ballot[j]
    ensures ActiveLogicalLaneId(ballot, i) < NumberActiveLanes(ballot)
    ensures i < j <==> ActiveLogicalLaneId(ballot, i) < ActiveLogicalLaneId(ballot, j)
  {
    RankCountsLowerLanes(ballot, i);
    RankCountsLowerLanes(ballot, j);
    assert ballot[..|ballot|] == ballot;
    RankSplits(ballot, i, |ballot|);
    if i < j {
      RankSplits(ballot, i, j);
    } else if j < i {
      RankSplits(ballot, j, i);
    }
  }

  /** Every rank is taken. */
  lemma {:induction false} RankOnto(ballot: Word, r: nat, width: nat) returns (lane: nat)
    requires width <= |ballot| && r < PopCount(ballot[..width])
    ensures lane < width && ballot[lane] && ActiveLogicalLaneId(ballot, lane) == r
    decreases width
  {
    RankSplits(ballot, width - 1, width);
    assert ballot[width..width] == [];
    if r < PopCount(ballot[..width - 1]) {
      lane := RankOnto(ballot, r, width - 1);
    } else {
      lane := width - 1;
      RankCountsLowerLanes(ballot, lane);
    }
  }

  lemma {:induction false} LowestIsLeast(ballot: Word, k: nat)
    requires k < |ballot| && ballot[k]
    ensures 0 <= LowestActiveLane(ballot) <= k && ballot[LowestActiveLane(ballot)]
    ensures PopCount(ballot[..LowestActiveLane(ballot)]) == 0
  {
    if !ballot[0] {
      LowestIsLeast(ballot[1..], k - 1);
      var low := LowestActiveLane(ballot);
      assert ballot[..low][1..] == ballot[1..][..low - 1];
    }
  }

  ghost predicate RankTaken(ballot: Word, r: nat) {
    exists lane: nat :: lane < |ballot| && ballot[lane] && ActiveLogicalLaneId(ballot, lane) == r
  }

  /** Logical lane ids number the active lanes 0, 1, ... in lane order, without
      gaps or repeats, and number 0 is the lowest active lane. */
  lemma RankBijection(ballot: Word)
    ensures forall i, j :: 0 <= i < |ballot| && 0 <= j < |ballot| && ballot[i] && ballot[j] ==>
              && ActiveLogicalLaneId(ballot, i) < NumberActiveLanes(ballot)
              && (i < j <==> ActiveLogicalLaneId(ballot, i) < ActiveLogicalLaneId(ballot, j))
    ensures forall r: nat :: r < NumberActiveLanes(ballot) ==>
              RankTaken(ballot, r)
    ensures forall lane: nat :: lane < |ballot| && ballot[lane] ==>
              (ActiveLogicalLaneId(ballot, lane) == 0 <==> lane == LowestActiveLane(ballot))
  {
    forall i, j | 0 <= i < |ballot| && 0 <= j < |ballot| && ballot[i] && ballot[j]
      ensures ActiveLogicalLaneId(ballot, i) < NumberActiveLanes(ballot)
      ensures i < j <==> ActiveLogicalLaneId(ballot, i) < ActiveLogicalLaneId(ballot, j)
    {
      RankIncreasing(ballot, i, j);
    }
    forall r: nat | r < NumberActiveLanes(ballot)
      ensures RankTaken(ballot, r)
    {
      assert ballot[..|ballot|] == ballot;
      var lane := RankOnto(ballot, r, |ballot|);
    }
    forall lane: nat | lane < |ballot| && ballot[lane]
      ensures ActiveLogicalLaneId(ballot, lane) == 0 <==> lane == LowestActiveLane(ballot)
    {
      LowestIsLeast(ballot, lane);
      RankCountsLowerLanes(ballot, LowestActiveLane(ballot));
      RankIncreasing(ballot, LowestActiveLane(ballot), lane);
    }
  }
}
