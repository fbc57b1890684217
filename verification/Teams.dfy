/**
 Strided teams. A team is kept as one (start, stride, size) triplet with respect
 to the world, however deep the chain of splits that made it. Integers are
 mathematical; division and remainder truncate towards zero as in C++.
 */
module Teams {
  import opened Arith

  datatype Option<+T> = None | Some(value: T)

  datatype Team = Team(start: int, stride: int, size: int)

  /** Every team made by the library starts at a PE and steps forward. */
  predicate WellFormed(t: Team) {
    t.start >= 0 && t.stride >= 1 && t.size >= 1
  }

  function World(n: int): Team {
    Team(0, 1, n)
  }

  function CDiv(a: int, b: int): int
    requires b > 0
  {
    if a >= 0 then a / b else -((-a) / b)
  }

  function CMod(a: int, b: int): int
    requires b > 0
  {
    a - b * CDiv(a, b)
  }

  /** Quotient towards zero, remainder with the sign of the dividend. */
  lemma Truncates(a: int, b: int)
    requires b > 0
    ensures a == b * CDiv(a, b) + CMod(a, b) && -b < CMod(a, b) < b
    ensures if a >= 0 then CMod(a, b) >= 0 else CMod(a, b) <= 0
  {
    if a < 0 {
      Distribute(b, 0, (-a) / b);
    }
  }

  function PeInWorld(t: Team, pe: int): int {
    t.start + t.stride * pe
  }

  function PeInTeam(t: Team, peInWorld: int): int
    requires t.stride > 0
  {
    if peInWorld < t.start then -1
    else if CMod(peInWorld - t.start, t.stride) != 0 then -1
    else
      var pe := CDiv(peInWorld - t.start, t.stride);
      if pe >= t.size then -1 else pe
  }

  function PeInActiveSet(start: int, stride: int, size: int, pe: int): int
    requires stride > 0
  {
    var translated := CDiv(pe - start, stride);
    if pe < start || CMod(pe - start, stride) != 0 || translated >= size then -1 else translated
  }

  function TranslatePe(src: Option<Team>, pe: int, dst: Option<Team>): int
    requires dst.Some? ==> dst.value.stride > 0
  {
    if src == None || dst == None then -1
    else PeInTeam(dst.value, PeInWorld(src.value, pe))
  }

  // ----- membership -----

  /** Reference definition: w is member number i of t. */
  predicate IsMember(t: Team, i: int, w: int) {
    0 <= i < t.size && w == t.start + t.stride * i
  }

  /** The conversion finds exactly the member number, and -1 for non-members. */
  lemma PeInTeamIff(t: Team, w: int, i: int)
    requires WellFormed(t)
    ensures PeInTeam(t, w) >= -1
    ensures PeInTeam(t, w) == i && i >= 0 <==> IsMember(t, i, w)
  {
    if i >= 0 {
      MulMonotone(t.stride, 0, i);
      if IsMember(t, i, w) {
        DivideUnique(w - t.start, t.stride, i, 0);
      }
    }
  }

  /** The test used by a split agrees with the conversion although it divides
      before it checks the sign. */
  lemma ActiveSetAgrees(t: Team, w: int)
    requires t.stride > 0
    ensures PeInActiveSet(t.start, t.stride, t.size, w) == PeInTeam(t, w)
  {
  }

  // ----- translation -----

  /** For any index, in range or not: the translation is -1 unless both teams are
      valid and the world PE is a member of the destination; then it is its number. */
  lemma TranslateIff(src: Option<Team>, dst: Option<Team>, i: int, j: int)
    requires dst.Some? ==> WellFormed(dst.value)
    ensures TranslatePe(src, i, dst) >= -1
    ensures TranslatePe(src, i, dst) == j && j >= 0 <==>
            src.Some? && dst.Some? && IsMember(dst.value, j, PeInWorld(src.value, i))
  {
    if src.Some? && dst.Some? {
      PeInTeamIff(dst.value, PeInWorld(src.value, i), j);
    }
  }

  lemma TranslateInverts(src: Team, dst: Team, i: int)
    requires WellFormed(src) && WellFormed(dst) && 0 <= i < src.size
    requires TranslatePe(Some(src), i, Some(dst)) != -1
    ensures var j := TranslatePe(Some(src), i, Some(dst));
      0 <= j < dst.size && TranslatePe(Some(dst), j, Some(src)) == i
  {
    var j := TranslatePe(Some(src), i, Some(dst));
    TranslateIff(Some(src), Some(dst), i, j);
    TranslateIff(Some(dst), Some(src), j, i);
  }

  lemma TranslateComposes(a: Team, b: Team, c: Team, i: int)
    requires WellFormed(a) && WellFormed(b) && WellFormed(c)
    requires TranslatePe(Some(a), i, Some(b)) != -1
    ensures TranslatePe(Some(b), TranslatePe(Some(a), i, Some(b)), Some(c)) == TranslatePe(Some(a), i, Some(c))
  {
    TranslateIff(Some(a), Some(b), i, TranslatePe(Some(a), i, Some(b)));
  }

  lemma TranslateIncreasing(src: Team, dst: Team, i: int, k: int)
    requires WellFormed(src) && WellFormed(dst) && i < k
    requires TranslatePe(Some(src), i, Some(dst)) != -1 && TranslatePe(Some(src), k, Some(dst)) != -1
    ensures TranslatePe(Some(src), i, Some(dst)) < TranslatePe(Some(src), k, Some(dst))
  {
    var j, l := TranslatePe(Some(src), i, Some(dst)), TranslatePe(Some(src), k, Some(dst));
    TranslateIff(Some(src), Some(dst), i, j);
    TranslateIff(Some(src), Some(dst), k, l);
    MulStep(src.stride, i, k);
    if l <= j {
      MulMonotone(dst.stride, l, j);
    }
  }

  // ----- spacing of the translatable PEs -----

  lemma CommonFactor(src: Team, dst: Team) returns (g: nat, u: nat, v: nat, x: int, y: int)
    requires WellFormed(src) && WellFormed(dst)
    ensures g == Gcd(dst.stride, src.stride) && g > 0
    ensures src.stride == g * u && dst.stride == g * v && u * x + v * y == 1
    ensures dst.stride / g == v && u > 0 && v > 0
  {
    g := Gcd(dst.stride, src.stride);
    v, u, y, x := Bezout(dst.stride, src.stride);
    Distribute(g, u * x, v * y);
    assert (g * u) * x == g * (u * x) && (g * v) * y == g * (v * y);
    MulInjective(g, u * x + v * y, 1);
    DivideUnique(dst.stride, g, v, 0);
    MulPositive(g, u);
    MulPositive(g, v);
  }

  /** A common difference d of the source indices comes from one of the target. */
  lemma DifferenceIsMultiple(g: int, u: int, v: int, x: int, y: int, d: int, e: int) returns (m: int)
    requires g > 0 && u > 0 && v > 0 && d > 0 && u * x + v * y == 1 && (g * u) * d == (g * v) * e
    ensures m >= 1 && d == v * m && e == u * m && v <= d && u <= e
  {
    Associate(g, u, d);
    Associate(g, v, e);
    MulInjective(g, u * d, v * e);
    m := Euclid(u, v, x, y, d, e);
    MulPositive(v, m);
    Cancel(u, v, m, d, e);
    MulMonotone(v, 1, m);
    MulMonotone(u, 1, m);
  }

  lemma SpacingFits(src: Team, dst: Team, g: int, u: int, v: int, x: int, y: int, d: int, e: int)
    requires g > 0 && u > 0 && v > 0 && d > 0 && u * x + v * y == 1
    requires src.stride == g * u && dst.stride == g * v && src.stride * d == dst.stride * e
    ensures v <= d && u <= e && src.stride * v == dst.stride * u
  {
    var m := DifferenceIsMultiple(g, u, v, x, y, d, e);
    Exchange(g, u, v);
  }

  /** When i and j name the same PE, and later i + d and l do, then so do the
      indices one spacing after i and its counterpart after j. */
  lemma MeetAgain(src: Team, dst: Team, i: int, d: int, j: int, l: int) returns (u: int)
    requires WellFormed(src) && WellFormed(dst) && d > 0
    requires PeInWorld(src, i) == PeInWorld(dst, j) && PeInWorld(src, i + d) == PeInWorld(dst, l)
    ensures var gap := dst.stride / Gcd(dst.stride, src.stride);
      0 < gap <= d && 0 < u <= l - j && PeInWorld(src, i + gap) == PeInWorld(dst, j + u)
  {
    var g, w, v, x, y := CommonFactor(src, dst);
    u := w;
    Differences(src, dst, i, d, j, l);
    SpacingFits(src, dst, g, u, v, x, y, d, l - j);
    Advance(src, dst, i, v, j, u);
  }

  /** Between two translatable source PEs lies a multiple of the spacing, and the
      PE one spacing after the first is translatable too. */
  lemma NextTranslatable(src: Team, dst: Team, i: int, d: int)
    requires WellFormed(src) && WellFormed(dst) && 0 <= i && d > 0 && i + d < src.size
    requires TranslatePe(Some(src), i, Some(dst)) != -1 && TranslatePe(Some(src), i + d, Some(dst)) != -1
    ensures var gap := dst.stride / Gcd(dst.stride, src.stride);
      0 < gap <= d && TranslatePe(Some(src), i + gap, Some(dst)) != -1
  {
    var j, l := TranslatePe(Some(src), i, Some(dst)), TranslatePe(Some(src), i + d, Some(dst));
    TranslateIff(Some(src), Some(dst), i, j);
    TranslateIff(Some(src), Some(dst), i + d, l);
    var u := MeetAgain(src, dst, i, d, j, l);
    TranslateIff(Some(src), Some(dst), i + dst.stride / Gcd(dst.stride, src.stride), j + u);
  }

  lemma Differences(src: Team, dst: Team, i: int, d: int, j: int, l: int)
    requires PeInWorld(src, i) == PeInWorld(dst, j) && PeInWorld(src, i + d) == PeInWorld(dst, l)
    ensures src.stride * d == dst.stride * (l - j)
  {
    Distribute(src.stride, i, d);
    Distribute(dst.stride, l, j);
  }

  lemma Advance(src: Team, dst: Team, i: int, v: int, j: int, u: int)
    requires PeInWorld(src, i) == PeInWorld(dst, j) && src.stride * v == dst.stride * u
    ensures PeInWorld(src, i + v) == PeInWorld(dst, j + u)
  {
    Distribute(src.stride, i, v);
    Distribute(dst.stride, j, u);
  }

  /** Consecutive translatable source PEs are exactly strideDst / gcd apart. */
  lemma TranslatableSpacing(src: Team, dst: Team, i: int, d: int)
    requires WellFormed(src) && WellFormed(dst) && 0 <= i && d > 0 && i + d < src.size
    requires TranslatePe(Some(src), i, Some(dst)) != -1 && TranslatePe(Some(src), i + d, Some(dst)) != -1
    requires forall k :: i < k < i + d ==> TranslatePe(Some(src), k, Some(dst)) == -1
    ensures d == dst.stride / Gcd(dst.stride, src.stride)
  {
    NextTranslatable(src, dst, i, d);
  }

  // ----- splitting -----

  /** The arguments of a split, relative to the parent. */
  datatype Args = Args(start: int, stride: int, size: int)

  /** The new triplet with respect to the world, or None when -1 is returned. */
  function Split(numPes: int, parent: Team, a: Args): Option<Team> {
    if a.start < 0 || a.start >= parent.size || a.size < 1 || a.size > parent.size || a.stride < 1 then None
    else
      var startInWorld := PeInWorld(parent, a.start);
      var strideInWorld := a.stride * parent.stride;
      var endInWorld := startInWorld + strideInWorld * (a.size - 1);
      if endInWorld > numPes then None else Some(Team(startInWorld, strideInWorld, a.size))
  }

  /** The precondition OpenSHMEM puts on the caller: the last member is in the parent. */
  predicate LiesInParent(parent: Team, a: Args) {
    a.start + a.stride * (a.size - 1) < parent.size
  }

  /** The start is in the parent, the size between one and the parent's, the stride
      positive, and the last member not past PE `numPes`. */
  predicate Accepted(numPes: int, parent: Team, a: Args) {
    && 0 <= a.start < parent.size && 1 <= a.size <= parent.size && a.stride >= 1
    && PeInWorld(parent, a.start + a.stride * (a.size - 1)) <= numPes
  }

  lemma SplitAcceptedIff(numPes: int, parent: Team, a: Args)
    ensures Split(numPes, parent, a).Some? <==> Accepted(numPes, parent, a)
  {
    Distribute(parent.stride, a.start, a.stride * (a.size - 1));
    assert (a.stride * parent.stride) * (a.size - 1) == parent.stride * (a.stride * (a.size - 1));
  }

  lemma SplitWellFormed(numPes: int, parent: Team, a: Args)
    requires WellFormed(parent) && Split(numPes, parent, a).Some?
    ensures WellFormed(Split(numPes, parent, a).value)
  {
    MulMonotone(parent.stride, 0, a.start);
    MulMonotone(parent.stride, 1, a.stride);
  }

  /** Member i of the new team is member start + stride * i of the parent. */
  lemma SplitMember(numPes: int, parent: Team, a: Args, i: int)
    requires Split(numPes, parent, a).Some?
    ensures PeInWorld(Split(numPes, parent, a).value, i) == PeInWorld(parent, a.start + a.stride * i)
  {
    Distribute(parent.stride, a.start, a.stride * i);
    assert (a.stride * parent.stride) * i == parent.stride * (a.stride * i);
  }

  ghost predicate Has(t: Team, w: int) {
    exists k :: IsMember(t, k, w)
  }

  ghost predicate Contains(outer: Team, inner: Team) {
    forall i :: 0 <= i < inner.size ==> Has(outer, PeInWorld(inner, i))
  }

  lemma MemberInParent(numPes: int, parent: Team, a: Args, i: int)
    requires WellFormed(parent) && Split(numPes, parent, a).Some? && 0 <= i < a.size && LiesInParent(parent, a)
    ensures Has(parent, PeInWorld(Split(numPes, parent, a).value, i))
  {
    SplitMember(numPes, parent, a, i);
    MulMonotone(a.stride, i, a.size - 1);
    MulMonotone(a.stride, 0, i);
    assert IsMember(parent, a.start + a.stride * i, PeInWorld(parent, a.start + a.stride * i));
  }

  lemma PastTheParent(parent: Team, k: int)
    requires WellFormed(parent) && k >= parent.size
    ensures !Has(parent, PeInWorld(parent, k))
  {
    forall j ensures !IsMember(parent, j, PeInWorld(parent, k)) {
      if IsMember(parent, j, PeInWorld(parent, k)) {
        MulInjective(parent.stride, j, k);
      }
    }
  }

  /** An accepted split is contained in its parent exactly when the caller kept
      the OpenSHMEM precondition; the code does not check it. */
  lemma SplitContainedIff(numPes: int, parent: Team, a: Args)
    requires WellFormed(parent) && Split(numPes, parent, a).Some?
    ensures Contains(parent, Split(numPes, parent, a).value) <==> LiesInParent(parent, a)
  {
    var t := Split(numPes, parent, a).value;
    if LiesInParent(parent, a) {
      forall i | 0 <= i < t.size ensures Has(parent, PeInWorld(t, i)) {
        MemberInParent(numPes, parent, a, i);
      }
    } else {
      SplitMember(numPes, parent, a, a.size - 1);
      PastTheParent(parent, a.start + a.stride * (a.size - 1));
    }
  }

  /** The bound check lets the last member be one past the last PE: all members
      exist exactly when the end is not the number of PEs. */
  lemma SplitMembersExistIff(numPes: int, parent: Team, a: Args)
    requires WellFormed(parent) && Split(numPes, parent, a).Some?
    ensures var t := Split(numPes, parent, a).value;
      (forall i :: 0 <= i < t.size ==> 0 <= PeInWorld(t, i) < numPes)
      <==> parent.start + parent.stride * (a.start + a.stride * (a.size - 1)) != numPes
  {
    var t := Split(numPes, parent, a).value;
    SplitWellFormed(numPes, parent, a);
    SplitMember(numPes, parent, a, a.size - 1);
    forall i | 0 <= i < t.size ensures 0 <= PeInWorld(t, i) <= PeInWorld(t, a.size - 1) {
      MulMonotone(t.stride, 0, i);
      MulMonotone(t.stride, i, a.size - 1);
    }
  }

  /** Four PEs, every second one, three members: PE 4 does not exist. */
  lemma SplitPastTheEnd()
    ensures Split(4, World(4), Args(0, 2, 3)) == Some(Team(0, 2, 3))
    ensures PeInWorld(Team(0, 2, 3), 2) == 4
  {
  }

  // ----- chains of splits -----

  /** Split the world, then the result, and so on. */
  function Chain(numPes: int, chain: seq<Args>): Option<Team> {
    if chain == [] then Some(World(numPes))
    else match Chain(numPes, chain[..|chain| - 1])
      case None => None
      case Some(parent) => Split(numPes, parent, chain[|chain| - 1])
  }

  /** The slow form: walk member i up through every ancestor's start and stride. */
  function WalkUp(chain: seq<Args>, i: int): int {
    if chain == [] then i
    else var a := chain[|chain| - 1]; WalkUp(chain[..|chain| - 1], a.start + a.stride * i)
  }

  predicate AllLieInParent(numPes: int, chain: seq<Args>) {
    forall n :: 0 <= n < |chain| ==>
      Chain(numPes, chain[..n]).Some? && LiesInParent(Chain(numPes, chain[..n]).value, chain[n])
  }

  lemma {:induction false} ChainWellFormed(numPes: int, chain: seq<Args>)
    requires numPes >= 1 && Chain(numPes, chain).Some?
    ensures WellFormed(Chain(numPes, chain).value)
  {
    if chain != [] {
      var up := chain[..|chain| - 1];
      ChainWellFormed(numPes, up);
      SplitWellFormed(numPes, Chain(numPes, up).value, chain[|chain| - 1]);
    }
  }

  /** The flattened triplet gives the same world PE as the whole chain. */
  lemma {:induction false} FlattenAgrees(numPes: int, chain: seq<Args>, i: int)
    requires Chain(numPes, chain).Some?
    ensures PeInWorld(Chain(numPes, chain).value, i) == WalkUp(chain, i)
  {
    if chain != [] {
      var up, a := chain[..|chain| - 1], chain[|chain| - 1];
      SplitMember(numPes, Chain(numPes, up).value, a, i);
      FlattenAgrees(numPes, up, a.start + a.stride * i);
    }
  }

  lemma ContainsTransitive(a: Team, b: Team, c: Team)
    requires Contains(a, b) && Contains(b, c)
    ensures Contains(a, c)
  {
    forall i | 0 <= i < c.size ensures Has(a, PeInWorld(c, i)) {
      assert Has(b, PeInWorld(c, i));
      var j :| IsMember(b, j, PeInWorld(c, i));
      assert Has(a, PeInWorld(b, j));
    }
  }

  lemma PrefixesLie(numPes: int, chain: seq<Args>)
    requires chain != [] && AllLieInParent(numPes, chain)
    ensures AllLieInParent(numPes, chain[..|chain| - 1])
  {
    var up := chain[..|chain| - 1];
    assert forall m :: 0 <= m <= |up| ==> up[..m] == chain[..m];
  }

  /** When every split keeps the precondition, a team is contained in each of its
      ancestors, the world included. */
  lemma {:induction false} ChainContained(numPes: int, chain: seq<Args>, n: nat)
    requires numPes >= 1 && Chain(numPes, chain).Some? && AllLieInParent(numPes, chain) && n <= |chain|
    ensures Chain(numPes, chain[..n]).Some?
    ensures Contains(Chain(numPes, chain[..n]).value, Chain(numPes, chain).value)
    decreases |chain|
  {
    var t := Chain(numPes, chain).value;
    if n == |chain| {
      assert chain[..n] == chain;
      SelfContained(t);
    } else {
      var up, a := chain[..|chain| - 1], chain[|chain| - 1];
      var parent := Chain(numPes, up).value;
      ChainWellFormed(numPes, up);
      SplitContainedIff(numPes, parent, a);
      PrefixesLie(numPes, chain);
      assert up[..n] == chain[..n];
      ChainContained(numPes, up, n);
      ContainsTransitive(Chain(numPes, chain[..n]).value, parent, t);
    }
  }

  /** And then every member is an existing PE. */
  lemma {:induction false} ChainMembersExist(numPes: int, chain: seq<Args>, i: int)
    requires numPes >= 1 && Chain(numPes, chain).Some? && AllLieInParent(numPes, chain)
    requires 0 <= i < Chain(numPes, chain).value.size
    ensures 0 <= WalkUp(chain, i) < numPes
  {
    ChainContained(numPes, chain, 0);
    FlattenAgrees(numPes, chain, i);
    assert chain[..0] == [];
    assert Has(World(numPes), WalkUp(chain, i));
  }

  lemma SelfContained(t: Team)
    ensures Contains(t, t)
  {
    forall i | 0 <= i < t.size ensures Has(t, PeInWorld(t, i)) {
      assert IsMember(t, i, PeInWorld(t, i));
    }
  }
}
