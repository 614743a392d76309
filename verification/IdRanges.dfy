/** How one bracket's sorted sample of ids is cut into ranges (src/core/background-partition.js:91-130). */
module IdRanges {
  import opened Wrappers
  import A = Arithmetic

  /** An `_id` range of one bracket; an end that is missing is open. */
  datatype Scope = Scope(gte: Option<int>, lt: Option<int>)

  datatype Range = Range(scope: Scope, count: nat)

  datatype Bound = Bound(id: int, position: nat)

  predicate InScope(scope: Scope, id: int) {
    (scope.gte.Some? ==> scope.gte.value <= id) && (scope.lt.Some? ==> id < scope.lt.value)
  }

  predicate Sorted(ids: seq<int>) {
    forall i, j | 0 <= i <= j < |ids| :: ids[i] <= ids[j]
  }

  predicate Distinct(ids: seq<int>) {
    forall i, j | 0 <= i < j < |ids| :: ids[i] < ids[j]
  }

  function SumOf(ranges: seq<Range>): nat {
    if ranges == [] then 0 else SumOf(ranges[..|ranges| - 1]) + ranges[|ranges| - 1].count
  }

  // ---- Where the cuts are

  /** All of them, between the outer ends. */
  function CutsOf(m: nat, parts: nat): seq<nat>
    requires parts > 0
  {
    seq(parts - 1, i requires 0 <= i < parts - 1 => A.Cut(i + 1, m, parts))
  }

  predicate Inside(cuts: seq<nat>, m: nat) {
    forall i | 0 <= i < |cuts| :: cuts[i] < m
  }

  /** Positions that move on by at least `least` from one to the next, inside m samples. */
  predicate Ascending(cuts: seq<nat>, m: nat, least: nat) {
    && Inside(cuts, m)
    && (forall i | 0 <= i < |cuts| - 1 :: cuts[i] + least <= cuts[i + 1])
  }

  lemma CutsAscend(m: nat, parts: nat)
    requires parts > 0 && m > 0
    ensures Ascending(CutsOf(m, parts), m, A.Floor(m, parts))
    ensures parts > 1 ==> CutsOf(m, parts)[0] >= A.Floor(m, parts)
  {
    forall i | 0 <= i < parts - 1 ensures CutsOf(m, parts)[i] < m {
      A.CutIsIn(i + 1, m, parts);
    }
    forall i | 0 <= i < parts - 2 ensures CutsOf(m, parts)[i] + A.Floor(m, parts) <= CutsOf(m, parts)[i + 1] {
      A.CutStep(i + 1, m, parts);
    }
    A.CutStep(0, m, parts);
  }

  // ---- Bounds

  function Previous(ids: seq<int>, bounds: seq<Bound>): int
    requires ids != []
  {
    if bounds == [] then ids[0] else bounds[|bounds| - 1].id
  }

  /** The bounds these cuts leave: one equal to the bound before, or to the first id, is skipped. */
  function BoundsOf(ids: seq<int>, cuts: seq<nat>): (bounds: seq<Bound>)
    requires ids != [] && Inside(cuts, |ids|)
  {
    if cuts == [] then []
    else
      var before, position := BoundsOf(ids, cuts[..|cuts| - 1]), cuts[|cuts| - 1];
      if ids[position] == Previous(ids, before) then before else before + [Bound(ids[position], position)]
  }

  /** Bounds lie inside the sample, after its first id, one after the other. */
  predicate WellPlaced(ids: seq<int>, bounds: seq<Bound>) {
    && (forall b <- bounds :: 0 < b.position < |ids| && ids[b.position] == b.id && ids[0] < b.id)
    && (forall i, j | 0 <= i < j < |bounds| :: bounds[i].id < bounds[j].id && bounds[i].position < bounds[j].position)
  }

  /** A later id, past the last bound, is one bound more. */
  lemma OneMoreBound(ids: seq<int>, bounds: seq<Bound>, position: nat)
    requires ids != [] && Sorted(ids) && WellPlaced(ids, bounds)
    requires position < |ids| && Previous(ids, bounds) < ids[position]
    ensures WellPlaced(ids, bounds + [Bound(ids[position], position)])
  {
    if bounds != [] {
      assert bounds[|bounds| - 1] in bounds;
    }
    forall b | b in bounds ensures b.id < ids[position] && b.position < position {
      var i :| 0 <= i < |bounds| && bounds[i] == b;
    }
  }

  lemma TheLastCutIsPrevious(ids: seq<int>, cuts: seq<nat>)
    requires ids != [] && Sorted(ids) && Ascending(cuts, |ids|, 0)
    ensures cuts != [] ==> Previous(ids, BoundsOf(ids, cuts)) == ids[cuts[|cuts| - 1]]
  {
  }

  lemma {:induction false} BoundsAreFew(ids: seq<int>, cuts: seq<nat>)
    requires ids != [] && Inside(cuts, |ids|)
    ensures |BoundsOf(ids, cuts)| <= |cuts|
  {
    if cuts != [] {
      BoundsAreFew(ids, cuts[..|cuts| - 1]);
    }
  }

  lemma {:induction false} BoundsAreWellPlaced(ids: seq<int>, cuts: seq<nat>)
    requires ids != [] && Sorted(ids) && Ascending(cuts, |ids|, 0)
    ensures WellPlaced(ids, BoundsOf(ids, cuts))
    decreases |cuts|
  {
    if cuts != [] {
      var rest, position := cuts[..|cuts| - 1], cuts[|cuts| - 1];
      BoundsAreWellPlaced(ids, rest);
      TheLastCutIsPrevious(ids, rest);
      var before := BoundsOf(ids, rest);
      assert Previous(ids, before) <= ids[position];
      if ids[position] != Previous(ids, before) {
        OneMoreBound(ids, before, position);
      }
    }
  }

  predicate IsCutAt(ids: seq<int>, cuts: seq<nat>, id: int)
    requires Inside(cuts, |ids|)
  {
    exists i :: 0 <= i < |cuts| && ids[cuts[i]] == id
  }

  predicate IsBound(bounds: seq<Bound>, id: int) {
    exists i :: 0 <= i < |bounds| && bounds[i].id == id
  }

  lemma OneCutLater(ids: seq<int>, rest: seq<nat>, position: nat, id: int)
    requires position < |ids| && Inside(rest + [position], |ids|) && Inside(rest, |ids|)
    ensures IsCutAt(ids, rest + [position], id) <==> IsCutAt(ids, rest, id) || ids[position] == id
  {
    var cuts := rest + [position];
    assert cuts[|rest|] == position;
    forall i | 0 <= i < |rest| ensures cuts[i] == rest[i] {
    }
  }

  lemma OneBoundLater(before: seq<Bound>, bound: Bound, id: int)
    ensures IsBound(before + [bound], id) <==> IsBound(before, id) || bound.id == id
  {
    var bounds := before + [bound];
    assert bounds[|before|] == bound;
    forall i | 0 <= i < |before| ensures bounds[i] == before[i] {
    }
  }

  /** The bounds are the different ids at the cuts, but for the first id of all. */
  lemma {:induction false} BoundsAreTheDifferentCuts(ids: seq<int>, cuts: seq<nat>, id: int)
    requires ids != [] && Sorted(ids) && Ascending(cuts, |ids|, 0)
    ensures IsBound(BoundsOf(ids, cuts), id) <==> id != ids[0] && IsCutAt(ids, cuts, id)
    decreases |cuts|
  {
    if cuts != [] {
      var rest, position := cuts[..|cuts| - 1], cuts[|cuts| - 1];
      var before := BoundsOf(ids, rest);
      BoundsAreTheDifferentCuts(ids, rest, id);
      assert cuts == rest + [position];
      OneCutLater(ids, rest, position, id);
      OneBoundLater(before, Bound(ids[position], position), id);
      BoundsAreWellPlaced(ids, rest);
      TheLastCutIsPrevious(ids, rest);
      PreviousIsABoundOrFirst(ids, before);
      assert ids[position] >= Previous(ids, before);
    }
  }

  lemma PreviousIsABoundOrFirst(ids: seq<int>, bounds: seq<Bound>)
    requires ids != [] && WellPlaced(ids, bounds)
    ensures Previous(ids, bounds) == ids[0] || IsBound(bounds, Previous(ids, bounds))
    ensures Previous(ids, bounds) >= ids[0]
  {
    if bounds != [] {
      assert bounds[|bounds| - 1] in bounds;
    }
  }

  /** With no duplicates, and cuts that all move on, no cut is skipped. */
  lemma {:induction false} NoCutIsSkipped(ids: seq<int>, cuts: seq<nat>)
    requires ids != [] && Distinct(ids) && Inside(cuts, |ids|) && Ascending(cuts, |ids|, 1) && (cuts != [] ==> cuts[0] > 0)
    ensures |BoundsOf(ids, cuts)| == |cuts|
    ensures forall i | 0 <= i < |cuts| :: BoundsOf(ids, cuts)[i].position == cuts[i] && BoundsOf(ids, cuts)[i].id == ids[cuts[i]]
    decreases |cuts|
  {
    if cuts != [] {
      NoCutIsSkipped(ids, cuts[..|cuts| - 1]);
    }
  }

  // ---- Ranges

  function LowerAt(bounds: seq<Bound>, i: nat): Option<int>
    requires i <= |bounds|
  {
    if i == 0 then None else Some(bounds[i - 1].id)
  }

  function StartAt(bounds: seq<Bound>, i: nat): nat
    requires i <= |bounds|
  {
    if i == 0 then 0 else bounds[i - 1].position
  }

  function EndAt(bounds: seq<Bound>, m: nat, i: nat): nat
    requires i <= |bounds|
  {
    if i == |bounds| then m else bounds[i].position
  }

  /** End to end: open at both outer ends, and each range starts where the one before ends. */
  ghost predicate Chain(ranges: seq<Range>) {
    && ranges != [] && ranges[0].scope.gte.None? && ranges[|ranges| - 1].scope.lt.None?
    && (forall i | 0 <= i < |ranges| - 1 :: ranges[i].scope.lt.Some? && ranges[i + 1].scope.gte == ranges[i].scope.lt)
    && (forall i, j | 0 <= i < j < |ranges| - 1 :: ranges[i].scope.lt.value < ranges[j].scope.lt.value)
  }

  /** The i-th range between the bounds, with how far its end is from its start in the sample. */
  function RangeAt(ids: seq<int>, bounds: seq<Bound>, i: nat): (r: Range)
    requires ids != [] && WellPlaced(ids, bounds) && i <= |bounds|
    ensures r.count > 0
  {
    assert i < |bounds| ==> bounds[i] in bounds;
    assert i > 0 ==> bounds[i - 1] in bounds;
    Range(Scope(LowerAt(bounds, i), if i < |bounds| then Some(bounds[i].id) else None),
          EndAt(bounds, |ids|, i) - StartAt(bounds, i))
  }

  ghost predicate Between(ids: seq<int>, bounds: seq<Bound>, ranges: seq<Range>)
    requires ids != [] && WellPlaced(ids, bounds)
  {
    |ranges| == |bounds| + 1 && forall i | 0 <= i <= |bounds| :: ranges[i] == RangeAt(ids, bounds, i)
  }

  lemma BetweenIsAChain(ids: seq<int>, bounds: seq<Bound>, ranges: seq<Range>)
    requires ids != [] && WellPlaced(ids, bounds) && Between(ids, bounds, ranges)
    ensures Chain(ranges)
  {
    forall i | 0 <= i < |ranges| - 1
      ensures ranges[i].scope.lt == Some(bounds[i].id) && ranges[i + 1].scope.gte == ranges[i].scope.lt
    {
      assert ranges[i + 1] == RangeAt(ids, bounds, i + 1);
    }
  }

  /** One range more at the end adds its count. */
  lemma SumGrows(ranges: seq<Range>, range: Range)
    ensures SumOf(ranges + [range]) == SumOf(ranges) + range.count
  {
    assert (ranges + [range])[..|ranges|] == ranges;
  }

  /** The bounds cut the sample: what the first of the two loops leaves. */
  method CutBounds(ids: seq<int>, parts: nat) returns (bounds: seq<Bound>)
    requires Sorted(ids) && ids != [] && parts > 0
    ensures Inside(CutsOf(|ids|, parts), |ids|) && bounds == BoundsOf(ids, CutsOf(|ids|, parts))
  {
    ghost var cuts := CutsOf(|ids|, parts);
    CutsAscend(|ids|, parts);
    bounds := [];
    for i := 1 to parts
      invariant bounds == BoundsOf(ids, cuts[..i - 1])
    {
      var position := A.Cut(i, |ids|, parts);
      assert cuts[..i][..i - 1] == cuts[..i - 1] && cuts[..i][i - 1] == position && position in cuts;
      if ids[position] != Previous(ids, bounds) { bounds := bounds + [Bound(ids[position], position)]; }
    }
    assert cuts[..parts - 1] == cuts;
  }

  /** The ranges between bounds: what the second loop leaves. */
  method RangesBetween(ids: seq<int>, bounds: seq<Bound>) returns (ranges: seq<Range>)
    requires ids != [] && WellPlaced(ids, bounds)
    ensures Between(ids, bounds, ranges) && SumOf(ranges) == |ids|
  {
    ranges := [];
    var start, lower := 0, None;
    for j := 0 to |bounds|
      invariant |ranges| == j && start == StartAt(bounds, j) && lower == LowerAt(bounds, j) && SumOf(ranges) == start
      invariant forall i | 0 <= i < j :: ranges[i] == RangeAt(ids, bounds, i)
    {
      assert RangeAt(ids, bounds, j).count > 0;
      var range := Range(Scope(lower, Some(bounds[j].id)), bounds[j].position - start);
      SumGrows(ranges, range);
      ranges := ranges + [range];
      lower, start := Some(bounds[j].id), bounds[j].position;
    }
    assert RangeAt(ids, bounds, |bounds|).count > 0;
    SumGrows(ranges, Range(Scope(lower, None), |ids| - start));
    ranges := ranges + [Range(Scope(lower, None), |ids| - start)];
  }

  function StartOf(cuts: seq<nat>, i: nat): nat
    requires i <= |cuts|
  {
    if i == 0 then 0 else cuts[i - 1]
  }

  function EndOf(cuts: seq<nat>, m: nat, i: nat): nat
    requires i <= |cuts|
  {
    if i == |cuts| then m else cuts[i]
  }

  /** From cut to cut, and to the outer ends, it is between `lo` and `hi`. */
  predicate Spread(cuts: seq<nat>, m: nat, lo: nat, hi: nat) {
    forall i | 0 <= i <= |cuts| :: lo <= EndOf(cuts, m, i) - StartOf(cuts, i) <= hi
  }

  lemma CutsAreSpread(m: nat, parts: nat)
    requires parts > 0
    ensures Spread(CutsOf(m, parts), m, A.Floor(m, parts), A.Ceil(m, parts))
  {
    var cuts := CutsOf(m, parts);
    forall i | 0 <= i <= |cuts| ensures A.Floor(m, parts) <= EndOf(cuts, m, i) - StartOf(cuts, i) <= A.Ceil(m, parts) {
      A.CutStep(i, m, parts);
    }
  }

  lemma EvenCounts(ids: seq<int>, cuts: seq<nat>, lo: nat, hi: nat, ranges: seq<Range>)
    requires ids != [] && Distinct(ids) && Inside(cuts, |ids|) && lo >= 1 && Spread(cuts, |ids|, lo, hi)
    requires WellPlaced(ids, BoundsOf(ids, cuts)) && Between(ids, BoundsOf(ids, cuts), ranges)
    ensures |ranges| == |cuts| + 1 && forall i | 0 <= i < |ranges| :: lo <= ranges[i].count <= hi
  {
    forall i | 0 <= i < |cuts| - 1 ensures cuts[i] + 1 <= cuts[i + 1] {
      assert EndOf(cuts, |ids|, i + 1) - StartOf(cuts, i + 1) >= lo;
    }
    assert cuts != [] ==> EndOf(cuts, |ids|, 0) - StartOf(cuts, 0) >= 1;
    NoCutIsSkipped(ids, cuts);
    var bounds := BoundsOf(ids, cuts);
    forall i | 0 <= i < |ranges| ensures lo <= ranges[i].count <= hi {
      assert ranges[i] == RangeAt(ids, bounds, i);
      assert EndAt(bounds, |ids|, i) == EndOf(cuts, |ids|, i) && StartAt(bounds, i) == StartOf(cuts, i);
    }
  }

  /** As many ranges as parts, each holding between `lo` and `hi` samples. */
  predicate Even(ranges: seq<Range>, parts: nat, lo: nat, hi: nat) {
    |ranges| == parts && forall i | 0 <= i < |ranges| :: lo <= ranges[i].count <= hi
  }

  lemma DistinctIsEven(ids: seq<int>, parts: nat, cuts: seq<nat>, lo: nat, hi: nat, ranges: seq<Range>)
    requires ids != [] && Distinct(ids) && Inside(cuts, |ids|) && |cuts| == parts - 1
    requires lo >= 1 && Spread(cuts, |ids|, lo, hi)
    requires WellPlaced(ids, BoundsOf(ids, cuts)) && Between(ids, BoundsOf(ids, cuts), ranges)
    ensures Even(ranges, parts, lo, hi)
  {
    EvenCounts(ids, cuts, lo, hi, ranges);
  }

  lemma CutIsEven(ids: seq<int>, parts: nat, ranges: seq<Range>)
    requires Distinct(ids) && 1 < parts <= |ids| && Inside(CutsOf(|ids|, parts), |ids|)
    requires WellPlaced(ids, BoundsOf(ids, CutsOf(|ids|, parts))) && Between(ids, BoundsOf(ids, CutsOf(|ids|, parts)), ranges)
    ensures Even(ranges, parts, A.Floor(|ids|, parts), A.Ceil(|ids|, parts))
  {
    var m, cuts := |ids|, CutsOf(|ids|, parts);
    var lo: nat, hi: nat := A.Floor(m, parts), A.Ceil(m, parts);
    assert Spread(cuts, m, lo, hi) by { CutsAreSpread(m, parts); }
    assert lo >= 1 by { A.DivAtLeast(m, 1, parts); }
    DistinctIsEven(ids, parts, cuts, lo, hi, ranges);
  }

  /**
   * The cut itself. For any sorted sample the ranges are a chain — so they are disjoint and cover every
   * id — of at most `parts`, their counts are positive and add up to the sample; a sample of at least
   * `parts` different ids is cut into exactly `parts` ranges of as equal counts as can be.
   */
  method SliceBracket(ids: seq<int>, parts: nat) returns (ranges: seq<Range>, ghost bounds: seq<Bound>)
    requires Sorted(ids)
    ensures Chain(ranges) && |ranges| <= (if parts <= 1 then 1 else parts)
    ensures SumOf(ranges) == |ids| && (ids != [] ==> forall i | 0 <= i < |ranges| :: ranges[i].count > 0)
    ensures Distinct(ids) && 1 <= parts <= |ids| ==> Even(ranges, parts, A.Floor(|ids|, parts), A.Ceil(|ids|, parts))
    ensures parts <= 1 || |ids| < 2 ==> ranges == [Range(Scope(None, None), |ids|)]
    ensures parts > 1 && |ids| >= 2 ==>
              && Inside(CutsOf(|ids|, parts), |ids|) && bounds == BoundsOf(ids, CutsOf(|ids|, parts))
              && WellPlaced(ids, bounds) && Between(ids, bounds, ranges)
  {
    bounds := [];
    if parts <= 1 || |ids| < 2 {
      ranges := [Range(Scope(None, None), |ids|)];
      SumGrows([], ranges[0]);
      return;
    }
    var cut := CutBounds(ids, parts);
    bounds := cut;
    CutsAscend(|ids|, parts);
    BoundsAreWellPlaced(ids, CutsOf(|ids|, parts));
    BoundsAreFew(ids, CutsOf(|ids|, parts));
    ranges := RangesBetween(ids, cut);
    BetweenIsAChain(ids, cut, ranges);
    if Distinct(ids) && parts <= |ids| { CutIsEven(ids, parts, ranges); }
  }

  // ---- A chain covers every id once

  /** Every id, sampled or not, is in exactly one of the ranges of a chain. */
  lemma {:induction false} ChainCoversOnce(ranges: seq<Range>, id: int)
    requires Chain(ranges)
    ensures exists i :: 0 <= i < |ranges| && InScope(ranges[i].scope, id)
    ensures forall i, j | 0 <= i < j < |ranges| :: !(InScope(ranges[i].scope, id) && InScope(ranges[j].scope, id))
  {
    var i := FirstPast(ranges, id, 0);
    assert InScope(ranges[i].scope, id);
    forall i, j | 0 <= i < j < |ranges| ensures !(InScope(ranges[i].scope, id) && InScope(ranges[j].scope, id)) {
      assert ranges[i].scope.lt.Some? && ranges[j].scope.gte == ranges[j - 1].scope.lt;
      if i < j - 1 {
        assert ranges[i].scope.lt.value < ranges[j - 1].scope.lt.value;
      }
    }
  }

  lemma {:induction false} FirstPast(ranges: seq<Range>, id: int, from: nat) returns (i: nat)
    requires Chain(ranges) && from < |ranges| && (from > 0 ==> ranges[from - 1].scope.lt.value <= id)
    ensures i < |ranges| && InScope(ranges[i].scope, id)
    decreases |ranges| - from
  {
    if from == |ranges| - 1 || id < ranges[from].scope.lt.value {
      i := from;
      if from > 0 {
        assert ranges[from - 1 + 1].scope.gte == ranges[from - 1].scope.lt;
      }
    } else {
      i := FirstPast(ranges, id, from + 1);
    }
  }


  // ---- Whether a count is how many samples the range holds

  /** In a sorted sample: how many are below an id, and so where its first sample would be. */
  function Below(ids: seq<int>, id: int): (n: nat)
    requires Sorted(ids)
    ensures n <= |ids| && forall k | 0 <= k < |ids| :: ids[k] < id <==> k < n
  {
    if ids == [] then 0
    else if ids[|ids| - 1] < id then |ids|
    else Below(ids[..|ids| - 1], id)
  }

  function Members(ids: seq<int>, scope: Scope): set<nat> {
    set k: nat | k < |ids| && InScope(scope, ids[k])
  }

  function Interval(a: nat, b: nat): (s: set<nat>)
    requires a <= b
    ensures |s| == b - a && forall k :: k in s <==> a <= k < b
    decreases b
  {
    if a == b then {} else Interval(a, b - 1) + {b - 1}
  }

  function FromIndex(ids: seq<int>, scope: Scope): nat
    requires Sorted(ids)
  {
    if scope.gte.Some? then Below(ids, scope.gte.value) else 0
  }

  function ToIndex(ids: seq<int>, scope: Scope): nat
    requires Sorted(ids)
  {
    if scope.lt.Some? then Below(ids, scope.lt.value) else |ids|
  }

  lemma MembersAreAnInterval(ids: seq<int>, scope: Scope)
    requires Sorted(ids) && FromIndex(ids, scope) <= ToIndex(ids, scope)
    ensures |Members(ids, scope)| == ToIndex(ids, scope) - FromIndex(ids, scope)
  {
    assert Interval(FromIndex(ids, scope), ToIndex(ids, scope)) == Members(ids, scope);
  }

  predicate Exact(ids: seq<int>, range: Range) {
    range.count == |Members(ids, range.scope)|
  }

  /** Each count is the number of samples in its range — what the function's own comment says of it. */
  predicate CountsAreExact(ids: seq<int>, ranges: seq<Range>) {
    forall i | 0 <= i < |ranges| :: Exact(ids, ranges[i])
  }

  predicate IsFirst(ids: seq<int>, bound: Bound) {
    0 < bound.position < |ids| && ids[bound.position - 1] < bound.id
  }

  predicate FirstUpTo(ids: seq<int>, bounds: seq<Bound>, n: nat)
    requires n <= |bounds|
  {
    forall i | 0 <= i < n :: IsFirst(ids, bounds[i])
  }

  /** Range i, from the first sample of its lower id to that of its upper one. */
  lemma MembersOfRange(ids: seq<int>, bounds: seq<Bound>, i: nat)
    requires ids != [] && Sorted(ids) && WellPlaced(ids, bounds) && i <= |bounds|
    ensures |Members(ids, RangeAt(ids, bounds, i).scope)| ==
            (if i < |bounds| then Below(ids, bounds[i].id) else |ids|) - (if i > 0 then Below(ids, bounds[i - 1].id) else 0)
    ensures i < |bounds| ==> (IsFirst(ids, bounds[i]) <==> Below(ids, bounds[i].id) == bounds[i].position)
  {
    assert i < |bounds| ==> bounds[i] in bounds;
    var scope := RangeAt(ids, bounds, i).scope;
    if 0 < i < |bounds| {
      var n := Below(ids, bounds[i - 1].id);
      assert n < |ids| ==> ids[n] >= bounds[i - 1].id;
      assert bounds[i - 1].id < bounds[i].id;
    }
    MembersAreAnInterval(ids, scope);
  }

  /** Once all bounds before it are first samples, range i counts right just when its own upper bound is. */
  lemma ExactHereIff(ids: seq<int>, bounds: seq<Bound>, ranges: seq<Range>, i: nat)
    requires ids != [] && Sorted(ids) && WellPlaced(ids, bounds) && Between(ids, bounds, ranges)
    requires i <= |bounds| && FirstUpTo(ids, bounds, i)
    ensures Exact(ids, ranges[i]) <==> i == |bounds| || IsFirst(ids, bounds[i])
  {
    assert ranges[i] == RangeAt(ids, bounds, i);
    MembersOfRange(ids, bounds, i);
    if i > 0 {
      assert IsFirst(ids, bounds[i - 1]);
      MembersOfRange(ids, bounds, i - 1);
    }
  }

  lemma {:induction false} ExactUpToIff(ids: seq<int>, bounds: seq<Bound>, ranges: seq<Range>, n: nat)
    requires ids != [] && Sorted(ids) && WellPlaced(ids, bounds) && Between(ids, bounds, ranges) && n <= |bounds|
    ensures (forall i | 0 <= i < n :: Exact(ids, ranges[i])) <==> FirstUpTo(ids, bounds, n)
  {
    if n > 0 {
      ExactUpToIff(ids, bounds, ranges, n - 1);
      if FirstUpTo(ids, bounds, n - 1) {
        ExactHereIff(ids, bounds, ranges, n - 1);
      }
    }
  }

  lemma ExactIffFirst(ids: seq<int>, bounds: seq<Bound>, ranges: seq<Range>)
    requires ids != [] && Sorted(ids) && WellPlaced(ids, bounds) && Between(ids, bounds, ranges)
    ensures CountsAreExact(ids, ranges) <==> FirstUpTo(ids, bounds, |bounds|)
  {
    ExactUpToIff(ids, bounds, ranges, |bounds|);
    if FirstUpTo(ids, bounds, |bounds|) {
      ExactHereIff(ids, bounds, ranges, |bounds|);
    }
  }

  /** The cut at i is skipped, or is the first sample of its value. */
  predicate SkippedOrFirst(ids: seq<int>, cuts: seq<nat>, i: nat)
    requires ids != [] && Inside(cuts, |ids|) && i < |cuts|
  {
    ids[cuts[i]] == ids[StartOf(cuts, i)] || (cuts[i] > 0 && ids[cuts[i] - 1] < ids[cuts[i]])
  }

  /** What the last cut is compared with: the cut before it, kept or not. */
  lemma PreviousIs(ids: seq<int>, rest: seq<nat>, cuts: seq<nat>, cut: nat)
    requires ids != [] && Sorted(ids) && Inside(rest, |ids|) && Ascending(rest, |ids|, 0) && cuts == rest + [cut]
    ensures Previous(ids, BoundsOf(ids, rest)) == ids[StartOf(cuts, |rest|)]
  {
    TheLastCutIsPrevious(ids, rest);
  }

  lemma OneCutMore(ids: seq<int>, rest: seq<nat>, cut: nat)
    requires ids != [] && Inside(rest, |ids|) && cut < |ids|
    ensures
      var before := BoundsOf(ids, rest);
      && Inside(rest + [cut], |ids|)
      && BoundsOf(ids, rest + [cut]) == if ids[cut] == Previous(ids, before) then before else before + [Bound(ids[cut], cut)]
  {
    assert (rest + [cut])[..|rest|] == rest;
  }

  predicate AllSkippedOrFirst(ids: seq<int>, cuts: seq<nat>)
    requires ids != [] && Inside(cuts, |ids|)
  {
    forall i | 0 <= i < |cuts| :: SkippedOrFirst(ids, cuts, i)
  }

  lemma OneSkippedOrFirstMore(ids: seq<int>, rest: seq<nat>, cut: nat)
    requires ids != [] && Inside(rest, |ids|) && cut < |ids| && Inside(rest + [cut], |ids|)
    ensures AllSkippedOrFirst(ids, rest + [cut]) <==> AllSkippedOrFirst(ids, rest) && SkippedOrFirst(ids, rest + [cut], |rest|)
  {
    var cuts := rest + [cut];
    forall i | 0 <= i < |rest| ensures SkippedOrFirst(ids, cuts, i) <==> SkippedOrFirst(ids, rest, i) {
      assert cuts[i] == rest[i] && StartOf(cuts, i) == StartOf(rest, i);
    }
  }

  lemma {:induction false} FirstBoundsIff(ids: seq<int>, cuts: seq<nat>)
    requires ids != [] && Sorted(ids) && Inside(cuts, |ids|) && Ascending(cuts, |ids|, 0)
    ensures FirstUpTo(ids, BoundsOf(ids, cuts), |BoundsOf(ids, cuts)|) <==> AllSkippedOrFirst(ids, cuts)
    decreases |cuts|
  {
    if cuts != [] {
      var rest, cut := cuts[..|cuts| - 1], cuts[|cuts| - 1];
      FirstBoundsIff(ids, rest);
      assert cuts == rest + [cut];
      PreviousIs(ids, rest, cuts, cut);
      OneCutMore(ids, rest, cut);
      OneSkippedOrFirstMore(ids, rest, cut);
      OneMoreFirst(ids, BoundsOf(ids, rest), Bound(ids[cut], cut));
      assert cuts[|rest|] == cut;
    }
  }

  lemma OneMoreFirst(ids: seq<int>, bounds: seq<Bound>, bound: Bound)
    ensures FirstUpTo(ids, bounds + [bound], |bounds| + 1) <==> FirstUpTo(ids, bounds, |bounds|) && IsFirst(ids, bound)
  {
    var more := bounds + [bound];
    assert more[|bounds|] == bound && forall i | 0 <= i < |bounds| :: more[i] == bounds[i];
  }

  /**
   * The counts are the samples their ranges hold exactly when every cut that is kept falls on the first
   * sample of its value — always, if no id is sampled twice.
   */
  lemma CountsAreExactIff(ids: seq<int>, parts: nat, bounds: seq<Bound>, ranges: seq<Range>)
    requires Sorted(ids) && parts > 1 && |ids| >= 2 && Inside(CutsOf(|ids|, parts), |ids|)
    requires bounds == BoundsOf(ids, CutsOf(|ids|, parts)) && WellPlaced(ids, bounds) && Between(ids, bounds, ranges)
    ensures CountsAreExact(ids, ranges) <==> AllSkippedOrFirst(ids, CutsOf(|ids|, parts))
    ensures Distinct(ids) ==> CountsAreExact(ids, ranges)
  {
    CutsAscend(|ids|, parts);
    FirstBoundsIff(ids, CutsOf(|ids|, parts));
    ExactIffFirst(ids, bounds, ranges);
    if Distinct(ids) {
      assert forall b <- bounds :: IsFirst(ids, b);
    }
  }

  /** A sample with duplicates whose counts are off: the first range holds one of the two it counts. */
  lemma CountsCanBeOff()
    ensures Sorted([1, 2, 2, 2]) && CutsOf(4, 2) == [2] && BoundsOf([1, 2, 2, 2], [2]) == [Bound(2, 2)]
    ensures Between([1, 2, 2, 2], [Bound(2, 2)], [Range(Scope(None, Some(2)), 2), Range(Scope(Some(2), None), 2)])
    ensures Members([1, 2, 2, 2], Scope(None, Some(2))) == {0}
  {
    assert A.Cut(1, 4, 2) == 2;
    assert [2][..0] == [];
  }
}
