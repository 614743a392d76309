/**
 * The plan of a sharded collection, and the predicate that targets a shard (src/core/background-shard.js:345-443,
 * src/core/background-partition.js:31-35, 141-144).
 */
module ShardPlan {
  import opened Wrappers
  import opened ShardKeys
  import opened ChunkRuns
  import opened ShardSplits
  import A = Arithmetic

  const PARTITIONS_PER_SHARD: nat := 8

  datatype Settings = Settings(overPartition: nat, maxPartitions: nat, minPartitionDocs: nat)

  datatype Slice = Slice(run: Run, estimate: nat)

  predicate Sensible(settings: Settings) {
    settings.overPartition >= 1 && settings.maxPartitions >= 1 && settings.minPartitionDocs >= 1
  }

  function Min(a: nat, b: nat): nat { if a < b then a else b }

  function Max(a: nat, b: nat): nat { if a > b then a else b }

  function TargetPartitions(settings: Settings, maxParallel: nat): nat {
    if maxParallel == 1 then 1 else Max(1, Min(settings.overPartition * maxParallel, settings.maxPartitions))
  }

  // ---- Targeting

  /** The classes a predicate is drawn on are those MQL compares like the index does. */
  datatype Targeting = NoPredicate | Range(gte: Key, lt: Key) | RangeTo(gte: Key, lte: Key)

  predicate IsEdge(t: Tuple) {
    forall i | 0 <= i < |t| :: t[i] == MinKey
  }

  /** `drawable`: the classes a predicate may be drawn on. */
  function Target(run: Run, firstIsHashed: bool, drawable: set<nat>): Targeting
    requires run.min != [] && run.max != []
  {
    var lo, hi := run.min[0], run.max[0];
    if firstIsHashed || IsBound(lo) || IsBound(hi) || lo.cls !in drawable || lo.cls != hi.cls then NoPredicate
    else if IsEdge(run.max[1..]) then Range(lo, hi) else RangeTo(lo, hi)
  }

  /** MQL's comparisons: within one class only. */
  predicate SameClass(a: Key, b: Key) {
    a.V? && b.V? && a.cls == b.cls
  }

  predicate Matches(targeting: Targeting, first: Key) {
    match targeting
    case NoPredicate => true
    case Range(gte, lt) => SameClass(first, gte) && SameClass(first, lt) && !KeyLess(first, gte) && KeyLess(first, lt)
    case RangeTo(gte, lte) => SameClass(first, gte) && SameClass(first, lte) && !KeyLess(first, gte) && !KeyLess(lte, first)
  }

  lemma {:induction false} NothingBelowEdge(t: Tuple, edge: Tuple)
    requires IsEdge(edge)
    ensures !Less(t, edge)
    decreases |t|
  {
    if t != [] && edge != [] {
      NothingBelowEdge(t[1..], edge[1..]);
    }
  }

  /** The predicate leaves out no tuple of the range. */
  lemma {:induction false} TargetLeavesNothingOut(run: Run, firstIsHashed: bool, drawable: set<nat>, t: Tuple)
    requires run.min != [] && run.max != [] && |t| == |run.min| == |run.max| && Holds(run, t)
    ensures Matches(Target(run, firstIsHashed, drawable), t[0])
  {
    if IsEdge(run.max[1..]) {
      NothingBelowEdge(t[1..], run.max[1..]);
    }
  }

  /** And where the rest of `max` is MinKey it does not draw in the value the next range starts with. */
  lemma {:induction false} TargetStopsBeforeTheNext(run: Run, drawable: set<nat>)
    requires run.min != [] && run.max != [] && IsEdge(run.max[1..])
    ensures !Target(run, false, drawable).NoPredicate? ==> !Matches(Target(run, false, drawable), run.max[0])
  {
  }

  /** It is drawn wherever it can be: on a ranged first field, between two values of one class it may be drawn on. */
  lemma TargetIsDrawnIff(run: Run, firstIsHashed: bool, drawable: set<nat>)
    requires run.min != [] && run.max != []
    ensures
      Target(run, firstIsHashed, drawable).NoPredicate? <==>
        !(!firstIsHashed && run.min[0].V? && run.max[0].V? && run.min[0].cls == run.max[0].cls && run.min[0].cls in drawable)
  {
  }

  /** And it matches nothing outside the first field's range. */
  lemma TargetStaysInside(run: Run, firstIsHashed: bool, drawable: set<nat>, first: Key)
    requires run.min != [] && run.max != [] && !Target(run, firstIsHashed, drawable).NoPredicate?
    ensures Matches(Target(run, firstIsHashed, drawable), first) ==>
              first.V? && first.cls == run.min[0].cls && run.min[0].val <= first.val <= run.max[0].val
  {
  }

  // ---- Largest first

  predicate Descending(slices: seq<Slice>) {
    forall i, j | 0 <= i < j < |slices| :: slices[i].estimate >= slices[j].estimate
  }

  /** Where a slice goes in a sorted list: after those as large, so equal ones keep their order. */
  function Placed(slice: Slice, sorted: seq<Slice>): seq<Slice> {
    if sorted == [] || slice.estimate > sorted[0].estimate then [slice] + sorted
    else [sorted[0]] + Placed(slice, sorted[1..])
  }

  function LargestFirst(slices: seq<Slice>): seq<Slice> {
    if slices == [] then [] else Placed(slices[|slices| - 1], LargestFirst(slices[..|slices| - 1]))
  }

  lemma {:induction false} PlacedHasAll(slice: Slice, sorted: seq<Slice>)
    ensures multiset(Placed(slice, sorted)) == multiset(sorted) + multiset{slice}
    decreases |sorted|
  {
    if sorted != [] && slice.estimate <= sorted[0].estimate {
      PlacedHasAll(slice, sorted[1..]);
      assert sorted == [sorted[0]] + sorted[1..];
    }
  }

  lemma {:induction false} PlacedIsDescending(slice: Slice, sorted: seq<Slice>)
    requires Descending(sorted)
    ensures Descending(Placed(slice, sorted))
    ensures forall s <- Placed(slice, sorted) :: s == slice || s in sorted
    decreases |sorted|
  {
    if sorted != [] && slice.estimate <= sorted[0].estimate {
      PlacedIsDescending(slice, sorted[1..]);
      var rest := Placed(slice, sorted[1..]);
      forall j | 0 <= j < |rest| ensures sorted[0].estimate >= rest[j].estimate {
        assert rest[j] in rest;
      }
    }
  }

  function RunsIn(slices: seq<Slice>): seq<Run> {
    seq(|slices|, i requires 0 <= i < |slices| => slices[i].run)
  }

  lemma {:induction false} PlacedHoldsAsMany(slice: Slice, sorted: seq<Slice>, t: Tuple)
    ensures HolderCount(RunsIn(Placed(slice, sorted)), t) ==
            HolderCount(RunsIn(sorted), t) + if Holds(slice.run, t) then 1 else 0
    decreases |sorted|
  {
    if sorted == [] || slice.estimate > sorted[0].estimate {
      assert RunsIn([slice] + sorted)[1..] == RunsIn(sorted);
    } else {
      PlacedHoldsAsMany(slice, sorted[1..], t);
      assert RunsIn([sorted[0]] + Placed(slice, sorted[1..]))[1..] == RunsIn(Placed(slice, sorted[1..]));
      assert RunsIn(sorted)[1..] == RunsIn(sorted[1..]);
    }
  }

  lemma {:induction false} LargestFirstIsDescending(slices: seq<Slice>)
    ensures Descending(LargestFirst(slices))
    decreases |slices|
  {
    if slices != [] {
      LargestFirstIsDescending(slices[..|slices| - 1]);
      PlacedIsDescending(slices[|slices| - 1], LargestFirst(slices[..|slices| - 1]));
    }
  }

  lemma {:induction false} LargestFirstHasAll(slices: seq<Slice>)
    ensures multiset(LargestFirst(slices)) == multiset(slices)
    decreases |slices|
  {
    if slices != [] {
      var n := |slices| - 1;
      LargestFirstHasAll(slices[..n]);
      PlacedHasAll(slices[n], LargestFirst(slices[..n]));
      assert slices == slices[..n] + [slices[n]];
    }
  }

  lemma {:induction false} LastSliceHolds(slices: seq<Slice>, t: Tuple)
    requires slices != []
    ensures
      var n := |slices| - 1;
      HolderCount(RunsIn(slices), t) == HolderCount(RunsIn(slices[..n]), t) + if Holds(slices[n].run, t) then 1 else 0
  {
    var n := |slices| - 1;
    HolderCountOfBoth(RunsIn(slices[..n]), [slices[n].run], t);
    assert RunsIn(slices) == RunsIn(slices[..n]) + [slices[n].run];
    assert HolderCount([slices[n].run][1..], t) == 0;
  }

  lemma {:induction false} LargestFirstHoldsAsMany(slices: seq<Slice>, t: Tuple)
    ensures HolderCount(RunsIn(LargestFirst(slices)), t) == HolderCount(RunsIn(slices), t)
    decreases |slices|
  {
    if slices != [] {
      var n := |slices| - 1;
      LargestFirstHoldsAsMany(slices[..n], t);
      PlacedHoldsAsMany(slices[n], LargestFirst(slices[..n]), t);
      LastSliceHolds(slices, t);
    }
  }

  /** Sorting moves slices about: none is lost, added or changed, and the largest come first. */
  lemma {:induction false} LargestFirstIsAReordering(slices: seq<Slice>, t: Tuple)
    ensures Descending(LargestFirst(slices)) && multiset(LargestFirst(slices)) == multiset(slices)
    ensures HolderCount(RunsIn(LargestFirst(slices)), t) == HolderCount(RunsIn(slices), t)
  {
    LargestFirstIsDescending(slices);
    LargestFirstHasAll(slices);
    LargestFirstHoldsAsMany(slices, t);
  }

  // ---- The plan

  predicate WithinShard(chunks: seq<Chunk>, run: Run, i: nat, j: nat) {
    && i < j <= |chunks| && (forall k | i <= k < j :: Some(chunks[k].shard) == run.shard)
    && AtMost(chunks[i].min, run.min) && AtMost(run.max, chunks[j - 1].max)
  }

  /** A range with a group lies within chunks of that shard only. */
  ghost predicate OnItsShard(chunks: seq<Chunk>, run: Run) {
    run.shard.Some? ==> exists i, j :: WithinShard(chunks, run, i, j)
  }

  lemma {:induction false} LinkedStaysInside(runs: seq<Run>, width: nat, min: Tuple, max: Tuple, k: nat)
    requires Linked(runs, width, min, max) && k < |runs|
    ensures AtMost(min, runs[k].min) && AtMost(runs[k].max, max)
    decreases |runs|
  {
    if |runs| > 1 {
      var mid := runs[0].max;
      assert Linked(runs[1..], width, mid, max);
      LinkedHoldOnce(runs[1..], width, mid, max, min);
      if k > 0 {
        LinkedStaysInside(runs[1..], width, mid, max, k - 1);
        if mid != runs[k].min { LessIsTransitive(min, mid, runs[k].min); }
      }
    }
  }

  lemma {:induction false} PiecesStayOnTheirShard(chunks: seq<Chunk>, width: nat, run: Run, i: nat, j: nat, pieces: seq<Run>, k: nat)
    requires StandsAt(chunks, run, i, j) && Linked(pieces, width, run.min, run.max) && PiecesOf(run, pieces) && k < |pieces|
    ensures OnItsShard(chunks, pieces[k])
  {
    LinkedStaysInside(pieces, width, run.min, run.max, k);
    if run.shard.Some? {
      assert WithinShard(chunks, pieces[k], i, j);
    }
  }

  /** How many of the runs are on a shard. */
  function RunsOn(runs: seq<Run>, shard: Option<string>): nat {
    if runs == [] then 0 else RunsOn(runs[..|runs| - 1], shard) + if runs[|runs| - 1].shard == shard then 1 else 0
  }

  /** Which of the first n runs are on a shard. */
  ghost function OnShard(runs: seq<Run>, shard: Option<string>, n: nat): set<nat>
    requires n <= |runs|
  {
    set i: nat | i < n && runs[i].shard == shard
  }

  lemma {:induction false} RunsOnCounts(runs: seq<Run>, shard: Option<string>, n: nat)
    requires n <= |runs|
    ensures RunsOn(runs[..n], shard) == |OnShard(runs, shard, n)|
    decreases n
  {
    if n == 0 {
      assert OnShard(runs, shard, 0) == {};
    } else {
      RunsOnCounts(runs, shard, n - 1);
      assert runs[..n][..n - 1] == runs[..n - 1];
      var before := OnShard(runs, shard, n - 1);
      assert OnShard(runs, shard, n) == if runs[n - 1].shard == shard then before + {n - 1} else before;
    }
  }

  lemma {:induction false} RunsOnIsPositive(runs: seq<Run>, i: nat)
    requires i < |runs|
    ensures RunsOn(runs, runs[i].shard) > 0
    decreases |runs|
  {
    if i < |runs| - 1 {
      assert runs[..|runs| - 1][i] == runs[i];
      RunsOnIsPositive(runs[..|runs| - 1], i);
    }
  }

  /** What a plan is made with: how many pieces a shard, a plan and the collection are good for. */
  datatype Ask = Ask(width: nat, firstIsHashed: bool, sampleOf: Run -> Option<seq<Tuple>>,
                     perShard: nat, budget: nat, wanted: nat, count: nat)

  /** How many pieces the i-th run is to be split into. */
  function PartsFor(ask: Ask, runs: seq<Run>, i: nat): nat
    requires i < |runs|
  {
    RunsOnIsPositive(runs, i);
    Min(A.Ceil(ask.perShard, RunsOn(runs, runs[i].shard)), Min(Max(1, A.Floor(ask.budget, |runs|)), ask.wanted))
  }

  /** As many as the budget, the wanted and the shard's share allow. */
  ghost predicate IsAllowed(ask: Ask, runs: seq<Run>, i: nat, p: nat)
    requires i < |runs|
  {
    p <= ask.wanted && p * |runs| <= ask.budget && (p - 1) * RunsOn(runs, runs[i].shard) < ask.perShard
  }

  /**
   * It is the most that is allowed: no more than wanted, the runs together within the budget, and a shard's
   * runs together no more than its share — but for the last one of each, which rounds it up.
   */
  lemma PartsForIsTheMost(ask: Ask, runs: seq<Run>, i: nat)
    requires i < |runs| && ask.perShard >= 1 && ask.wanted >= 1 && ask.budget >= |runs|
    ensures PartsFor(ask, runs, i) >= 1 && IsAllowed(ask, runs, i, PartsFor(ask, runs, i))
    ensures !IsAllowed(ask, runs, i, PartsFor(ask, runs, i) + 1)
  {
    RunsOnIsPositive(runs, i);
    var r, n := RunsOn(runs, runs[i].shard), |runs|;
    var share, room := A.Ceil(ask.perShard, r), A.Floor(ask.budget, n);
    var p := PartsFor(ask, runs, i);
    A.CeilCovers(ask.perShard, r);
    A.DivBounds(ask.perShard + r - 1, r);
    A.DivAtLeast(ask.budget, 1, n);
    A.DivBounds(ask.budget, n);
    A.MulMono(p, room, n);
    A.MulMono(p - 1, share - 1, r);
    A.Distribute(share - 1, 1, r);
    if p == share {
      assert share * r == r * share;
    } else if p == room {
      assert (room + 1) * n > ask.budget;
    }
  }

  /** How many pieces the shard's runs among the first n are to be split into, all together. */
  function PartsOn(ask: Ask, runs: seq<Run>, shard: Option<string>, n: nat): nat
    requires n <= |runs|
  {
    if n == 0 then 0
    else PartsOn(ask, runs, shard, n - 1) + if runs[n - 1].shard == shard then PartsFor(ask, runs, n - 1) else 0
  }

  lemma {:induction false} PartsOnIsAProduct(ask: Ask, runs: seq<Run>, i: nat, n: nat)
    requires i < |runs| && n <= |runs|
    ensures PartsOn(ask, runs, runs[i].shard, n) == RunsOn(runs[..n], runs[i].shard) * PartsFor(ask, runs, i)
    decreases n
  {
    if n > 0 {
      PartsOnIsAProduct(ask, runs, i, n - 1);
      assert runs[..n][..n - 1] == runs[..n - 1];
      A.Distribute(RunsOn(runs[..n - 1], runs[i].shard), 1, PartsFor(ask, runs, i));
    }
  }

  /** A shard gets its share, rounded up to a whole number a run, unless the budget or the wanted are less. */
  lemma AShardGetsItsShare(ask: Ask, runs: seq<Run>, i: nat)
    requires i < |runs| && ask.perShard >= 1 && ask.wanted >= 1 && ask.budget >= |runs|
    ensures
      var parts, r, p := PartsOn(ask, runs, runs[i].shard, |runs|), RunsOn(runs, runs[i].shard), PartsFor(ask, runs, i);
      && parts < ask.perShard + r
      && (parts >= ask.perShard || p == ask.wanted || (p + 1) * |runs| > ask.budget)
  {
    PartsForIsTheMost(ask, runs, i);
    PartsOnIsAProduct(ask, runs, i, |runs|);
    assert runs[..|runs|] == runs;
    ShareOf(ask, RunsOn(runs, runs[i].shard), PartsFor(ask, runs, i), |runs|);
  }

  lemma ShareOf(ask: Ask, r: nat, p: nat, n: nat)
    requires p >= 1 && (p - 1) * r < ask.perShard
    requires p + 1 > ask.wanted || (p + 1) * n > ask.budget || p * r >= ask.perShard
    ensures r * p < ask.perShard + r && (r * p >= ask.perShard || p + 1 > ask.wanted || (p + 1) * n > ask.budget)
  {
    A.Distribute(p - 1, 1, r);
  }

  /** What the cluster is asked for: sorted samples of a run, or none in time. */
  ghost predicate Answers(width: nat, sampleOf: Run -> Option<seq<Tuple>>) {
    forall run :: IsRun(run, width) && sampleOf(run).Some? ==> IsSample(run, width, sampleOf(run).value)
  }

  predicate Splittable(run: Run, width: nat, firstIsHashed: bool) {
    width > 0 && |run.min| == |run.max| == width && Less(run.min, run.max) && (firstIsHashed ==> IsHashRun(run, width))
  }

  /** The pieces of one run. */
  function PiecesFor(ask: Ask, run: Run, parts: nat): seq<Run>
    requires Splittable(run, ask.width, ask.firstIsHashed)
  {
    if parts <= 1 then [run]
    else if ask.firstIsHashed then HashedPieces(run, ask.width, parts)
    else SampledPieces(run, ask.sampleOf(run), parts)
  }

  /** The run can be cut into as many: by its hashes, or at different quantiles of a sample. */
  predicate Divides(ask: Ask, run: Run, parts: nat)
    requires Splittable(run, ask.width, ask.firstIsHashed)
  {
    || parts <= 1
    || (ask.firstIsHashed && HashAt(run.max[0]) - HashAt(run.min[0]) >= 2 * parts)
    || (!ask.firstIsHashed && CanBeSampled(run, ask.sampleOf(run), parts)
        && NoneRepeats(Quantiles(ask.sampleOf(run).value, parts, parts - 1)))
  }

  /** It is, exactly if it can be; there are never more. */
  lemma PiecesAreAllIff(ask: Ask, run: Run, parts: nat)
    requires Splittable(run, ask.width, ask.firstIsHashed)
    ensures 1 <= |PiecesFor(ask, run, parts)| <= Max(1, parts)
    ensures |PiecesFor(ask, run, parts)| == Max(1, parts) <==> Divides(ask, run, parts)
  {
    if parts > 1 && !ask.firstIsHashed && CanBeSampled(run, ask.sampleOf(run), parts) {
      AllAreDifferentIff(Quantiles(ask.sampleOf(run).value, parts, parts - 1));
    }
  }

  method SplitRun(ask: Ask, run: Run, parts: nat) returns (pieces: seq<Run>)
    requires Splittable(run, ask.width, ask.firstIsHashed) && Answers(ask.width, ask.sampleOf)
    ensures Linked(pieces, ask.width, run.min, run.max) && PiecesOf(run, pieces) && |pieces| <= Max(1, parts)
    ensures pieces == PiecesFor(ask, run, parts)
    ensures |pieces| == Max(1, parts) <==> Divides(ask, run, parts)
  {
    PiecesAreAllIff(ask, run, parts);
    if parts <= 1 {
      pieces := [run];
    } else if ask.firstIsHashed {
      pieces := SplitHashed(run, ask.width, parts);
    } else {
      var degraded;
      pieces, degraded := SplitSampled(run, ask.width, ask.sampleOf(run), parts);
    }
  }

  function SlicesOf(pieces: seq<Run>, estimate: nat): (slices: seq<Slice>)
    ensures |slices| == |pieces| && RunsIn(slices) == pieces
  {
    if pieces == [] then []
    else
      var init, last := SlicesOf(pieces[..|pieces| - 1], estimate), Slice(pieces[|pieces| - 1], estimate);
      assert RunsIn(init + [last]) == RunsIn(init) + [last.run];
      init + [last]
  }

  // ---- All the runs

  predicate AllSplittable(ask: Ask, runs: seq<Run>) {
    forall i | 0 <= i < |runs| :: Splittable(runs[i], ask.width, ask.firstIsHashed)
  }

  /** How many documents a piece of the i-th run is taken to hold: the run's share by chunks, evenly. */
  function EstimateFor(ask: Ask, runs: seq<Run>, i: nat, pieces: nat): nat
    requires i < |runs|
  {
    A.Round(ask.count * runs[i].chunks, ChunksIn(runs, 0, |runs|) * pieces)
  }

  /** How many pieces each of the first n runs is to be split into. */
  function PartsOf(ask: Ask, runs: seq<Run>, n: nat): (parts: seq<nat>)
    requires n <= |runs|
    ensures |parts| == n
  {
    if n == 0 then [] else PartsOf(ask, runs, n - 1) + [PartsFor(ask, runs, n - 1)]
  }

  lemma {:induction false} PartsOfAt(ask: Ask, runs: seq<Run>, n: nat, i: nat)
    requires i < n <= |runs|
    ensures PartsOf(ask, runs, n)[i] == PartsFor(ask, runs, i)
    decreases n
  {
    if i < n - 1 {
      PartsOfAt(ask, runs, n - 1, i);
    }
  }

  function SlicesFor(ask: Ask, runs: seq<Run>, i: nat, parts: nat): (slices: seq<Slice>)
    requires AllSplittable(ask, runs) && i < |runs|
    ensures |slices| == |PiecesFor(ask, runs[i], parts)|
  {
    var pieces := PiecesFor(ask, runs[i], parts);
    SlicesOf(pieces, EstimateFor(ask, runs, i, |pieces|))
  }

  /** The slices of the first n runs, in key order. */
  function AllSlices(ask: Ask, runs: seq<Run>, parts: seq<nat>, n: nat): seq<Slice>
    requires AllSplittable(ask, runs) && n <= |runs| == |parts|
  {
    if n == 0 then [] else AllSlices(ask, runs, parts, n - 1) + SlicesFor(ask, runs, n - 1, parts[n - 1])
  }

  /** How many pieces the first n runs are to be split into. */
  function SumOf(parts: seq<nat>, n: nat): nat
    requires n <= |parts|
  {
    if n == 0 then 0 else SumOf(parts, n - 1) + Max(1, parts[n - 1])
  }

  /** Every one of the first n runs can be cut into as many pieces as it is to be. */
  predicate AllDivide(ask: Ask, runs: seq<Run>, parts: seq<nat>, n: nat)
    requires AllSplittable(ask, runs) && n <= |runs| == |parts|
  {
    forall i | 0 <= i < n :: Divides(ask, runs[i], parts[i])
  }

  /** How many pieces each of the first n runs is split into. */
  function SizesOf(ask: Ask, runs: seq<Run>, parts: seq<nat>, n: nat): (sizes: seq<nat>)
    requires AllSplittable(ask, runs) && n <= |runs| == |parts|
    ensures |sizes| == n && forall i | 0 <= i < n :: sizes[i] == |PiecesFor(ask, runs[i], parts[i])|
  {
    if n == 0 then [] else SizesOf(ask, runs, parts, n - 1) + [|PiecesFor(ask, runs[n - 1], parts[n - 1])|]
  }

  function Sum(sizes: seq<nat>): nat {
    if sizes == [] then 0 else Sum(sizes[..|sizes| - 1]) + sizes[|sizes| - 1]
  }

  lemma {:induction false} SizesAddUp(ask: Ask, runs: seq<Run>, parts: seq<nat>, n: nat)
    requires AllSplittable(ask, runs) && n <= |runs| == |parts|
    ensures |AllSlices(ask, runs, parts, n)| == Sum(SizesOf(ask, runs, parts, n))
    decreases n
  {
    if n > 0 {
      SizesAddUp(ask, runs, parts, n - 1);
      var sizes := SizesOf(ask, runs, parts, n);
      assert sizes[..n - 1] == SizesOf(ask, runs, parts, n - 1);
    }
  }

  lemma {:induction false} SumsAreEqualIff(sizes: seq<nat>, parts: seq<nat>)
    requires |sizes| <= |parts| && forall i | 0 <= i < |sizes| :: 1 <= sizes[i] <= Max(1, parts[i])
    ensures |sizes| <= Sum(sizes) <= SumOf(parts, |sizes|)
    ensures Sum(sizes) == SumOf(parts, |sizes|) <==> forall i | 0 <= i < |sizes| :: sizes[i] == Max(1, parts[i])
    decreases |sizes|
  {
    if sizes != [] {
      var init := sizes[..|sizes| - 1];
      SumsAreEqualIff(init, parts);
      assert sizes == init + [sizes[|sizes| - 1]];
    }
  }

  /** At least one slice a run, at most the pieces it is to be split into — these exactly if all can be. */
  lemma {:induction false} AllAreSplitIff(ask: Ask, runs: seq<Run>, parts: seq<nat>)
    requires AllSplittable(ask, runs) && |runs| == |parts|
    ensures |runs| <= |AllSlices(ask, runs, parts, |runs|)| <= SumOf(parts, |runs|)
    ensures |AllSlices(ask, runs, parts, |runs|)| == SumOf(parts, |runs|) <==> AllDivide(ask, runs, parts, |runs|)
  {
    var sizes := SizesOf(ask, runs, parts, |runs|);
    SizesAddUp(ask, runs, parts, |runs|);
    forall i | 0 <= i < |runs|
      ensures 1 <= sizes[i] <= Max(1, parts[i]) && (sizes[i] == Max(1, parts[i]) <==> Divides(ask, runs[i], parts[i]))
    {
      PiecesAreAllIff(ask, runs[i], parts[i]);
    }
    SumsAreEqualIff(sizes, parts);
  }

  // ---- The estimates

  function Estimated(slices: seq<Slice>): nat {
    if slices == [] then 0 else Estimated(slices[..|slices| - 1]) + slices[|slices| - 1].estimate
  }

  lemma {:induction false} EstimatedOfBoth(a: seq<Slice>, b: seq<Slice>)
    ensures Estimated(a + b) == Estimated(a) + Estimated(b)
  {
    if b == [] {
      assert a + b == a;
    } else {
      EstimatedOfBoth(a, b[..|b| - 1]);
      assert (a + b)[..|a + b| - 1] == a + b[..|b| - 1];
    }
  }

  lemma {:induction false} EstimatedOfSame(pieces: seq<Run>, estimate: nat)
    ensures Estimated(SlicesOf(pieces, estimate)) == |pieces| * estimate
  {
    if pieces != [] {
      var n := |pieces| - 1;
      EstimatedOfSame(pieces[..n], estimate);
      var slices := SlicesOf(pieces, estimate);
      assert slices[..n] == SlicesOf(pieces[..n], estimate);
      A.Distribute(n, 1, estimate);
    }
  }

  /** `sum` is count * c / total, but for a half of each of n pieces. */
  predicate IsNear(sum: nat, count: nat, c: nat, total: nat, n: nat) {
    2 * (count * c) - total * n <= 2 * (total * sum) <= 2 * (count * c) + total * n
  }

  lemma OneRunIsNear(ask: Ask, runs: seq<Run>, i: nat, pieces: nat)
    requires i < |runs| && pieces > 0 && ChunksIn(runs, 0, |runs|) > 0
    ensures IsNear(pieces * EstimateFor(ask, runs, i, pieces), ask.count, runs[i].chunks, ChunksIn(runs, 0, |runs|), pieces)
  {
    var total, estimate := ChunksIn(runs, 0, |runs|), EstimateFor(ask, runs, i, pieces);
    A.MulMono(1, pieces, total);
    assert pieces * total == total * pieces;
    A.RoundIsNear(ask.count * runs[i].chunks, total * pieces);
    assert total * pieces * estimate == total * (pieces * estimate);
  }

  lemma NearAddUp(sum: nat, more: nat, count: nat, c: nat, d: nat, total: nat, m: nat, n: nat)
    requires IsNear(sum, count, c, total, m) && IsNear(more, count, d, total, n)
    ensures IsNear(sum + more, count, c + d, total, m + n)
  {
    assert total * (sum + more) == total * sum + total * more;
    assert count * (c + d) == count * c + count * d;
    assert total * (m + n) == total * m + total * n;
  }

  /** The slices of the first n runs are estimated to hold their share of the count. */
  ghost predicate NearSoFar(ask: Ask, runs: seq<Run>, parts: seq<nat>, n: nat)
    requires AllSplittable(ask, runs) && n <= |runs| == |parts|
  {
    var slices := AllSlices(ask, runs, parts, n);
    IsNear(Estimated(slices), ask.count, ChunksIn(runs, 0, n), ChunksIn(runs, 0, |runs|), |slices|)
  }

  lemma NearWithOneMore(ask: Ask, runs: seq<Run>, parts: seq<nat>, n: nat)
    requires AllSplittable(ask, runs) && n < |runs| == |parts| && ChunksIn(runs, 0, |runs|) > 0
    requires NearSoFar(ask, runs, parts, n)
    ensures NearSoFar(ask, runs, parts, n + 1)
  {
    SlicesForAreNear(ask, runs, n, parts[n]);
    NearTogether(AllSlices(ask, runs, parts, n), SlicesFor(ask, runs, n, parts[n]), AllSlices(ask, runs, parts, n + 1),
                 ask.count, ChunksIn(runs, 0, n), runs[n].chunks, ChunksIn(runs, 0, n + 1), ChunksIn(runs, 0, |runs|));
  }

  lemma NearTogether(
    before: seq<Slice>, more: seq<Slice>, all: seq<Slice>, count: nat, c: nat, d: nat, both: nat, total: nat)
    requires IsNear(Estimated(before), count, c, total, |before|) && IsNear(Estimated(more), count, d, total, |more|)
    requires all == before + more && both == c + d
    ensures IsNear(Estimated(all), count, both, total, |all|)
  {
    EstimatedOfBoth(before, more);
    NearAddUp(Estimated(before), Estimated(more), count, c, d, total, |before|, |more|);
  }

  lemma SlicesForAreNear(ask: Ask, runs: seq<Run>, i: nat, parts: nat)
    requires AllSplittable(ask, runs) && i < |runs| && ChunksIn(runs, 0, |runs|) > 0
    ensures IsNear(Estimated(SlicesFor(ask, runs, i, parts)), ask.count, runs[i].chunks, ChunksIn(runs, 0, |runs|),
                   |SlicesFor(ask, runs, i, parts)|)
  {
    var pieces := PiecesFor(ask, runs[i], parts);
    PiecesAreAllIff(ask, runs[i], parts);
    EstimatedOfSame(pieces, EstimateFor(ask, runs, i, |pieces|));
    OneRunIsNear(ask, runs, i, |pieces|);
  }

  lemma {:induction false} AllAreNear(ask: Ask, runs: seq<Run>, parts: seq<nat>, n: nat)
    requires AllSplittable(ask, runs) && n <= |runs| == |parts| && ChunksIn(runs, 0, |runs|) > 0
    ensures NearSoFar(ask, runs, parts, n)
    decreases n
  {
    if n > 0 {
      AllAreNear(ask, runs, parts, n - 1);
      NearWithOneMore(ask, runs, parts, n - 1);
    }
  }

  /** The estimates of all slices add up to the count, but for half a document a slice. */
  lemma EstimatesAddUp(ask: Ask, runs: seq<Run>, parts: seq<nat>)
    requires AllSplittable(ask, runs) && |runs| == |parts| && ChunksIn(runs, 0, |runs|) > 0
    ensures
      var slices := AllSlices(ask, runs, parts, |runs|);
      2 * ask.count - |slices| <= 2 * Estimated(slices) <= 2 * ask.count + |slices|
  {
    AllAreNear(ask, runs, parts, |runs|);
    var slices := AllSlices(ask, runs, parts, |runs|);
    Cancels(Estimated(slices), ask.count, ChunksIn(runs, 0, |runs|), |slices|);
  }

  lemma Cancels(sum: nat, count: nat, total: nat, n: nat)
    requires total > 0 && IsNear(sum, count, total, total, n)
    ensures 2 * count - n <= 2 * sum <= 2 * count + n
  {
    Scaled(2 * sum, total);
    Scaled(2 * count, total);
    if 2 * sum > 2 * count + n {
      A.MulMono(2 * count + n + 1, 2 * sum, total);
      A.Distribute(2 * count + n, 1, total);
      A.Distribute(2 * count, n, total);
    }
    if 2 * sum < 2 * count - n {
      A.MulMono(2 * sum + n + 1, 2 * count, total);
      A.Distribute(2 * sum + n, 1, total);
      A.Distribute(2 * sum, n, total);
    }
  }

  lemma Scaled(two: nat, total: nat)
    requires two % 2 == 0
    ensures two * total == 2 * (total * (two / 2))
  {
    A.Distribute(two / 2, two / 2, total);
  }

  /** The slices of the first i runs: end to end, on their shards, and not too many. */
  ghost predicate SplitSoFar(chunks: seq<Chunk>, runs: seq<Run>, width: nat, i: nat, slices: seq<Slice>, most: nat)
    requires i <= |runs|
  {
    && (if i == 0 then slices == [] else Linked(RunsIn(slices), width, runs[0].min, runs[i - 1].max))
    && |slices| <= i * most
    && (forall s <- slices :: OnItsShard(chunks, s.run))
  }

  lemma {:induction false} OneRunMore(chunks: seq<Chunk>, runs: seq<Run>, width: nat, min: Tuple, max: Tuple, i: nat,
                                          slices: seq<Slice>, most: nat, pieces: seq<Run>, estimate: nat)
    requires Linked(runs, width, min, max) && i < |runs| && SplitSoFar(chunks, runs, width, i, slices, most)
    requires Linked(pieces, width, runs[i].min, runs[i].max) && |pieces| <= most
    requires forall k | 0 <= k < |pieces| :: OnItsShard(chunks, pieces[k])
    ensures SplitSoFar(chunks, runs, width, i + 1, slices + SlicesOf(pieces, estimate), most)
  {
    var more := SlicesOf(pieces, estimate);
    assert RunsIn(slices + more) == RunsIn(slices) + pieces;
    if i > 0 {
      assert runs[i - 1].max == runs[i - 1 + 1].min;
      LinkedJoin(RunsIn(slices), pieces, width, runs[0].min, runs[i].min, runs[i].max);
    } else {
      assert RunsIn(slices) + pieces == pieces;
    }
    A.Distribute(i, 1, most);
    forall s | s in slices + more ensures OnItsShard(chunks, s.run) {
      if s in more {
        var k :| 0 <= k < |more| && more[k] == s;
        assert s.run == pieces[k];
      }
    }
  }

  /** What the runs stand for: chunks of one shard each, where they have one. */
  ghost predicate OnChunks(chunks: seq<Chunk>, runs: seq<Run>, cuts: seq<nat>) {
    forall i | 0 <= i < |runs| :: runs[i].shard.Some? ==> |cuts| == |runs| + 1 && RunStands(chunks, runs, cuts, i)
  }

  /** The first i runs are split. */
  ghost predicate SplitTo(ask: Ask, chunks: seq<Chunk>, runs: seq<Run>, i: nat, slices: seq<Slice>)
    requires AllSplittable(ask, runs) && i <= |runs| && runs != []
  {
    && slices == AllSlices(ask, runs, PartsOf(ask, runs, |runs|), i)
    && SplitSoFar(chunks, runs, ask.width, i, slices, Max(1, A.Floor(ask.budget, |runs|)))
  }

  lemma OneRunSplit(ask: Ask, chunks: seq<Chunk>, runs: seq<Run>, cuts: seq<nat>, min: Tuple, max: Tuple, i: nat,
                    slices: seq<Slice>)
    requires Linked(runs, ask.width, min, max) && AllSplittable(ask, runs) && OnChunks(chunks, runs, cuts)
    requires Answers(ask.width, ask.sampleOf) && i < |runs| && SplitTo(ask, chunks, runs, i, slices)
    ensures SplitTo(ask, chunks, runs, i + 1, slices + SlicesFor(ask, runs, i, PartsFor(ask, runs, i)))
  {
    var pieces := PiecesFor(ask, runs[i], PartsFor(ask, runs, i));
    PiecesForAreLinked(ask, runs[i], PartsFor(ask, runs, i));
    forall k | 0 <= k < |pieces| ensures OnItsShard(chunks, pieces[k]) {
      if runs[i].shard.Some? {
        PiecesStayOnTheirShard(chunks, ask.width, runs[i], cuts[i], cuts[i + 1], pieces, k);
      }
    }
    PartsOfAt(ask, runs, |runs|, i);
    OneRunMore(chunks, runs, ask.width, min, max, i, slices, Max(1, A.Floor(ask.budget, |runs|)), pieces,
               EstimateFor(ask, runs, i, |pieces|));
  }

  lemma PiecesForAreLinked(ask: Ask, run: Run, parts: nat)
    requires Splittable(run, ask.width, ask.firstIsHashed) && Answers(ask.width, ask.sampleOf)
    ensures
      var pieces := PiecesFor(ask, run, parts);
      Linked(pieces, ask.width, run.min, run.max) && PiecesOf(run, pieces) && |pieces| <= Max(1, parts)
  {
    if parts > 1 && ask.firstIsHashed {
      HashedPiecesAreLinked(run, ask.width, parts);
    } else if parts > 1 {
      SampledPiecesAreGood(run, ask.width, ask.sampleOf(run), parts);
    }
  }

  /** One run split, and each piece given its share of the estimate. */
  method SliceRun(ask: Ask, runs: seq<Run>, i: nat, totalChunks: nat) returns (slices: seq<Slice>)
    requires AllSplittable(ask, runs) && Answers(ask.width, ask.sampleOf) && i < |runs|
    requires totalChunks == ChunksIn(runs, 0, |runs|)
    ensures slices == SlicesFor(ask, runs, i, PartsFor(ask, runs, i))
  {
    var pieces := SplitRun(ask, runs[i], PartsFor(ask, runs, i));
    slices := SlicesOf(pieces, A.Round(ask.count * runs[i].chunks, totalChunks * |pieces|));
  }

  /** All runs split. */
  method SplitRuns(ask: Ask, chunks: seq<Chunk>, runs: seq<Run>, ghost cuts: seq<nat>, ghost min: Tuple, ghost max: Tuple)
    returns (slices: seq<Slice>)
    requires Linked(runs, ask.width, min, max) && Answers(ask.width, ask.sampleOf) && AllSplittable(ask, runs)
    requires OnChunks(chunks, runs, cuts)
    ensures slices == AllSlices(ask, runs, PartsOf(ask, runs, |runs|), |runs|)
    ensures SplitSoFar(chunks, runs, ask.width, |runs|, slices, Max(1, A.Floor(ask.budget, |runs|)))
  {
    slices := [];
    var totalChunks := ChunksIn(runs, 0, |runs|);
    for i := 0 to |runs|
      invariant SplitTo(ask, chunks, runs, i, slices)
    {
      var more := SliceRun(ask, runs, i, totalChunks);
      OneRunSplit(ask, chunks, runs, cuts, min, max, i, slices);
      slices := slices + more;
    }
  }

  lemma {:induction false} WithinBudget(n: nat, maxPartitions: nat)
    requires 0 < n <= maxPartitions
    ensures n * Max(1, A.Floor(Max(n, maxPartitions), n)) <= maxPartitions
  {
    A.DivBounds(maxPartitions, n);
    assert n * 1 == n && n * A.Floor(maxPartitions, n) == A.Floor(maxPartitions, n) * n;
  }

  /** The whole key space, where the chunks may not be read. */
  function Everything(width: nat): Run {
    Run(Edge(width), seq(width, _ => MaxKey), None, 1)
  }

  function CeilOf(count: nat, settings: Settings): nat
    requires Sensible(settings)
  {
    A.Ceil(count, settings.minPartitionDocs)
  }

  /** How many pieces a shard is good for; all the key space, where the chunks may not be read. */
  function PerShard(chunks: seq<Chunk>, settings: Settings, maxParallel: nat, shardConcurrency: nat): nat {
    var aim := TargetPartitions(settings, maxParallel);
    if chunks == [] then aim else Min(PARTITIONS_PER_SHARD, Min(settings.overPartition * shardConcurrency, aim))
  }

  function AskFor(chunks: seq<Chunk>, runs: seq<Run>, width: nat, firstIsHashed: bool, sampleOf: Run -> Option<seq<Tuple>>,
                  settings: Settings, maxParallel: nat, shardConcurrency: nat, count: nat): Ask
    requires Sensible(settings)
  {
    Ask(width, firstIsHashed, sampleOf, PerShard(chunks, settings, maxParallel, shardConcurrency),
        Max(|runs|, settings.maxPartitions), Max(1, Min(TargetPartitions(settings, maxParallel), CeilOf(count, settings))), count)
  }

  /** The runs a plan splits: the maximal ones, in blocks where there are too many; or the whole key space. */
  ghost predicate RunsToSplit(chunks: seq<Chunk>, width: nat, limit: nat, runs: seq<Run>) {
    if chunks == [] then runs == [Everything(width)]
    else exists all, cuts :: IsCapped(chunks, all, cuts, limit, runs)
  }

  ghost predicate IsCapped(chunks: seq<Chunk>, all: seq<Run>, cuts: seq<nat>, limit: nat, runs: seq<Run>) {
    && limit > 0 && Stands(chunks, |chunks|, all, cuts) && Maximal(all)
    && if |all| <= limit then runs == all else InBlocks(all, runs, A.Ceil(|all|, limit))
  }

  /** How many partitions a plan without chunks is to have: a few a lane, within the limit, none too small. */
  ghost predicate IsAsManyAsWanted(n: nat, settings: Settings, maxParallel: nat, count: nat)
    requires Sensible(settings)
  {
    if maxParallel == 1 then n == 1
    else
      && 1 <= n <= settings.maxPartitions && n <= Max(1, settings.overPartition * maxParallel)
      && (n - 1) * settings.minPartitionDocs < count
      && (n == settings.maxPartitions || n >= settings.overPartition * maxParallel || n * settings.minPartitionDocs >= count)
  }

  lemma EverythingIsSplitAsWanted(ask: Ask, settings: Settings, maxParallel: nat, shardConcurrency: nat, runs: seq<Run>)
    requires Sensible(settings) && runs == [Everything(ask.width)] && ask.count > 0
    requires ask == AskFor([], runs, ask.width, ask.firstIsHashed, ask.sampleOf, settings, maxParallel, shardConcurrency, ask.count)
    ensures IsAsManyAsWanted(PartsFor(ask, runs, 0), settings, maxParallel, ask.count)
    ensures PartsFor(ask, runs, 0) >= 1
  {
    var d, most := settings.minPartitionDocs, CeilOf(ask.count, settings);
    assert runs[..0] == [] && RunsOn(runs, None) == 1;
    assert A.Ceil(ask.perShard, 1) == ask.perShard && A.Floor(ask.budget, 1) == ask.budget;
    A.CeilCovers(ask.count, d);
    A.DivBounds(ask.count + d - 1, d);
    A.Distribute(most - 1, 1, d);
    A.MulMono(PartsFor(ask, runs, 0) - 1, most - 1, d);
    assert d * most == most * d;
  }

  lemma NoneIsTooSmall(p: nat, count: nat, d: nat)
    requires d >= 1 && count > 0 && 1 <= p <= A.Ceil(count, d)
    ensures (p - 1) * d < count && (p == A.Ceil(count, d) ==> p * d >= count)
  {
    A.CeilCovers(count, d);
    A.DivBounds(count + d - 1, d);
    A.Distribute(A.Ceil(count, d) - 1, 1, d);
    A.MulMono(p - 1, A.Ceil(count, d) - 1, d);
    assert d * p == p * d;
  }

  lemma AtLeastOneIsNeeded(count: nat, d: nat)
    requires d >= 1 && count > 0
    ensures A.Ceil(count, d) >= 1
  {
    A.DivAtLeast(count + d - 1, 1, d);
  }

  /** A few partitions a lane of the shard, and few a shard; no more than wanted in all; none too small. */
  ghost predicate IsAFewALane(ask: Ask, runs: seq<Run>, i: nat, settings: Settings, maxParallel: nat, shardConcurrency: nat)
    requires i < |runs|
  {
    var parts, r, p := PartsOn(ask, runs, runs[i].shard, |runs|), RunsOn(runs, runs[i].shard), PartsFor(ask, runs, i);
    && parts < PARTITIONS_PER_SHARD + r && parts < settings.overPartition * shardConcurrency + r
    && (maxParallel == 1 ==> p == 1) && (maxParallel > 1 ==> p <= settings.overPartition * maxParallel)
    && p * |runs| <= Max(|runs|, settings.maxPartitions) && (p - 1) * settings.minPartitionDocs < ask.count
    && (|| parts >= PARTITIONS_PER_SHARD || parts >= settings.overPartition * shardConcurrency
        || maxParallel <= 1 || parts >= settings.overPartition * maxParallel || parts >= settings.maxPartitions
        || p * settings.minPartitionDocs >= ask.count || (p + 1) * |runs| > Max(|runs|, settings.maxPartitions))
  }

  lemma AShardGetsAFewALane(chunks: seq<Chunk>, runs: seq<Run>, i: nat, ask: Ask, settings: Settings, maxParallel: nat,
                            shardConcurrency: nat)
    requires Sensible(settings) && chunks != [] && shardConcurrency >= 1 && ask.count > 0 && i < |runs|
    requires ask == AskFor(chunks, runs, ask.width, ask.firstIsHashed, ask.sampleOf, settings, maxParallel, shardConcurrency, ask.count)
    ensures IsAFewALane(ask, runs, i, settings, maxParallel, shardConcurrency)
  {
    A.MulMono(1, shardConcurrency, settings.overPartition);
    assert 1 * settings.overPartition == settings.overPartition
           && shardConcurrency * settings.overPartition == settings.overPartition * shardConcurrency;
    AtLeastOneIsNeeded(ask.count, settings.minPartitionDocs);
    PartsForIsTheMost(ask, runs, i);
    AShardGetsItsShare(ask, runs, i);
    RunsOnIsPositive(runs, i);
    PartsOnIsAProduct(ask, runs, i, |runs|);
    assert runs[..|runs|] == runs;
    A.MulMono(1, RunsOn(runs, runs[i].shard), PartsFor(ask, runs, i));
    NoneIsTooSmall(PartsFor(ask, runs, i), ask.count, settings.minPartitionDocs);
  }

  /**
   * The plan, from the chunks (`[]`: they may not be read, or there are none), the bounded count and what
   * sampling answers. Every tuple of the span is in exactly one partition and no other tuple in any; a
   * partition with a group lies on that shard; there are at most `maxPartitions`, the largest first. They
   * are the pieces of the runs: at least one a run, and as many as `PartsFor` says exactly if every run
   * divides; without chunks, as many as wanted.
   */
  method Plan(chunks: seq<Chunk>, width: nat, firstIsHashed: bool, sampleOf: Run -> Option<seq<Tuple>>,
              settings: Settings, maxParallel: nat, shardConcurrency: nat, count: nat)
    returns (partitions: seq<Slice>, ghost runs: seq<Run>)
    requires Sensible(settings) && width > 0 && Adjacent(chunks, width) && Answers(width, sampleOf)
    requires firstIsHashed ==> forall i | 0 <= i < |chunks| :: IsHashBound(chunks[i].min[0]) && IsHashBound(chunks[i].max[0])
    ensures count == 0 ==> partitions == []
    ensures count > 0 ==> PlanIs(chunks, width, settings, partitions) && RunsToSplit(chunks, width, settings.maxPartitions, runs)
    ensures count > 0 ==>
      var ask := AskFor(chunks, runs, width, firstIsHashed, sampleOf, settings, maxParallel, shardConcurrency, count);
      var parts := PartsOf(ask, runs, |runs|);
      && AllSplittable(ask, runs) && partitions == LargestFirst(AllSlices(ask, runs, parts, |runs|))
      && |runs| <= |partitions| <= SumOf(parts, |runs|)
      && (|partitions| == SumOf(parts, |runs|) <==> AllDivide(ask, runs, parts, |runs|))
      && (chunks == [] && AllDivide(ask, runs, parts, |runs|) ==>
            IsAsManyAsWanted(|partitions|, settings, maxParallel, count))
  {
    if count == 0 { return [], []; }
    var aim := TargetPartitions(settings, maxParallel);
    var toSplit, perShard := [Everything(width)], aim;
    ghost var cuts := [];
    if chunks != [] {
      var allRuns;
      ghost var allCuts;
      allRuns, allCuts := RunsOf(chunks);
      toSplit, cuts := CapRuns(chunks, allRuns, allCuts, settings.maxPartitions);
      perShard := Min(PARTITIONS_PER_SHARD, Min(settings.overPartition * shardConcurrency, aim));
      StandsIsLinked(chunks, width, toSplit, cuts);
      RunsAreSplittable(chunks, width, firstIsHashed, toSplit, cuts);
      assert IsCapped(chunks, allRuns, allCuts, settings.maxPartitions, toSplit);
    } else {
      EverythingIsARun(width);
    }
    runs := toSplit;
    var wanted := Max(1, Min(aim, CeilOf(count, settings)));
    var ask := Ask(width, firstIsHashed, sampleOf, perShard, Max(|toSplit|, settings.maxPartitions), wanted, count);
    var slices := SplitRuns(ask, chunks, toSplit, cuts, SpanMin(chunks, width), SpanMax(chunks, width));
    WithinBudget(|runs|, settings.maxPartitions);
    PlanHolds(chunks, width, settings, slices);
    partitions := LargestFirst(slices);
    PlanIsAllOfIt(ask, runs, settings, maxParallel, shardConcurrency, chunks);
  }

  lemma {:induction false} PlanIsAllOfIt(
    ask: Ask, runs: seq<Run>, settings: Settings, maxParallel: nat, shardConcurrency: nat, chunks: seq<Chunk>)
    requires Sensible(settings) && AllSplittable(ask, runs) && ask.count > 0
    requires ask == AskFor(chunks, runs, ask.width, ask.firstIsHashed, ask.sampleOf, settings, maxParallel, shardConcurrency, ask.count)
    requires chunks == [] ==> runs == [Everything(ask.width)]
    ensures
      var parts := PartsOf(ask, runs, |runs|);
      var n := |LargestFirst(AllSlices(ask, runs, parts, |runs|))|;
      && |runs| <= n <= SumOf(parts, |runs|)
      && (n == SumOf(parts, |runs|) <==> AllDivide(ask, runs, parts, |runs|))
      && (chunks == [] && AllDivide(ask, runs, parts, |runs|) ==> IsAsManyAsWanted(n, settings, maxParallel, ask.count))
  {
    var parts := PartsOf(ask, runs, |runs|);
    var slices := AllSlices(ask, runs, parts, |runs|);
    AllAreSplitIff(ask, runs, parts);
    LargestFirstHasAll(slices);
    assert |multiset(LargestFirst(slices))| == |multiset(slices)|;
    if chunks == [] {
      EverythingIsSplitAsWanted(ask, settings, maxParallel, shardConcurrency, runs);
      assert parts[0] == PartsFor(ask, runs, 0) && SumOf(parts, 1) == SumOf(parts, 0) + Max(1, parts[0]);
    }
  }

  function SpanMin(chunks: seq<Chunk>, width: nat): Tuple {
    if chunks == [] then Edge(width) else chunks[0].min
  }

  function SpanMax(chunks: seq<Chunk>, width: nat): Tuple {
    if chunks == [] then Everything(width).max else chunks[|chunks| - 1].max
  }

  /** What a plan is for: every tuple of the span in exactly one partition, each on its shard, and few enough. */
  ghost predicate PlanIs(chunks: seq<Chunk>, width: nat, settings: Settings, partitions: seq<Slice>) {
    && (forall t: Tuple | |t| == width ::
          HolderCount(RunsIn(partitions), t) == if AtMost(SpanMin(chunks, width), t) && Less(t, SpanMax(chunks, width)) then 1 else 0)
    && (forall s <- partitions :: OnItsShard(chunks, s.run))
    && |partitions| <= settings.maxPartitions && Descending(partitions)
  }

  lemma {:induction false} PlanHolds(chunks: seq<Chunk>, width: nat, settings: Settings, slices: seq<Slice>)
    requires Linked(RunsIn(slices), width, SpanMin(chunks, width), SpanMax(chunks, width))
    requires |slices| <= settings.maxPartitions && forall s <- slices :: OnItsShard(chunks, s.run)
    ensures PlanIs(chunks, width, settings, LargestFirst(slices))
  {
    LargestFirstIsAReordering(slices, []);
    assert |multiset(LargestFirst(slices))| == |multiset(slices)|;
    forall s | s in LargestFirst(slices) ensures OnItsShard(chunks, s.run) {
      assert s in multiset(slices);
    }
    forall t: Tuple | |t| == width
      ensures HolderCount(RunsIn(LargestFirst(slices)), t) ==
              if AtMost(SpanMin(chunks, width), t) && Less(t, SpanMax(chunks, width)) then 1 else 0
    {
      LargestFirstIsAReordering(slices, t);
      LinkedHoldOnce(RunsIn(slices), width, SpanMin(chunks, width), SpanMax(chunks, width), t);
    }
  }

  lemma {:induction false} EverythingIsARun(width: nat)
    requires width > 0
    ensures IsHashRun(Everything(width), width)
    ensures Linked([Everything(width)], width, Edge(width), Everything(width).max)
  {
  }

  lemma {:induction false} RunsAreSplittable(chunks: seq<Chunk>, width: nat, firstIsHashed: bool, runs: seq<Run>, cuts: seq<nat>)
    requires width > 0 && chunks != [] && Adjacent(chunks, width) && Stands(chunks, |chunks|, runs, cuts)
    requires firstIsHashed ==> forall i | 0 <= i < |chunks| :: IsHashBound(chunks[i].min[0]) && IsHashBound(chunks[i].max[0])
    ensures forall i | 0 <= i < |runs| :: Splittable(runs[i], width, firstIsHashed)
  {
    StandsIsLinked(chunks, width, runs, cuts);
    forall i | 0 <= i < |runs| ensures Splittable(runs[i], width, firstIsHashed) {
      assert RunStands(chunks, runs, cuts, i);
    }
  }
}
