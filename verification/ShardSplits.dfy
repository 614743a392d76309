/** Splitting one run of a sharded collection: by arithmetic on its hashes, or at a sample (src/core/background-shard.js:222-316). */
module ShardSplits {
  import opened Wrappers
  import opened ShardKeys
  import opened ChunkRuns
  import A = Arithmetic

  // ---- Hashed keys: by arithmetic

  const HASH_MIN := -0x8000_0000_0000_0000
  const HASH_END := 0x8000_0000_0000_0000

  /** The class of numbers, which a hash is. */
  const NUMBER: nat := 1

  predicate IsHashBound(key: Key) {
    key.V? ==> key.cls == NUMBER && HASH_MIN <= key.val < HASH_END
  }

  /** A hash bound as a number: MinKey and MaxKey at the ends of the 64-bit space. */
  function HashAt(key: Key): (h: int)
    requires IsHashBound(key)
    ensures HASH_MIN <= h <= HASH_END
  {
    match key
    case MinKey => HASH_MIN
    case MaxKey => HASH_END
    case V(_, val) => val
  }

  /** MinKey in every field. */
  function Edge(width: nat): Tuple {
    seq(width, _ => MinKey)
  }

  /** The boundary at a hash: MinKey in the other fields, so it is before every tuple of that hash. */
  function Boundary(hash: int, width: nat): Tuple
    requires width > 0
  {
    [V(NUMBER, hash)] + Edge(width - 1)
  }

  lemma {:induction false} EdgeIsFirst(t: Tuple)
    ensures t == Edge(|t|) || Less(Edge(|t|), t) || exists k :: 0 <= k < |t| && KeyLess(t[k], MinKey)
    decreases |t|
  {
    if t != [] {
      EdgeIsFirst(t[1..]);
      assert Edge(|t|)[1..] == Edge(|t| - 1);
      assert t == [t[0]] + t[1..];
    }
  }

  lemma BoundaryStartsItsHash(hash: int, t: Tuple)
    requires t != [] && t[0] == V(NUMBER, hash)
    ensures AtMost(Boundary(hash, |t|), t)
  {
    EdgeIsFirst(t[1..]);
    assert Boundary(hash, |t|)[1..] == Edge(|t| - 1) && t == [t[0]] + t[1..];
  }

  predicate IsHashRun(run: Run, width: nat) {
    && width > 0 && |run.min| == |run.max| == width && Less(run.min, run.max)
    && IsHashBound(run.min[0]) && IsHashBound(run.max[0])
  }

  /** What a split leaves as it is. */
  ghost predicate PiecesOf(run: Run, pieces: seq<Run>) {
    forall i | 0 <= i < |pieces| :: pieces[i].shard == run.shard && pieces[i].chunks == run.chunks
  }

  lemma HashOrder(run: Run, width: nat)
    requires IsHashRun(run, width)
    ensures HashAt(run.min[0]) <= HashAt(run.max[0])
  {
  }

  lemma BoundariesAscend(run: Run, width: nat, a: int, b: int)
    requires IsHashRun(run, width)
    requires HashAt(run.min[0]) <= a < b <= HashAt(run.max[0])
    ensures Less(Boundary(a, width), Boundary(b, width))
    ensures a > HashAt(run.min[0]) ==> Less(run.min, Boundary(a, width))
    ensures a < HashAt(run.max[0]) ==> Less(Boundary(a, width), run.max)
  {
  }

  /** The i-th of the boundaries of a split, and the run's own ends around them. */
  function HashCut(run: Run, width: nat, step: nat, parts: nat, i: nat): Tuple
    requires IsHashRun(run, width) && i <= parts
  {
    if i == 0 then run.min else if i == parts then run.max else Boundary(HashAt(run.min[0]) + step * i, width)
  }

  /** Where the i-th slice starts in the hash space. */
  function HashStart(run: Run, width: nat, step: nat, parts: nat, i: nat): int
    requires IsHashRun(run, width) && i <= parts
  {
    if i == parts then HashAt(run.max[0]) else HashAt(run.min[0]) + step * i
  }

  function HashPiece(run: Run, width: nat, step: nat, parts: nat, i: nat): Run
    requires IsHashRun(run, width) && i < parts
  {
    run.(min := HashCut(run, width, step, parts, i), max := HashCut(run, width, step, parts, i + 1))
  }

  ghost predicate IsHashSplit(run: Run, width: nat, step: nat, parts: nat, pieces: seq<Run>)
    requires IsHashRun(run, width)
  {
    |pieces| == parts && forall i | 0 <= i < |pieces| :: pieces[i] == HashPiece(run, width, step, parts, i)
  }

  lemma HashStartsAscend(run: Run, width: nat, step: nat, parts: nat, i: nat)
    requires IsHashRun(run, width) && parts > 0 && i < parts && step > 0
    requires step == (HashAt(run.max[0]) - HashAt(run.min[0])) / parts
    ensures
      var from, to := HashStart(run, width, step, parts, i), HashStart(run, width, step, parts, i + 1);
      && HashAt(run.min[0]) <= from < to <= HashAt(run.max[0])
      && step <= to - from < step + parts
      && (i > 0 ==> from > HashAt(run.min[0])) && (i + 1 < parts ==> to < HashAt(run.max[0]))
  {
    var lo, span := HashAt(run.min[0]), HashAt(run.max[0]) - HashAt(run.min[0]);
    HashOrder(run, width);
    A.DivBounds(span, parts);
    A.MulMono(i + 1, parts, step);
    A.Distribute(i, 1, step);
    A.Distribute(parts - 1, 1, step);
    A.Distribute(step, 1, parts);
    if i + 1 < parts {
      A.MulMono(i + 2, parts, step);
      A.Distribute(i + 1, 1, step);
    }
    assert step * parts == parts * step;
    if i > 0 { A.MulMono(1, i, step); }
  }

  /** The first n boundaries of a split at equal steps. */
  function HashBounds(run: Run, width: nat, step: nat, n: nat): (bounds: seq<Tuple>)
    requires IsHashRun(run, width)
    ensures |bounds| == n
  {
    if n == 0 then [] else HashBounds(run, width, step, n - 1) + [Boundary(HashAt(run.min[0]) + step * n, width)]
  }

  lemma {:induction false} HashBoundsAt(run: Run, width: nat, step: nat, n: nat, k: nat)
    requires IsHashRun(run, width) && k < n
    ensures HashBounds(run, width, step, n)[k] == Boundary(HashAt(run.min[0]) + step * (k + 1), width)
    decreases n
  {
    if k < n - 1 {
      HashBoundsAt(run, width, step, n - 1, k);
    }
  }

  /** Equal slices of the run's hash range; the run whole if that has fewer than two hashes a slice. */
  function HashedPieces(run: Run, width: nat, parts: nat): (pieces: seq<Run>)
    requires IsHashRun(run, width) && parts > 0
    ensures |pieces| == if HashAt(run.max[0]) - HashAt(run.min[0]) < 2 * parts then 1 else parts
  {
    var lo, hi := HashAt(run.min[0]), HashAt(run.max[0]);
    if hi - lo < 2 * parts then [run]
    else
      A.DivAtLeast(hi - lo, 2, parts);
      CutAt(run, HashBounds(run, width, (hi - lo) / parts, parts - 1))
  }

  /** The hash range of a run in equal slices: end to end over it, boundaries strictly inside, in 64 bits. */
  method SplitHashed(run: Run, width: nat, parts: nat) returns (pieces: seq<Run>)
    requires IsHashRun(run, width) && parts > 1
    ensures Linked(pieces, width, run.min, run.max) && PiecesOf(run, pieces) && |pieces| <= parts
    ensures
      var lo, hi := HashAt(run.min[0]), HashAt(run.max[0]);
      if hi - lo < 2 * parts then pieces == [run]
      else IsHashSplit(run, width, (hi - lo) / parts, parts, pieces)
    ensures pieces == HashedPieces(run, width, parts)
  {
    var lo, hi := HashAt(run.min[0]), HashAt(run.max[0]);
    HashOrder(run, width);
    if hi - lo < 2 * parts { return [run]; }
    var step := (hi - lo) / parts;
    A.DivAtLeast(hi - lo, 2, parts);
    pieces := [];
    var min := run.min;
    for i := 1 to parts
      invariant |pieces| == i - 1 && min == HashCut(run, width, step, parts, i - 1)
      invariant forall k | 0 <= k < |pieces| :: pieces[k] == HashPiece(run, width, step, parts, k)
    {
      var max := Boundary(lo + step * i, width);
      pieces := pieces + [run.(min := min, max := max)];
      min := max;
    }
    pieces := pieces + [run.(min := min, max := run.max)];
    HashSplitIsLinked(run, width, step, parts, pieces);
    HashSplitIsHashedPieces(run, width, parts, pieces);
  }

  lemma HashedPiecesAreASplit(run: Run, width: nat, parts: nat)
    requires IsHashRun(run, width) && parts > 1 && HashAt(run.max[0]) - HashAt(run.min[0]) >= 2 * parts
    ensures (HashAt(run.max[0]) - HashAt(run.min[0])) / parts > 0
    ensures IsHashSplit(run, width, (HashAt(run.max[0]) - HashAt(run.min[0])) / parts, parts, HashedPieces(run, width, parts))
  {
    var step := (HashAt(run.max[0]) - HashAt(run.min[0])) / parts;
    A.DivAtLeast(HashAt(run.max[0]) - HashAt(run.min[0]), 2, parts);
    var bounds := HashBounds(run, width, step, parts - 1);
    forall k | 0 <= k < parts ensures CutAt(run, bounds)[k] == HashPiece(run, width, step, parts, k) {
      CutAtPiece(run, bounds, k);
      if k > 0 {
        HashBoundsAt(run, width, step, parts - 1, k - 1);
      }
      if k < parts - 1 {
        HashBoundsAt(run, width, step, parts - 1, k);
      }
    }
  }

  lemma HashedPiecesAreLinked(run: Run, width: nat, parts: nat)
    requires IsHashRun(run, width) && parts > 1
    ensures
      var pieces := HashedPieces(run, width, parts);
      Linked(pieces, width, run.min, run.max) && PiecesOf(run, pieces) && |pieces| <= parts
  {
    var lo, hi := HashAt(run.min[0]), HashAt(run.max[0]);
    if hi - lo >= 2 * parts {
      HashedPiecesAreASplit(run, width, parts);
      HashSplitIsLinked(run, width, (hi - lo) / parts, parts, HashedPieces(run, width, parts));
    }
  }

  lemma HashSplitIsHashedPieces(run: Run, width: nat, parts: nat, pieces: seq<Run>)
    requires IsHashRun(run, width) && parts > 1 && HashAt(run.max[0]) - HashAt(run.min[0]) >= 2 * parts
    requires (HashAt(run.max[0]) - HashAt(run.min[0])) / parts >= 0
    requires IsHashSplit(run, width, (HashAt(run.max[0]) - HashAt(run.min[0])) / parts, parts, pieces)
    ensures pieces == HashedPieces(run, width, parts)
  {
    var step := (HashAt(run.max[0]) - HashAt(run.min[0])) / parts;
    var same := HashedPieces(run, width, parts);
    HashedPiecesAreASplit(run, width, parts);
    forall k | 0 <= k < parts ensures pieces[k] == same[k] {
      assert pieces[k] == HashPiece(run, width, step, parts, k) == same[k];
    }
  }

  lemma HashSplitIsLinked(run: Run, width: nat, step: nat, parts: nat, pieces: seq<Run>)
    requires IsHashRun(run, width) && parts > 1 && step > 0
    requires step == (HashAt(run.max[0]) - HashAt(run.min[0])) / parts
    requires IsHashSplit(run, width, step, parts, pieces)
    ensures Linked(pieces, width, run.min, run.max) && PiecesOf(run, pieces)
  {
    forall i | 0 <= i < parts ensures |pieces[i].min| == |pieces[i].max| == width && Less(pieces[i].min, pieces[i].max) {
      HashStartsAscend(run, width, step, parts, i);
      BoundariesAscend(run, width, HashStart(run, width, step, parts, i), HashStart(run, width, step, parts, i + 1));
      assert pieces[i] == HashPiece(run, width, step, parts, i);
    }
    forall i | 0 <= i < parts - 1 ensures pieces[i].max == pieces[i + 1].min {
      assert pieces[i] == HashPiece(run, width, step, parts, i) && pieces[i + 1] == HashPiece(run, width, step, parts, i + 1);
    }
  }

  /**
   * Every boundary of a hashed split lies strictly inside the run and in signed 64 bits, and the slices'
   * widths differ by less than `parts`.
   */
  lemma HashBoundariesFit(run: Run, width: nat, parts: nat, i: nat, j: nat)
    requires IsHashRun(run, width) && parts > 1 && HashAt(run.max[0]) - HashAt(run.min[0]) >= 2 * parts
    requires i < parts && j < parts
    ensures
      var lo, hi := HashAt(run.min[0]), HashAt(run.max[0]);
      var step := (hi - lo) / parts;
      && step > 0 && (i > 0 ==> lo < HashStart(run, width, step, parts, i) < hi)
      && (i > 0 ==> HashCut(run, width, step, parts, i)[0] == V(NUMBER, HashStart(run, width, step, parts, i)))
      && HASH_MIN <= HashStart(run, width, step, parts, i) < HASH_END
      && var wi := HashStart(run, width, step, parts, i + 1) - HashStart(run, width, step, parts, i);
         var wj := HashStart(run, width, step, parts, j + 1) - HashStart(run, width, step, parts, j);
         0 < wi && wi - wj < parts
  {
    var lo, hi := HashAt(run.min[0]), HashAt(run.max[0]);
    var step := (hi - lo) / parts;
    A.DivAtLeast(hi - lo, 2, parts);
    HashStartsAscend(run, width, step, parts, i);
    HashStartsAscend(run, width, step, parts, j);
  }

  // ---- Ranged keys: at a sample

  predicate IsBound(key: Key) {
    !key.V?
  }

  ghost predicate IsRun(run: Run, width: nat) {
    width > 0 && |run.min| == |run.max| == width && Less(run.min, run.max)
  }

  /** The sampled tuples are sorted, and their first field lies strictly inside the run. */
  ghost predicate IsSample(run: Run, width: nat, sample: seq<Tuple>)
    requires IsRun(run, width)
  {
    && (forall i | 0 <= i < |sample| ::
          && |sample[i]| == width && KeyLess(run.min[0], sample[i][0]) && KeyLess(sample[i][0], run.max[0]))
    && Sorted(sample)
  }

  predicate Sorted(sample: seq<Tuple>) {
    forall i, j | 0 <= i <= j < |sample| :: AtMost(sample[i], sample[j])
  }

  /** Nothing to sample by: the run ends at values of two classes. */
  predicate MixedClasses(run: Run)
    requires run.min != [] && run.max != []
  {
    run.min[0].V? && run.max[0].V? && run.min[0].cls != run.max[0].cls
  }

  /** The sample at the i-th of `parts` quantiles. */
  function Quantile(sample: seq<Tuple>, parts: nat, i: nat): (at: Tuple)
    requires 0 < i < parts <= |sample|
    ensures at in sample
  {
    A.CutIsIn(i, |sample|, parts);
    sample[A.Cut(i, |sample|, parts)]
  }

  /** The first n of them, in order. */
  function Quantiles(sample: seq<Tuple>, parts: nat, n: nat): (qs: seq<Tuple>)
    requires n < parts <= |sample|
    ensures |qs| == n
  {
    if n == 0 then [] else Quantiles(sample, parts, n - 1) + [Quantile(sample, parts, n)]
  }

  /** The boundaries they make: one that repeats the boundary before is skipped. */
  function Different(qs: seq<Tuple>): (bounds: seq<Tuple>)
    ensures |bounds| <= |qs| && (qs != [] ==> bounds != [] && bounds[|bounds| - 1] == qs[|qs| - 1])
  {
    if qs == [] then []
    else
      var before, at := Different(qs[..|qs| - 1]), qs[|qs| - 1];
      if before != [] && before[|before| - 1] == at then before else before + [at]
  }

  /** The k-th piece of a run cut at these boundaries. */
  function PieceAt(run: Run, bounds: seq<Tuple>, k: nat): Run
    requires k <= |bounds|
  {
    run.(min := if k == 0 then run.min else bounds[k - 1], max := if k == |bounds| then run.max else bounds[k])
  }

  /** Where the piece after these boundaries starts. */
  function StartAfter(run: Run, bounds: seq<Tuple>): Tuple {
    if bounds == [] then run.min else bounds[|bounds| - 1]
  }

  /** The pieces that end at these boundaries. */
  function PiecesTo(run: Run, bounds: seq<Tuple>): (pieces: seq<Run>)
    ensures |pieces| == |bounds|
  {
    if bounds == [] then []
    else
      var init, last := bounds[..|bounds| - 1], bounds[|bounds| - 1];
      PiecesTo(run, init) + [run.(min := StartAfter(run, init), max := last)]
  }

  function CutAt(run: Run, bounds: seq<Tuple>): (pieces: seq<Run>)
    ensures |pieces| == |bounds| + 1
  {
    PiecesTo(run, bounds) + [run.(min := StartAfter(run, bounds))]
  }

  lemma {:induction false} PiecesToAt(run: Run, bounds: seq<Tuple>, k: nat)
    requires k < |bounds|
    ensures PiecesTo(run, bounds)[k] == PieceAt(run, bounds, k)
    decreases |bounds|
  {
    if k < |bounds| - 1 {
      PiecesToAt(run, bounds[..|bounds| - 1], k);
    }
  }

  lemma CutAtPiece(run: Run, bounds: seq<Tuple>, k: nat)
    requires k <= |bounds|
    ensures CutAt(run, bounds)[k] == PieceAt(run, bounds, k)
  {
    if k < |bounds| {
      PiecesToAt(run, bounds, k);
    }
  }

  /** There is something to cut at: ends of one class, and a sample in time, of at least as many tuples as pieces. */
  predicate CanBeSampled(run: Run, sample: Option<seq<Tuple>>, parts: nat)
    requires run.min != [] && run.max != []
  {
    !MixedClasses(run) && sample.Some? && |sample.value| >= parts
  }

  function SampledPieces(run: Run, sample: Option<seq<Tuple>>, parts: nat): seq<Run>
    requires run.min != [] && run.max != [] && parts > 0
  {
    if CanBeSampled(run, sample, parts) then CutAt(run, Different(Quantiles(sample.value, parts, parts - 1))) else [run]
  }

  // ---- What these boundaries are

  predicate Ascends(bounds: seq<Tuple>) {
    forall i, j | 0 <= i < j < |bounds| :: Less(bounds[i], bounds[j])
  }

  lemma AscendsFurther(bounds: seq<Tuple>, at: Tuple)
    requires bounds != [] && Ascends(bounds) && Less(bounds[|bounds| - 1], at)
    ensures Ascends(bounds + [at])
  {
    var last := |bounds| - 1;
    forall i | 0 <= i < |bounds| ensures Less(bounds[i], at) {
      if i < last {
        assert Less(bounds[i], bounds[last]);
        LessIsTransitive(bounds[i], bounds[last], at);
      }
    }
  }

  /** They ascend, and are exactly the different quantiles: each once. */
  lemma {:induction false} DifferentAreEachOnce(qs: seq<Tuple>)
    requires Sorted(qs)
    ensures Ascends(Different(qs)) && forall t :: t in Different(qs) <==> t in qs
    decreases |qs|
  {
    if qs != [] {
      var init, at := qs[..|qs| - 1], qs[|qs| - 1];
      var before := Different(init);
      forall i, j | 0 <= i <= j < |init| ensures AtMost(init[i], init[j]) {
        assert AtMost(qs[i], qs[j]);
      }
      DifferentAreEachOnce(init);
      assert qs == init + [at];
      if before != [] {
        var last := |before| - 1;
        assert before[last] in before && before[last] == qs[|qs| - 2] && AtMost(qs[|qs| - 2], qs[|qs| - 1]);
        if before[last] != at {
          AscendsFurther(before, at);
        }
      }
    }
  }

  /** No two in a row are the same. */
  predicate NoneRepeats(qs: seq<Tuple>) {
    forall i | 0 <= i < |qs| - 1 :: qs[i] != qs[i + 1]
  }

  /** Every quantile makes a boundary exactly if no two in a row are the same. */
  lemma {:induction false} AllAreDifferentIff(qs: seq<Tuple>)
    ensures |Different(qs)| == |qs| <==> NoneRepeats(qs)
    ensures NoneRepeats(qs) ==> Different(qs) == qs
    decreases |qs|
  {
    if qs != [] {
      var init := qs[..|qs| - 1];
      AllAreDifferentIff(init);
      assert qs == init + [qs[|qs| - 1]];
      if NoneRepeats(init) && |qs| > 1 {
        assert init[|init| - 1] == qs[|qs| - 2];
      }
    }
  }

  lemma {:induction false} QuantilesAt(sample: seq<Tuple>, parts: nat, n: nat, i: nat)
    requires i < n < parts <= |sample|
    ensures Quantiles(sample, parts, n)[i] == Quantile(sample, parts, i + 1)
    decreases n
  {
    if i < n - 1 {
      QuantilesAt(sample, parts, n - 1, i);
    }
  }

  lemma {:induction false} QuantilesAreSampled(sample: seq<Tuple>, parts: nat, n: nat)
    requires n < parts <= |sample|
    ensures forall t <- Quantiles(sample, parts, n) :: t in sample
  {
    if n > 0 {
      QuantilesAreSampled(sample, parts, n - 1);
    }
  }

  lemma QuantileAscends(sample: seq<Tuple>, parts: nat, i: nat, j: nat)
    requires Sorted(sample) && 0 < i <= j < parts <= |sample|
    ensures AtMost(Quantile(sample, parts, i), Quantile(sample, parts, j))
  {
    A.CutMono(i, j, |sample|, parts);
    A.CutIsIn(i, |sample|, parts);
    A.CutIsIn(j, |sample|, parts);
  }

  lemma QuantilesAscend(sample: seq<Tuple>, parts: nat, n: nat)
    requires Sorted(sample) && n < parts <= |sample|
    ensures Sorted(Quantiles(sample, parts, n))
  {
    var qs := Quantiles(sample, parts, n);
    forall i, j | 0 <= i <= j < n ensures AtMost(qs[i], qs[j]) {
      QuantilesAt(sample, parts, n, i);
      QuantilesAt(sample, parts, n, j);
      QuantileAscends(sample, parts, i + 1, j + 1);
    }
  }

  /** In a sample without duplicates no quantile repeats another. */
  lemma DifferentSamplesDiffer(sample: seq<Tuple>, parts: nat, n: nat)
    requires n < parts <= |sample| && forall i, j | 0 <= i < j < |sample| :: sample[i] != sample[j]
    ensures NoneRepeats(Quantiles(sample, parts, n))
  {
    var qs := Quantiles(sample, parts, n);
    forall i | 0 <= i < n - 1 ensures qs[i] != qs[i + 1] {
      QuantilesAt(sample, parts, n, i);
      QuantilesAt(sample, parts, n, i + 1);
      A.CutStep(i + 1, |sample|, parts);
      A.DivAtLeast(|sample|, 1, parts);
      A.CutIsIn(i + 1, |sample|, parts);
      A.CutIsIn(i + 2, |sample|, parts);
    }
  }

  // ---- The pieces

  lemma {:induction false} PiecesAreLinked(run: Run, width: nat, bounds: seq<Tuple>)
    requires IsRun(run, width)
    requires forall k | 0 <= k < |bounds| :: |bounds[k]| == width && Less(run.min, bounds[k]) && Less(bounds[k], run.max)
    requires Ascends(bounds)
    ensures Linked(CutAt(run, bounds), width, run.min, run.max) && PiecesOf(run, CutAt(run, bounds))
  {
    var pieces := CutAt(run, bounds);
    forall k | 0 <= k < |pieces| ensures pieces[k] == PieceAt(run, bounds, k) {
      CutAtPiece(run, bounds, k);
    }
  }

  lemma CutAtIsLinked(run: Run, width: nat, sample: seq<Tuple>, qs: seq<Tuple>)
    requires IsRun(run, width) && IsSample(run, width, sample) && Sorted(qs) && forall t <- qs :: t in sample
    ensures Linked(CutAt(run, Different(qs)), width, run.min, run.max) && PiecesOf(run, CutAt(run, Different(qs)))
  {
    var bounds := Different(qs);
    DifferentAreEachOnce(qs);
    forall k | 0 <= k < |bounds| ensures |bounds[k]| == width && Less(run.min, bounds[k]) && Less(bounds[k], run.max) {
      assert bounds[k] in qs && bounds[k] in sample;
      var i :| 0 <= i < |sample| && sample[i] == bounds[k];
    }
    PiecesAreLinked(run, width, bounds);
  }

  predicate StartsAPiece(pieces: seq<Run>, t: Tuple) {
    exists k :: 0 < k < |pieces| && pieces[k].min == t
  }

  /**
   * Cut at these quantiles: the pieces but the first start at the different ones, so there is one more than
   * there are quantiles exactly if no two in a row are the same, and then the k-th starts at the k-th.
   */
  ghost predicate CutAtThese(qs: seq<Tuple>, pieces: seq<Run>) {
    && (forall t :: t in qs <==> StartsAPiece(pieces, t))
    && (|pieces| == |qs| + 1 <==> NoneRepeats(qs))
    && (|pieces| == |qs| + 1 ==> forall k | 0 < k < |pieces| :: pieces[k].min == qs[k - 1])
  }

  lemma PiecesAreCutAtThese(run: Run, qs: seq<Tuple>)
    requires Sorted(qs)
    ensures CutAtThese(qs, CutAt(run, Different(qs)))
  {
    var bounds := Different(qs);
    var pieces := CutAt(run, bounds);
    forall k | 0 < k < |pieces| ensures pieces[k].min == bounds[k - 1] {
      CutAtPiece(run, bounds, k);
    }
    DifferentAreEachOnce(qs);
    AllAreDifferentIff(qs);
    forall t ensures t in bounds <==> StartsAPiece(pieces, t) {
      if t in bounds {
        var i :| 0 <= i < |bounds| && bounds[i] == t;
        assert pieces[i + 1].min == t;
      }
    }
  }

  lemma SampledPiecesAreGood(run: Run, width: nat, sample: Option<seq<Tuple>>, parts: nat)
    requires IsRun(run, width) && parts > 0 && (sample.Some? ==> IsSample(run, width, sample.value))
    ensures
      var pieces := SampledPieces(run, sample, parts);
      Linked(pieces, width, run.min, run.max) && PiecesOf(run, pieces) && |pieces| <= parts
    ensures CanBeSampled(run, sample, parts) ==>
              CutAtThese(Quantiles(sample.value, parts, parts - 1), SampledPieces(run, sample, parts))
  {
    if CanBeSampled(run, sample, parts) {
      var qs := Quantiles(sample.value, parts, parts - 1);
      QuantilesAreSampled(sample.value, parts, parts - 1);
      QuantilesAscend(sample.value, parts, parts - 1);
      CutAtIsLinked(run, width, sample.value, qs);
      PiecesAreCutAtThese(run, qs);
    }
  }

  /** Left whole are a run between values of two classes, one not sampled in time, and one with fewer samples than pieces. */
  lemma WhatIsLeftWhole(run: Run, width: nat, sample: Option<seq<Tuple>>, parts: nat)
    requires IsRun(run, width) && parts > 0
    requires || (run.min[0].V? && run.max[0].V? && run.min[0].cls != run.max[0].cls)
             || sample.None? || |sample.value| < parts
    ensures SampledPieces(run, sample, parts) == [run]
  {
  }

  /** Else, with different samples there are exactly as many pieces as asked for, the k-th from sample k·m / parts on. */
  lemma DifferentSamplesMakeAllPieces(run: Run, width: nat, sample: seq<Tuple>, parts: nat, k: nat)
    requires IsRun(run, width) && IsSample(run, width, sample) && 0 < parts <= |sample|
    requires !run.min[0].V? || !run.max[0].V? || run.min[0].cls == run.max[0].cls
    requires forall i, j | 0 <= i < j < |sample| :: sample[i] != sample[j]
    ensures |SampledPieces(run, Some(sample), parts)| == parts
    ensures 0 < k < parts ==>
              k * |sample| / parts < |sample| && SampledPieces(run, Some(sample), parts)[k].min == sample[k * |sample| / parts]
  {
    SampledPiecesAreGood(run, width, Some(sample), parts);
    DifferentSamplesDiffer(sample, parts, parts - 1);
    if 0 < k < parts {
      QuantilesAt(sample, parts, parts - 1, k - 1);
      A.CutIsIn(k, |sample|, parts);
      assert Quantile(sample, parts, k) == sample[k * |sample| / parts];
    }
  }

  /**
   * The run cut at quantiles of its sample — whole if it cannot be split: in any case end to end over the
   * same span, at most `parts` pieces, each on the run's shard. `None` is a sample that timed out.
   */
  method SplitSampled(run: Run, width: nat, sample: Option<seq<Tuple>>, parts: nat) returns (pieces: seq<Run>, degraded: bool)
    requires IsRun(run, width) && parts > 1 && (sample.Some? ==> IsSample(run, width, sample.value))
    ensures Linked(pieces, width, run.min, run.max) && PiecesOf(run, pieces) && |pieces| <= parts
    ensures pieces == SampledPieces(run, sample, parts)
    ensures CanBeSampled(run, sample, parts) ==> CutAtThese(Quantiles(sample.value, parts, parts - 1), pieces)
    ensures !CanBeSampled(run, sample, parts) ==> pieces == [run]
    ensures degraded <==> !MixedClasses(run) && sample.None?
  {
    SampledPiecesAreGood(run, width, sample, parts);
    if MixedClasses(run) { return [run], false; }
    if sample.None? { return [run], true; }
    if |sample.value| < parts { return [run], false; }
    pieces := CutAtQuantiles(run, sample.value, parts);
    degraded := false;
  }

  /** The loop over the quantiles. */
  method CutAtQuantiles(run: Run, tuples: seq<Tuple>, parts: nat) returns (pieces: seq<Run>)
    requires 1 < parts <= |tuples|
    ensures pieces == CutAt(run, Different(Quantiles(tuples, parts, parts - 1)))
  {
    pieces := [];
    var min, previous := run.min, None;
    NothingCutYet(run, tuples, parts);
    for i := 1 to parts
      invariant CutThrough(run, tuples, parts, i - 1, pieces, min, previous)
    {
      pieces, min, previous := CutAtOne(run, tuples, parts, i, pieces, min, previous);
    }
    pieces := CutTheRest(run, tuples, parts, pieces, min, previous);
  }

  lemma NothingCutYet(run: Run, sample: seq<Tuple>, parts: nat)
    requires 0 < parts <= |sample|
    ensures CutThrough(run, sample, parts, 0, [], run.min, None)
  {
  }

  /** The i-th quantile ends a piece, unless it repeats the one before. */
  method CutAtOne(run: Run, tuples: seq<Tuple>, parts: nat, i: nat, pieces: seq<Run>, min: Tuple, previous: Option<Tuple>)
    returns (now: seq<Run>, start: Tuple, last: Option<Tuple>)
    requires 0 < i < parts && CutThrough(run, tuples, parts, i - 1, pieces, min, previous)
    ensures CutThrough(run, tuples, parts, i, now, start, last)
  {
    var max := Quantile(tuples, parts, i);
    CutOnce(run, tuples, parts, i, pieces, min, previous);
    if previous == Some(max) { return pieces, min, previous; }
    return pieces + [run.(min := min, max := max)], max, Some(max);
  }

  /** And the last piece goes on to the end of the run. */
  method CutTheRest(run: Run, tuples: seq<Tuple>, parts: nat, pieces: seq<Run>, min: Tuple, ghost previous: Option<Tuple>)
    returns (all: seq<Run>)
    requires parts > 0 && CutThrough(run, tuples, parts, parts - 1, pieces, min, previous)
    ensures all == CutAt(run, Different(Quantiles(tuples, parts, parts - 1)))
  {
    return pieces + [run.(min := min, max := run.max)];
  }

  /** What there is once the first n quantiles are through: the pieces that end at them, where the next one starts, and the last. */
  ghost function Through(run: Run, sample: seq<Tuple>, parts: nat, n: nat): (seq<Run>, Tuple, Option<Tuple>)
    requires n < parts <= |sample|
  {
    var bounds := Different(Quantiles(sample, parts, n));
    (PiecesTo(run, bounds), StartAfter(run, bounds), if bounds == [] then None else Some(StartAfter(run, bounds)))
  }

  ghost predicate CutThrough(run: Run, sample: seq<Tuple>, parts: nat, n: nat, pieces: seq<Run>, min: Tuple, previous: Option<Tuple>) {
    n < parts <= |sample| && (pieces, min, previous) == Through(run, sample, parts, n)
  }

  lemma CutOnce(run: Run, sample: seq<Tuple>, parts: nat, i: nat, pieces: seq<Run>, min: Tuple, previous: Option<Tuple>)
    requires 0 < i < parts && CutThrough(run, sample, parts, i - 1, pieces, min, previous)
    ensures
      var at := Quantile(sample, parts, i);
      if previous == Some(at) then CutThrough(run, sample, parts, i, pieces, min, previous)
      else CutThrough(run, sample, parts, i, pieces + [run.(min := min, max := at)], at, Some(at))
  {
    OneQuantileMore(sample, parts, i);
    OnePieceMore(run, Different(Quantiles(sample, parts, i - 1)), Quantile(sample, parts, i));
  }

  lemma OneQuantileMore(sample: seq<Tuple>, parts: nat, i: nat)
    requires 0 < i < parts <= |sample|
    ensures
      var before, at := Different(Quantiles(sample, parts, i - 1)), Quantile(sample, parts, i);
      Different(Quantiles(sample, parts, i)) ==
        if before != [] && before[|before| - 1] == at then before else before + [at]
  {
    var qs := Quantiles(sample, parts, i);
    assert qs[..|qs| - 1] == Quantiles(sample, parts, i - 1);
  }

  lemma OnePieceMore(run: Run, bounds: seq<Tuple>, max: Tuple)
    ensures PiecesTo(run, bounds + [max]) == PiecesTo(run, bounds) + [run.(min := StartAfter(run, bounds), max := max)]
  {
    assert (bounds + [max])[..|bounds|] == bounds;
  }
}
