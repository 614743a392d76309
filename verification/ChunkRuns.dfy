/** Runs of adjacent chunks on one shard, and their blocks when there are too many (src/core/background-shard.js:186-220). */
module ChunkRuns {
  import opened Wrappers
  import opened ShardKeys
  import A = Arithmetic

  datatype Chunk = Chunk(min: Tuple, max: Tuple, shard: string)

  /** The chunks of a collection: end to end, in key order. */
  ghost predicate Adjacent(chunks: seq<Chunk>, width: nat) {
    && (forall i | 0 <= i < |chunks| :: |chunks[i].min| == |chunks[i].max| == width && Less(chunks[i].min, chunks[i].max))
    && (forall i | 0 <= i < |chunks| - 1 :: chunks[i].max == chunks[i + 1].min)
  }

  predicate OneShard(chunks: seq<Chunk>, i: nat, j: nat)
    requires i < j <= |chunks|
  {
    forall k | i <= k < j :: chunks[k].shard == chunks[i].shard
  }

  /** What stands for chunks i to j: their span, how many they are, and their shard if it is one. */
  function Summary(chunks: seq<Chunk>, i: nat, j: nat): Run
    requires i < j <= |chunks|
  {
    Run(chunks[i].min, chunks[j - 1].max, if OneShard(chunks, i, j) then Some(chunks[i].shard) else None, j - i)
  }

  predicate Cuts(cuts: seq<nat>, n: nat) {
    cuts != [] && cuts[0] == 0 && cuts[|cuts| - 1] == n && forall k | 0 <= k < |cuts| - 1 :: cuts[k] < cuts[k + 1]
  }

  lemma {:induction false} CutsStayInside(cuts: seq<nat>, n: nat, k: nat, l: nat)
    requires Cuts(cuts, n) && k <= l < |cuts|
    ensures cuts[k] + (l - k) <= cuts[l] <= n
    decreases l - k, |cuts| - l
  {
    if k < l {
      CutsStayInside(cuts, n, k, l - 1);
    }
    CutReachesEnd(cuts, n, l);
  }

  lemma {:induction false} CutReachesEnd(cuts: seq<nat>, n: nat, l: nat)
    requires Cuts(cuts, n) && l < |cuts|
    ensures cuts[l] <= n
    decreases |cuts| - l
  {
    if l < |cuts| - 1 {
      CutReachesEnd(cuts, n, l + 1);
    }
  }

  predicate StandsAt(chunks: seq<Chunk>, run: Run, i: nat, j: nat) {
    i < j <= |chunks| && run == Summary(chunks, i, j)
  }

  predicate RunStands(chunks: seq<Chunk>, runs: seq<Run>, cuts: seq<nat>, k: nat)
    requires k < |runs| < |cuts|
  {
    StandsAt(chunks, runs[k], cuts[k], cuts[k + 1])
  }

  /** The runs stand for the first n chunks, cut here: nothing left out, nothing twice. */
  ghost predicate Stands(chunks: seq<Chunk>, n: nat, runs: seq<Run>, cuts: seq<nat>) {
    && Cuts(cuts, n) && n <= |chunks| && |cuts| == |runs| + 1
    && forall k | 0 <= k < |runs| :: RunStands(chunks, runs, cuts, k)
  }

  ghost predicate Maximal(runs: seq<Run>) {
    && (forall k | 0 <= k < |runs| :: runs[k].shard.Some?)
    && (forall k | 0 <= k < |runs| - 1 :: runs[k].shard != runs[k + 1].shard)
  }

  lemma AnotherRun(chunks: seq<Chunk>, n: nat, runs: seq<Run>, cuts: seq<nat>)
    requires Stands(chunks, n, runs, cuts) && n < |chunks|
    ensures Stands(chunks, n + 1, runs + [Run(chunks[n].min, chunks[n].max, Some(chunks[n].shard), 1)], cuts + [n + 1])
  {
    var more, cuts' := runs + [Run(chunks[n].min, chunks[n].max, Some(chunks[n].shard), 1)], cuts + [n + 1];
    forall k | 0 <= k < |more| ensures RunStands(chunks, more, cuts', k) {
      if k < |runs| {
        assert RunStands(chunks, runs, cuts, k);
      }
    }
  }

  lemma LongerRun(chunks: seq<Chunk>, n: nat, runs: seq<Run>, cuts: seq<nat>)
    requires Stands(chunks, n, runs, cuts) && n < |chunks| && runs != [] && runs[|runs| - 1].shard == Some(chunks[n].shard)
    ensures
      var last := |runs| - 1;
      Stands(chunks, n + 1, runs[last := runs[last].(max := chunks[n].max, chunks := runs[last].chunks + 1)], cuts[|runs| := n + 1])
  {
    var last := |runs| - 1;
    var longer, cuts' := runs[last := runs[last].(max := chunks[n].max, chunks := runs[last].chunks + 1)], cuts[|runs| := n + 1];
    forall k | 0 <= k < |longer| ensures RunStands(chunks, longer, cuts', k) {
      assert RunStands(chunks, runs, cuts, k);
    }
  }

  /** Maximal sequences of adjacent chunks on one shard: a chunk extends the last run, or starts one. */
  method RunsOf(chunks: seq<Chunk>) returns (runs: seq<Run>, ghost cuts: seq<nat>)
    ensures Stands(chunks, |chunks|, runs, cuts) && Maximal(runs)
  {
    runs, cuts := [], [0];
    for n := 0 to |chunks|
      invariant Stands(chunks, n, runs, cuts) && Maximal(runs)
    {
      var chunk := chunks[n];
      if runs != [] && runs[|runs| - 1].shard == Some(chunk.shard) {
        LongerRun(chunks, n, runs, cuts);
        var last := |runs| - 1;
        runs, cuts := runs[last := runs[last].(max := chunk.max, chunks := runs[last].chunks + 1)], cuts[|runs| := n + 1];
      } else {
        AnotherRun(chunks, n, runs, cuts);
        runs, cuts := runs + [Run(chunk.min, chunk.max, Some(chunk.shard), 1)], cuts + [n + 1];
      }
    }
  }

  // ---- Blocks of runs

  function ChunksIn(runs: seq<Run>, i: nat, j: nat): nat
    requires i <= j <= |runs|
  {
    if i == j then 0 else ChunksIn(runs, i, j - 1) + runs[j - 1].chunks
  }

  predicate SameShard(runs: seq<Run>, i: nat, j: nat)
    requires i < j <= |runs|
  {
    forall k | i <= k < j :: runs[k].shard == runs[i].shard
  }

  function Block(runs: seq<Run>, i: nat, j: nat): Run
    requires i < j <= |runs|
  {
    Run(runs[i].min, runs[j - 1].max, if SameShard(runs, i, j) then runs[i].shard else None, ChunksIn(runs, i, j))
  }

  lemma {:induction false} ChunksInRuns(chunks: seq<Chunk>, n: nat, runs: seq<Run>, cuts: seq<nat>, i: nat, j: nat)
    requires Stands(chunks, n, runs, cuts) && i <= j <= |runs|
    ensures ChunksIn(runs, i, j) + cuts[i] == cuts[j]
    decreases j
  {
    if i < j {
      ChunksInRuns(chunks, n, runs, cuts, i, j - 1);
      assert RunStands(chunks, runs, cuts, j - 1);
    }
  }

  /** A block stands for its chunks; where runs are maximal, it has a shard exactly if it is one run. */
  lemma BlockStands(chunks: seq<Chunk>, n: nat, runs: seq<Run>, cuts: seq<nat>, i: nat, j: nat)
    requires Stands(chunks, n, runs, cuts) && Maximal(runs) && i < j <= |runs|
    ensures StandsAt(chunks, Block(runs, i, j), cuts[i], cuts[j])
    ensures Block(runs, i, j).shard.Some? <==> j == i + 1
  {
    ChunksInRuns(chunks, n, runs, cuts, i, j);
    CutsStayInside(cuts, n, i, j);
    CutsStayInside(cuts, n, i + 1, j);
    assert RunStands(chunks, runs, cuts, i) && RunStands(chunks, runs, cuts, j - 1);
    if j > i + 1 {
      assert RunStands(chunks, runs, cuts, i + 1);
      assert runs[i].shard != runs[i + 1].shard && !SameShard(runs, i, j);
      assert chunks[cuts[i + 1]].shard != chunks[cuts[i]].shard;
    }
  }

  function EndOf(start: nat, size: nat, n: nat): nat {
    if start + size < n then start + size else n
  }

  function BlockStart(k: nat, size: nat): nat { k * size }

  /** The k-th block of `size` runs is theirs. */
  ghost predicate IsBlock(runs: seq<Run>, merged: seq<Run>, size: nat, k: nat)
    requires k < |merged|
  {
    && BlockStart(k, size) < |runs| && size > 0
    && merged[k] == Block(runs, BlockStart(k, size), EndOf(BlockStart(k, size), size, |runs|))
  }

  /** All runs, `size` to a block; fewer only in the last. */
  ghost predicate InBlocks(runs: seq<Run>, merged: seq<Run>, size: nat) {
    && size > 0 && |merged| == A.Ceil(|runs|, size)
    && forall k | 0 <= k < |merged| :: IsBlock(runs, merged, size, k)
  }

  /** No more blocks than allowed, and no fewer than half as many: runs are not merged more than they must. */
  lemma BlocksAreManyEnough(runs: seq<Run>, merged: seq<Run>, limit: nat)
    requires 0 < limit < |runs| && InBlocks(runs, merged, A.Ceil(|runs|, limit))
    ensures |merged| <= limit < 2 * |merged|
  {
    var n, size := |runs|, A.Ceil(|runs|, limit);
    A.CeilCovers(n, limit);
    A.CeilCovers(n, size);
    A.DivBounds(n + limit - 1, limit);
    A.DivBounds(n + size - 1, size);
    assert limit * size < 2 * n && 2 * |merged| * size == 2 * (size * |merged|);
    if 2 * |merged| <= limit {
      A.MulMono(2 * |merged|, limit, size);
    }
    if |merged| > limit {
      A.MulMono(limit, |merged| - 1, size);
      A.Distribute(|merged| - 1, 1, size);
    }
  }

  /**
   * At most `limit` runs: neighbours merged in even blocks. Still nothing is left out or twice, and a
   * block has a shard only if all its chunks are on it.
   */
  method CapRuns(chunks: seq<Chunk>, runs: seq<Run>, ghost cuts: seq<nat>, limit: nat)
    returns (merged: seq<Run>, ghost blocks: seq<nat>)
    requires limit > 0 && Stands(chunks, |chunks|, runs, cuts) && Maximal(runs)
    ensures Stands(chunks, |chunks|, merged, blocks) && |merged| <= limit
    ensures |runs| <= limit ==> merged == runs
    ensures |runs| > limit ==> InBlocks(runs, merged, A.Ceil(|runs|, limit))
    ensures forall k | 0 <= k < |merged| && merged[k].shard.Some? :: merged[k] in runs
  {
    if |runs| <= limit { return runs, cuts; }
    var n, size := |runs|, A.Ceil(|runs|, limit);
    A.CeilCovers(n, limit);
    merged, blocks := [], [0];
    var start := 0;
    while start < n
      invariant start <= n && size > 0
      invariant start == n || start == |merged| * size
      invariant |merged| <= limit && (merged != [] ==> (|merged| - 1) * size < n) && (start == n ==> n <= |merged| * size)
      invariant forall k | 0 <= k < |merged| :: IsBlock(runs, merged, size, k)
      invariant Stands(chunks, cuts[start], merged, blocks)
      invariant forall k | 0 <= k < |merged| && merged[k].shard.Some? :: merged[k] in runs
    {
      var end := EndOf(start, size, n);
      var shard, count := runs[start].shard, 0;
      for i := start to end
        invariant count == ChunksIn(runs, start, i)
        invariant i > start ==> shard == if SameShard(runs, start, i) then runs[start].shard else None
        invariant i == start ==> shard == runs[start].shard
      {
        if runs[i].shard != shard { shard := None; }
        count := count + runs[i].chunks;
      }
      var block := Run(runs[start].min, runs[end - 1].max, shard, count);
      assert block == Block(runs, start, end) && start == BlockStart(|merged|, size);
      BlocksGoOn(runs, merged, size, block);
      BlockStands(chunks, |chunks|, runs, cuts, start, end);
      AnotherBlock(chunks, cuts[start], merged, blocks, block, cuts[end]);
      if |merged| >= limit {
        A.MulMono(limit, |merged|, size);
        assert false;
      }
      merged, blocks := merged + [block], blocks + [cuts[end]];
      A.Distribute(|merged| - 1, 1, size);
      start := start + size;
      if start > n { start := n; }
    }
    A.CeilIs(n, size, |merged|);
  }

  lemma BlocksGoOn(runs: seq<Run>, merged: seq<Run>, size: nat, block: Run)
    requires size > 0 && BlockStart(|merged|, size) < |runs|
    requires block == Block(runs, BlockStart(|merged|, size), EndOf(BlockStart(|merged|, size), size, |runs|))
    requires forall k | 0 <= k < |merged| :: IsBlock(runs, merged, size, k)
    ensures forall k | 0 <= k < |merged + [block]| :: IsBlock(runs, merged + [block], size, k)
  {
    forall k | 0 <= k < |merged + [block]| ensures IsBlock(runs, merged + [block], size, k) {
      if k < |merged| {
        assert IsBlock(runs, merged, size, k);
      }
    }
  }

  lemma AnotherBlock(chunks: seq<Chunk>, n: nat, runs: seq<Run>, cuts: seq<nat>, block: Run, n': nat)
    requires Stands(chunks, n, runs, cuts) && StandsAt(chunks, block, n, n')
    ensures Stands(chunks, n', runs + [block], cuts + [n'])
  {
    var more, cuts' := runs + [block], cuts + [n'];
    forall k | 0 <= k < |more| ensures RunStands(chunks, more, cuts', k) {
      if k < |runs| {
        assert RunStands(chunks, runs, cuts, k);
      }
    }
  }

  /** What stands for adjacent chunks is end to end over the same span. */
  lemma StandsIsLinked(chunks: seq<Chunk>, width: nat, runs: seq<Run>, cuts: seq<nat>)
    requires Adjacent(chunks, width) && chunks != [] && Stands(chunks, |chunks|, runs, cuts)
    ensures Linked(runs, width, chunks[0].min, chunks[|chunks| - 1].max)
  {
    forall k | 0 <= k < |runs| ensures |runs[k].min| == |runs[k].max| == width && Less(runs[k].min, runs[k].max) {
      assert RunStands(chunks, runs, cuts, k);
      SpanIsAscending(chunks, width, cuts[k], cuts[k + 1]);
    }
    forall k | 0 <= k < |runs| - 1 ensures runs[k].max == runs[k + 1].min {
      assert RunStands(chunks, runs, cuts, k) && RunStands(chunks, runs, cuts, k + 1);
    }
    assert RunStands(chunks, runs, cuts, 0) && RunStands(chunks, runs, cuts, |runs| - 1);
  }

  lemma {:induction false} SpanIsAscending(chunks: seq<Chunk>, width: nat, i: nat, j: nat)
    requires Adjacent(chunks, width) && i < j <= |chunks|
    ensures Less(chunks[i].min, chunks[j - 1].max)
    decreases j
  {
    if i < j - 1 {
      SpanIsAscending(chunks, width, i, j - 1);
      assert chunks[j - 2].max == chunks[j - 2 + 1].min;
      LessIsTransitive(chunks[i].min, chunks[j - 2].max, chunks[j - 1].max);
    }
  }

  /** Chunk counts are conserved. */
  lemma CountsAreConserved(chunks: seq<Chunk>, runs: seq<Run>, cuts: seq<nat>)
    requires Stands(chunks, |chunks|, runs, cuts)
    ensures ChunksIn(runs, 0, |runs|) == |chunks|
  {
    ChunksInRuns(chunks, |chunks|, runs, cuts, 0, |runs|);
  }
}
