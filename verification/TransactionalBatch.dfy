/**
 * The transactional batch's retry loop (src/core/background-engine.js): every turn is one
 * transaction that reads, transforms, writes and checkpoints; a turn that fails excludes a
 * document, halves the batch, spends a retry, steps past a conflict, or gives up. The collection
 * is fixed (`rows`, what the batch query finds after the cursor, in order); how each turn fails is
 * a parameter.
 */
module TransactionalBatch {
  import opened Wrappers

  datatype Config = Config(rows: seq<nat>, bytes: nat -> nat, maxBytes: nat, maxRetries: nat)

  /** How a transaction fails: a document's own fault, a guard that matched nothing, or the server's. */
  datatype Failure = Document(id: nat) | WriteConflict | TimeOrSize | Transient | LockLost | Other

  /** One turn: whether the lane was told to stop, whether the batch was read, and how it ended. */
  datatype Turn = Turn(aborted: bool, read: bool, failure: Option<Failure>)

  datatype Loop = Loop(size: nat, attempts: nat, excluded: set<nat>)

  datatype Outcome =
    | Committed(docs: seq<nat>, written: seq<nat>, bad: set<nat>)
    | SteppedPast(id: nat)
    | Thrown
    | Continue(next: Loop)

  // ---- What a batch holds

  function BytesOf(docs: seq<nat>, bytes: nat -> nat): nat {
    if docs == [] then 0 else BytesOf(docs[..|docs| - 1], bytes) + bytes(docs[|docs| - 1])
  }

  /** How many leading documents fit in `maxBytes` — the longest such prefix, but at least one. */
  function Fitting(docs: seq<nat>, cfg: Config): (n: nat)
    ensures n <= |docs| && (docs != [] ==> n >= 1)
  {
    FittingFrom(docs, cfg, 0)
  }

  function FittingFrom(docs: seq<nat>, cfg: Config, i: nat): (n: nat)
    requires i <= |docs|
    ensures i <= n <= |docs| && (docs != [] ==> n >= 1)
    decreases |docs| - i
  {
    if i == |docs| then i
    else if BytesOf(docs[..i + 1], cfg.bytes) > cfg.maxBytes && i > 0 then i
    else FittingFrom(docs, cfg, i + 1)
  }

  lemma {:induction false} FittingIsTheLongestFit(docs: seq<nat>, cfg: Config, i: nat)
    requires i <= |docs| && (i <= 1 || BytesOf(docs[..i], cfg.bytes) <= cfg.maxBytes)
    ensures
      var n := FittingFrom(docs, cfg, i);
      && (n <= 1 || BytesOf(docs[..n], cfg.bytes) <= cfg.maxBytes)
      && (n == |docs| || BytesOf(docs[..n + 1], cfg.bytes) > cfg.maxBytes)
    decreases |docs| - i
  {
    if i < |docs| && !(BytesOf(docs[..i + 1], cfg.bytes) > cfg.maxBytes && i > 0) {
      FittingIsTheLongestFit(docs, cfg, i + 1);
    }
  }

  method Fit(docs: seq<nat>, cfg: Config) returns (fitting: seq<nat>)
    ensures fitting == docs[..Fitting(docs, cfg)]
  {
    var total := 0;
    for i := 0 to |docs|
      invariant total == BytesOf(docs[..i], cfg.bytes)
      invariant FittingFrom(docs, cfg, i) == Fitting(docs, cfg)
    {
      assert docs[..i + 1][..i] == docs[..i];
      total := total + cfg.bytes(docs[i]);
      if total > cfg.maxBytes && i > 0 {
        return docs[..i];
      }
    }
    assert docs[..|docs|] == docs;
    fitting := docs;
  }

  function Min(a: nat, b: nat): nat { if a < b then a else b }

  function Max(a: nat, b: nat): nat { if a > b then a else b }

  function Fetched(cfg: Config, size: nat): seq<nat> {
    cfg.rows[..Min(size, |cfg.rows|)]
  }

  /** The documents of a turn — none when it failed before the read. */
  function Docs(cfg: Config, loop: Loop, turn: Turn): seq<nat> {
    if turn.read then Fetched(cfg, loop.size)[..Fitting(Fetched(cfg, loop.size), cfg)] else []
  }

  function Work(docs: seq<nat>, excluded: set<nat>): (work: seq<nat>)
    ensures |work| <= |docs| && forall id :: id in work <==> id in docs && id !in excluded
  {
    if docs == [] then []
    else
      var init, last := Work(docs[..|docs| - 1], excluded), docs[|docs| - 1];
      if last in excluded then init else init + [last]
  }

  /** With nothing excluded it is all of them, in order. */
  lemma {:induction false} WorkIsAll(docs: seq<nat>, excluded: set<nat>)
    requires forall id <- docs :: id !in excluded
    ensures Work(docs, excluded) == docs
  {
    if docs != [] {
      WorkIsAll(docs[..|docs| - 1], excluded);
    }
  }

  /** A strict batch fails a document it works on, and a guard misses only where there is one. */
  ghost predicate Possible(cfg: Config, loop: Loop, turn: Turn) {
    && (turn.failure.None? ==> turn.read)
    && (turn.failure.Some? && turn.failure.value.Document? ==>
          turn.failure.value.id in Work(Docs(cfg, loop, turn), loop.excluded))
    && (turn.failure == Some(WriteConflict) ==> Work(Docs(cfg, loop, turn), loop.excluded) != [])
  }

  // ---- One turn

  function TurnOf(cfg: Config, loop: Loop, turn: Turn): Outcome {
    var docs := Docs(cfg, loop, turn);
    if turn.aborted then Thrown
    else
      if turn.failure.None? then Committed(docs, Work(docs, loop.excluded), loop.excluded)
      else
        var failure := turn.failure.value;
        var lone := loop.size == 1 && |docs| == 1;
        if failure.LockLost? || failure.Other? then Thrown
        else if failure.Document? then Continue(loop.(excluded := loop.excluded + {failure.id}))
        else if lone && failure.TimeOrSize? then Continue(loop.(excluded := loop.excluded + {docs[0]}))
        else if lone && failure.WriteConflict? then SteppedPast(docs[0])
        else if failure.TimeOrSize? && loop.size > 1 then Continue(loop.(size := Max(1, loop.size / 2)))
        else if loop.attempts + 1 > cfg.maxRetries then Thrown
        else
          var attempts := loop.attempts + 1;
          Continue(loop.(attempts := attempts,
                         size := if 2 * attempts > cfg.maxRetries then Max(1, loop.size / 2) else loop.size))
  }

  /** What a turn reads: the longest prefix of the rows within its size and, past the first, the byte budget. */
  lemma WhatATurnReads(cfg: Config, loop: Loop, turn: Turn)
    requires turn.read
    ensures
      var n := |Docs(cfg, loop, turn)|;
      && n <= loop.size && n <= |cfg.rows| && Docs(cfg, loop, turn) == cfg.rows[..n]
      && (loop.size > 0 && cfg.rows != [] ==> n > 0)
      && (n > 1 ==> BytesOf(cfg.rows[..n], cfg.bytes) <= cfg.maxBytes)
      && (n < loop.size && n < |cfg.rows| ==> BytesOf(cfg.rows[..n + 1], cfg.bytes) > cfg.maxBytes)
  {
    var docs := Fetched(cfg, loop.size);
    FittingIsTheLongestFit(docs, cfg, 0);
    var n := Fitting(docs, cfg);
    assert docs[..n] == cfg.rows[..n];
    if n < |docs| {
      assert docs[..n + 1] == cfg.rows[..n + 1];
    }
  }

  /** The lane was told to stop, or lost its lease, or an error is none the loop knows. */
  predicate Fatal(turn: Turn) {
    turn.aborted || (turn.failure.Some? && (turn.failure.value.LockLost? || turn.failure.value.Other?))
  }

  predicate Succeeds(turn: Turn) {
    !turn.aborted && turn.failure.None?
  }

  /** A document's own fault, a write conflict, want of time or room, or a transient error. */
  predicate MayGoOn(turn: Turn) {
    && !turn.aborted && turn.failure.Some?
    && (turn.failure.value.Document? || turn.failure.value.WriteConflict?
        || turn.failure.value.TimeOrSize? || turn.failure.value.Transient?)
  }

  /** Alone in a batch of one: a document too slow, too big, or in the way is not retried. */
  predicate SettlesAlone(cfg: Config, loop: Loop, turn: Turn) {
    && loop.size == 1 && |Docs(cfg, loop, turn)| == 1
    && (turn.failure == Some(TimeOrSize) || turn.failure == Some(WriteConflict))
  }

  /** What is retried after a backoff, and counted. */
  predicate SpendsARetry(cfg: Config, loop: Loop, turn: Turn) {
    && MayGoOn(turn) && !turn.failure.value.Document? && !SettlesAlone(cfg, loop, turn)
    && !(turn.failure.value.TimeOrSize? && loop.size > 1)
  }

  /** Each end of a turn, and what it leaves. */
  lemma WhatATurnLeaves(cfg: Config, loop: Loop, turn: Turn)
    requires loop.size >= 1
    ensures Fatal(turn) ==> TurnOf(cfg, loop, turn) == Thrown
    ensures Succeeds(turn) ==>
              var docs := Docs(cfg, loop, turn);
              TurnOf(cfg, loop, turn) == Committed(docs, Work(docs, loop.excluded), loop.excluded)
    ensures MayGoOn(turn) && turn.failure.value.Document? ==>
              TurnOf(cfg, loop, turn) == Continue(Loop(loop.size, loop.attempts, loop.excluded + {turn.failure.value.id}))
    ensures MayGoOn(turn) && turn.failure.value.TimeOrSize? && loop.size > 1 ==>
              TurnOf(cfg, loop, turn) == Continue(Loop(loop.size / 2, loop.attempts, loop.excluded))
    ensures MayGoOn(turn) && turn.failure.value.TimeOrSize? && SettlesAlone(cfg, loop, turn) ==>
              TurnOf(cfg, loop, turn) == Continue(Loop(1, loop.attempts, loop.excluded + {Docs(cfg, loop, turn)[0]}))
    ensures MayGoOn(turn) && turn.failure.value.WriteConflict? && SettlesAlone(cfg, loop, turn) ==>
              TurnOf(cfg, loop, turn) == SteppedPast(Docs(cfg, loop, turn)[0])
    ensures SpendsARetry(cfg, loop, turn) && loop.attempts >= cfg.maxRetries ==> TurnOf(cfg, loop, turn) == Thrown
    ensures SpendsARetry(cfg, loop, turn) && loop.attempts < cfg.maxRetries ==>
              var attempts := loop.attempts + 1;
              var size := if 2 * attempts <= cfg.maxRetries || loop.size == 1 then loop.size else loop.size / 2;
              TurnOf(cfg, loop, turn) == Continue(Loop(size, attempts, loop.excluded))
  {
  }

  function SetOf(ids: seq<nat>): (s: set<nat>)
    ensures forall id :: id in s <==> id in ids
    ensures |s| <= |ids|
  {
    if ids == [] then {} else SetOf(ids[..|ids| - 1]) + {ids[|ids| - 1]}
  }

  ghost predicate Valid(cfg: Config, loop: Loop, batchSize: nat) {
    1 <= loop.size <= batchSize && loop.attempts <= cfg.maxRetries && loop.excluded <= SetOf(cfg.rows)
  }

  /**
   * The turn that changes nothing: one document is all there is to read, it is excluded already,
   * and the transaction — now only its checkpoint and commit — still runs out of time or room.
   */
  predicate Stutters(cfg: Config, loop: Loop, turn: Turn) {
    var docs := Docs(cfg, loop, turn);
    !turn.aborted && turn.failure == Some(TimeOrSize) && loop.size == 1 && |docs| == 1 && docs[0] in loop.excluded
  }

  ghost function Measure(cfg: Config, loop: Loop): int {
    |SetOf(cfg.rows) - loop.excluded| + loop.size + cfg.maxRetries - loop.attempts
  }

  /**
   * Every turn returns, throws, excludes a new document, halves a batch of more than one, or
   * spends one of `maxRetries` — exactly when it is not the stuttering one, which leaves the loop
   * as it was. The size stays between 1 and the size asked for.
   */
  lemma EveryTurnMakesProgress(cfg: Config, loop: Loop, turn: Turn, batchSize: nat)
    requires Valid(cfg, loop, batchSize) && Possible(cfg, loop, turn) && TurnOf(cfg, loop, turn).Continue?
    ensures
      var next := TurnOf(cfg, loop, turn).next;
      && Valid(cfg, next, batchSize)
      && (Measure(cfg, next) < Measure(cfg, loop) <==> !Stutters(cfg, loop, turn))
      && (Stutters(cfg, loop, turn) ==> next == loop)
  {
    var docs, excluded := Docs(cfg, loop, turn), TurnOf(cfg, loop, turn).next.excluded;
    if excluded != loop.excluded {
      var id := if turn.failure.value.Document? then turn.failure.value.id else docs[0];
      assert id in docs && id in cfg.rows;
      Excluding(SetOf(cfg.rows), loop.excluded, id);
    }
  }

  lemma TheSizeStaysInRange(cfg: Config, loop: Loop, turn: Turn)
    requires loop.size >= 1 && TurnOf(cfg, loop, turn).Continue?
    ensures 1 <= TurnOf(cfg, loop, turn).next.size <= loop.size
  {
  }

  lemma Excluding(all: set<nat>, excluded: set<nat>, id: nat)
    requires id in all && id !in excluded
    ensures |all - (excluded + {id})| == |all - excluded| - 1
  {
    assert all - excluded == (all - (excluded + {id})) + {id};
  }

  // ---- The loop

  /** The loop over a given sequence of turns; `Continue` when they end before it does. */
  function RunTurns(cfg: Config, loop: Loop, turns: seq<Turn>): Outcome
    decreases |turns|
  {
    if turns == [] then Continue(loop)
    else
      match TurnOf(cfg, loop, turns[0])
      case Continue(next) => RunTurns(cfg, next, turns[1..])
      case final => final
  }

  /** The loop goes on only after a failure it knows: no turn of a loop still going was fatal, or a success. */
  lemma {:induction false} GoesOnOnlyAfterWhatItKnows(cfg: Config, loop: Loop, turns: seq<Turn>)
    requires RunTurns(cfg, loop, turns).Continue?
    ensures forall turn <- turns :: MayGoOn(turn)
    decreases |turns|
  {
    if turns != [] {
      GoesOnOnlyAfterWhatItKnows(cfg, TurnOf(cfg, loop, turns[0]).next, turns[1..]);
      assert turns == [turns[0]] + turns[1..];
    }
  }

  /** Whatever came before: a loop that reaches a fatal turn ends there, with nothing written. */
  lemma {:induction false} AFatalTurnThrows(cfg: Config, loop: Loop, turns: seq<Turn>, k: nat)
    requires k < |turns| && RunTurns(cfg, loop, turns[..k]).Continue? && Fatal(turns[k])
    ensures RunTurns(cfg, loop, turns) == Thrown
    decreases k
  {
    if k > 0 {
      assert turns[..k][0] == turns[0] && turns[..k][1..] == turns[1..][..k - 1];
      AFatalTurnThrows(cfg, TurnOf(cfg, loop, turns[0]).next, turns[1..], k - 1);
    }
  }

  /** A loop that committed did so in the one turn that succeeded, after turns it may go on from. */
  lemma {:induction false} CommitsInTheOneThatSucceeds(cfg: Config, loop: Loop, turns: seq<Turn>) returns (k: nat)
    requires RunTurns(cfg, loop, turns).Committed?
    ensures k < |turns| && RunTurns(cfg, loop, turns[..k]).Continue? && Succeeds(turns[k])
    ensures forall turn <- turns[..k] :: MayGoOn(turn)
    decreases |turns|
  {
    if TurnOf(cfg, loop, turns[0]).Continue? {
      var l := CommitsInTheOneThatSucceeds(cfg, TurnOf(cfg, loop, turns[0]).next, turns[1..]);
      k := l + 1;
      assert turns[..k][0] == turns[0] && turns[..k][1..] == turns[1..][..l];
    } else {
      k := 0;
    }
    GoesOnOnlyAfterWhatItKnows(cfg, loop, turns[..k]);
  }

  /** Turns the server can answer with, none of them the stuttering one. */
  ghost predicate Live(cfg: Config, loop: Loop, turns: seq<Turn>)
    decreases |turns|
  {
    turns == [] ||
    (&& Possible(cfg, loop, turns[0]) && !Stutters(cfg, loop, turns[0])
     && (TurnOf(cfg, loop, turns[0]).Continue? ==> Live(cfg, TurnOf(cfg, loop, turns[0]).next, turns[1..])))
  }

  /** Without a stuttering turn the loop ends within documents + batch size + retries turns. */
  lemma {:induction false} TheLoopEnds(cfg: Config, loop: Loop, turns: seq<Turn>, batchSize: nat)
    requires Valid(cfg, loop, batchSize) && Live(cfg, loop, turns)
    requires |turns| >= Measure(cfg, loop)
    ensures !RunTurns(cfg, loop, turns).Continue?
    decreases |turns|
  {
    if TurnOf(cfg, loop, turns[0]).Continue? {
      EveryTurnMakesProgress(cfg, loop, turns[0], batchSize);
      TheLoopEnds(cfg, TurnOf(cfg, loop, turns[0]).next, turns[1..], batchSize);
    }
  }

  lemma TheBatchEnds(cfg: Config, size: nat, turns: seq<Turn>, batchSize: nat)
    requires 1 <= size <= batchSize
    ensures Live(cfg, Loop(size, 0, {}), turns) && |turns| >= |cfg.rows| + batchSize + cfg.maxRetries
            ==> !RunTurns(cfg, Loop(size, 0, {}), turns).Continue?
  {
    var loop := Loop(size, 0, {});
    assert SetOf(cfg.rows) - {} == SetOf(cfg.rows);
    if Live(cfg, loop, turns) && |turns| >= |cfg.rows| + batchSize + cfg.maxRetries {
      TheLoopEnds(cfg, loop, turns, batchSize);
    }
  }

  function Repeat(turn: Turn, n: nat): seq<Turn> {
    seq(n, _ => turn)
  }

  /** And with it, it need not end: a stuttering turn can be repeated for ever. */
  lemma {:induction false} StutteringNeverEnds(cfg: Config, loop: Loop, turn: Turn, n: nat)
    requires Stutters(cfg, loop, turn)
    ensures RunTurns(cfg, loop, Repeat(turn, n)) == Continue(loop)
  {
    if n > 0 {
      assert TurnOf(cfg, loop, turn) == Continue(loop) by {
        assert loop.excluded + {Docs(cfg, loop, turn)[0]} == loop.excluded;
      }
      assert Repeat(turn, n)[1..] == Repeat(turn, n - 1);
      StutteringNeverEnds(cfg, loop, turn, n - 1);
    }
  }

  /** Such a turn is reached: one document, too slow once, then a commit that is too slow as well. */
  lemma TheLoopCanStutter()
    ensures
      var cfg := Config([7], _ => 1, 10, 5);
      var slow := Turn(false, true, Some(TimeOrSize));
      var loop := Loop(1, 0, {});
      && Possible(cfg, loop, slow) && TurnOf(cfg, loop, slow) == Continue(Loop(1, 0, {7}))
      && Possible(cfg, Loop(1, 0, {7}), slow) && Stutters(cfg, Loop(1, 0, {7}), slow)
  {
    var cfg := Config([7], _ => 1, 10, 5);
    assert Fetched(cfg, 1) == [7];
    assert [7][..1] == [7];
  }

  datatype Txn = Txn(size: nat, clean: nat)

  const CLEAN_BATCHES_TO_GROW := 5

  /** After a clean batch: grown by half every fifth one, never past the size asked for. */
  function Grown(txn: Txn, size: nat, batchSize: nat): (next: Txn)
    requires 1 <= size <= batchSize
    ensures 1 <= next.size <= batchSize && size <= next.size
  {
    var clean := txn.clean + 1;
    if clean >= CLEAN_BATCHES_TO_GROW && size < batchSize then Txn(Min(batchSize, (3 * size + 1) / 2), 0)
    else Txn(size, clean)
  }

  /** Trouble that says nothing about one document: the count of clean batches starts again. */
  predicate Troubled(turn: Turn) {
    !turn.aborted && turn.failure.Some?
    && (turn.failure.value.WriteConflict? || turn.failure.value.TimeOrSize? || turn.failure.value.Transient?)
  }

  /** How many clean batches count when the loop ends: none, if one of its turns was in trouble. */
  function CleanAfter(cfg: Config, loop: Loop, turns: seq<Turn>, clean: nat): nat
    decreases |turns|
  {
    if turns == [] then clean
    else
      var now := if Troubled(turns[0]) then 0 else clean;
      match TurnOf(cfg, loop, turns[0])
      case Continue(next) => CleanAfter(cfg, next, turns[1..], now)
      case _ => now
  }

  /** After a batch that committed: only failures of single documents leave the count of clean batches alone. */
  lemma {:induction false} CleanIsKeptIff(cfg: Config, loop: Loop, turns: seq<Turn>, clean: nat, k: nat)
    requires k < |turns| && RunTurns(cfg, loop, turns[..k]).Continue? && Succeeds(turns[k])
    ensures CleanAfter(cfg, loop, turns, clean) ==
            if forall turn <- turns[..k] :: turn.failure.Some? && turn.failure.value.Document? then clean else 0
    decreases k
  {
    GoesOnOnlyAfterWhatItKnows(cfg, loop, turns[..k]);
    if k > 0 {
      var now := if Troubled(turns[0]) then 0 else clean;
      assert turns[..k][0] == turns[0] && turns[..k][1..] == turns[1..][..k - 1];
      assert turns[..k] == [turns[0]] + turns[1..][..k - 1];
      CleanIsKeptIff(cfg, TurnOf(cfg, loop, turns[0]).next, turns[1..], now, k - 1);
    }
  }

  /** The lane's batch size after the loop: it moves with a committed batch only. */
  function TxnAfter(cfg: Config, txn: Txn, batchSize: nat, turns: seq<Turn>): Txn
    requires batchSize >= 1 && txn.size >= 1
  {
    var loop := Loop(Min(txn.size, batchSize), 0, {});
    var now := txn.(clean := CleanAfter(cfg, loop, turns, txn.clean));
    if RunTurns(cfg, loop, turns).Committed? then
      SizesStayInRange(cfg, loop, turns);
      Grown(now, Before(cfg, loop, turns).0.size, batchSize)
    else now
  }

  lemma {:induction false} SizesStayInRange(cfg: Config, loop: Loop, turns: seq<Turn>)
    requires loop.size >= 1 && turns != [] && !RunTurns(cfg, loop, turns).Continue?
    ensures 1 <= Before(cfg, loop, turns).0.size <= loop.size
    decreases |turns|
  {
    if TurnOf(cfg, loop, turns[0]).Continue? {
      TheSizeStaysInRange(cfg, loop, turns[0]);
      SizesStayInRange(cfg, TurnOf(cfg, loop, turns[0]).next, turns[1..]);
    }
  }

  /** The lane's size after n batches in a row that went through at once. */
  function AfterClean(txn: Txn, batchSize: nat, n: nat): (after: Txn)
    requires 1 <= txn.size <= batchSize
    ensures 1 <= after.size <= batchSize
  {
    if n == 0 then txn
    else
      var before := AfterClean(txn, batchSize, n - 1);
      Grown(before, before.size, batchSize)
  }

  /** Four clean batches leave the size; with the fifth it is half as much again, cut to the size asked for. */
  lemma {:induction false} GrowsWithTheFifth(size: nat, batchSize: nat, n: nat)
    requires 1 <= size < batchSize && n <= 5
    ensures AfterClean(Txn(size, 0), batchSize, n) ==
            if n < 5 then Txn(size, n) else Txn(Min(batchSize, size + (size + 1) / 2), 0)
  {
    if n > 0 {
      GrowsWithTheFifth(size, batchSize, n - 1);
    }
  }

  lemma {:induction false} CleanBatchesAddUp(txn: Txn, batchSize: nat, m: nat, n: nat)
    requires 1 <= txn.size <= batchSize
    ensures AfterClean(AfterClean(txn, batchSize, m), batchSize, n) == AfterClean(txn, batchSize, m + n)
  {
    if n > 0 {
      CleanBatchesAddUp(txn, batchSize, m, n - 1);
    }
  }

  lemma {:induction false} FullSizeStays(txn: Txn, batchSize: nat, n: nat)
    requires 1 <= txn.size == batchSize
    ensures AfterClean(txn, batchSize, n).size == batchSize
  {
    if n > 0 {
      FullSizeStays(txn, batchSize, n - 1);
    }
  }

  /** A batch size that was halved comes back: every five clean batches it grows, until it is what was asked for. */
  lemma {:induction false} CleanBatchesGrowBack(size: nat, batchSize: nat, n: nat)
    requires 1 <= size <= batchSize
    ensures AfterClean(Txn(size, 0), batchSize, 5 * n).size >= Min(batchSize, size + n)
    decreases n
  {
    if size == batchSize {
      FullSizeStays(Txn(size, 0), batchSize, 5 * n);
    } else if n > 0 {
      GrowsWithTheFifth(size, batchSize, 5);
      CleanBatchesAddUp(Txn(size, 0), batchSize, 5, 5 * (n - 1));
      CleanBatchesGrowBack(Min(batchSize, size + (size + 1) / 2), batchSize, n - 1);
    }
  }

  /**
   * The batch: loops over the turns given until one ends it. Only a committed turn writes, and it
   * writes exactly the documents read and not excluded; the lane's batch size grows back with clean
   * batches and is otherwise as it was.
   */
  method Run(cfg: Config, txn: Txn, batchSize: nat, turns: seq<Turn>) returns (outcome: Outcome, next: Txn)
    requires batchSize >= 1 && txn.size >= 1
    ensures outcome == RunTurns(cfg, Loop(Min(txn.size, batchSize), 0, {}), turns)
    ensures Live(cfg, Loop(Min(txn.size, batchSize), 0, {}), turns) && |turns| >= |cfg.rows| + batchSize + cfg.maxRetries
            ==> !outcome.Continue?
    ensures next == TxnAfter(cfg, txn, batchSize, turns)
    ensures next.size >= 1 && (outcome.Committed? ==> next.size <= batchSize)
  {
    var loop := Loop(Min(txn.size, batchSize), 0, {});
    next := txn;
    outcome := Continue(loop);
    TheBatchEnds(cfg, loop.size, turns, batchSize);
    for i := 0 to |turns|
      invariant 1 <= loop.size <= batchSize && outcome == Continue(loop) && next.size == txn.size
      invariant SameEnd(cfg, Loop(Min(txn.size, batchSize), 0, {}), turns, txn.clean, loop, turns[i..], next.clean)
    {
      assert turns[i..][0] == turns[i] && turns[i..][1..] == turns[i + 1..];
      outcome := TurnOf(cfg, loop, turns[i]);
      if Troubled(turns[i]) {
        next := next.(clean := 0);
      }
      if outcome.Committed? {
        next := Grown(next, loop.size, batchSize);
        return;
      } else if outcome.Continue? {
        TheSizeStaysInRange(cfg, loop, turns[i]);
        loop := outcome.next;
      } else {
        return;
      }
    }
  }

  /** From here the turns left end the loop as all of them do from the start. */
  ghost predicate SameEnd(cfg: Config, loop0: Loop, turns0: seq<Turn>, clean0: nat, loop: Loop, turns: seq<Turn>, clean: nat) {
    && RunTurns(cfg, loop, turns) == RunTurns(cfg, loop0, turns0)
    && CleanAfter(cfg, loop, turns, clean) == CleanAfter(cfg, loop0, turns0, clean0)
    && (turns != [] && !RunTurns(cfg, loop, turns).Continue? ==>
          turns0 != [] && Before(cfg, loop, turns) == Before(cfg, loop0, turns0))
  }

  // ---- What a committed batch counts

  predicate Distinct(rows: seq<nat>) {
    forall i, j | 0 <= i < j < |rows| :: rows[i] != rows[j]
  }

  lemma {:induction false} WorkLeavesTheExcluded(docs: seq<nat>, excluded: set<nat>)
    requires Distinct(docs)
    ensures |Work(docs, excluded)| + |SetOf(docs) * excluded| == |docs|
  {
    if docs != [] {
      var init, last := docs[..|docs| - 1], docs[|docs| - 1];
      WorkLeavesTheExcluded(init, excluded);
      var before, after := SetOf(init) * excluded, SetOf(docs) * excluded;
      assert after == if last in excluded then before + {last} else before;
    } else {
      assert SetOf(docs) * excluded == {};
    }
  }

  /** One committed turn: what it read is migrated plus failed exactly if all it excluded is still in it. */
  lemma CommittedTurnIsExactIff(cfg: Config, loop: Loop, turn: Turn)
    requires TurnOf(cfg, loop, turn).Committed?
    requires Distinct(cfg.rows)
    ensures
      var done := TurnOf(cfg, loop, turn);
      |done.docs| == |done.written| + |done.bad| <==> done.bad <= SetOf(done.docs)
  {
    var done := TurnOf(cfg, loop, turn);
    FittedIsPrefix(cfg, loop, turn);
    assert Distinct(done.docs);
    WorkLeavesTheExcluded(done.docs, done.bad);
    SubsetBySize(SetOf(done.docs), done.bad);
  }

  lemma SubsetBySize(all: set<nat>, some: set<nat>)
    ensures |all * some| == |some| <==> some <= all
  {
    assert some == all * some + (some - all);
    if some <= all {
      assert all * some == some;
    } else {
      assert some - all != {};
    }
  }

  // ---- Over the whole loop

  /** The loop as it is when its last turn begins. */
  function Before(cfg: Config, loop: Loop, turns: seq<Turn>): (Loop, Turn)
    requires turns != [] && !RunTurns(cfg, loop, turns).Continue?
    decreases |turns|
  {
    if TurnOf(cfg, loop, turns[0]).Continue? then
      var next := TurnOf(cfg, loop, turns[0]).next;
      assert RunTurns(cfg, loop, turns) == RunTurns(cfg, next, turns[1..]);
      Before(cfg, next, turns[1..])
    else (loop, turns[0])
  }

  lemma {:induction false} TheLastTurnEndsIt(cfg: Config, loop: Loop, turns: seq<Turn>)
    requires turns != [] && !RunTurns(cfg, loop, turns).Continue?
    ensures TurnOf(cfg, Before(cfg, loop, turns).0, Before(cfg, loop, turns).1) == RunTurns(cfg, loop, turns)
    decreases |turns|
  {
    if TurnOf(cfg, loop, turns[0]).Continue? {
      TheLastTurnEndsIt(cfg, TurnOf(cfg, loop, turns[0]).next, turns[1..]);
    }
  }

  /** A document is excluded by a turn that fails on it: by name, or alone in a batch too slow or too big. */
  predicate Excludes(cfg: Config, loop: Loop, turn: Turn, id: nat) {
    && !turn.aborted && turn.failure.Some?
    && (turn.failure == Some(Document(id))
        || (turn.failure == Some(TimeOrSize) && loop.size == 1 && Docs(cfg, loop, turn) == [id]))
  }

  /** Some turn before the end excludes the document. */
  predicate ExcludedBy(cfg: Config, loop: Loop, turns: seq<Turn>, id: nat)
    decreases |turns|
  {
    turns != [] && TurnOf(cfg, loop, turns[0]).Continue?
    && (Excludes(cfg, loop, turns[0], id) || ExcludedBy(cfg, TurnOf(cfg, loop, turns[0]).next, turns[1..], id))
  }

  lemma TurnExcludes(cfg: Config, loop: Loop, turn: Turn, id: nat)
    requires TurnOf(cfg, loop, turn).Continue?
    ensures id in TurnOf(cfg, loop, turn).next.excluded <==> id in loop.excluded || Excludes(cfg, loop, turn, id)
  {
    var docs := Docs(cfg, loop, turn);
    assert |docs| == 1 ==> docs == [docs[0]];
  }

  /** What a committed batch reports as failed is what its turns excluded. */
  lemma {:induction false} BadIsWhatWasExcluded(cfg: Config, loop: Loop, turns: seq<Turn>, id: nat)
    requires RunTurns(cfg, loop, turns).Committed?
    ensures id in RunTurns(cfg, loop, turns).bad <==> id in loop.excluded || ExcludedBy(cfg, loop, turns, id)
    decreases |turns|
  {
    if TurnOf(cfg, loop, turns[0]).Continue? {
      TurnExcludes(cfg, loop, turns[0], id);
      BadIsWhatWasExcluded(cfg, TurnOf(cfg, loop, turns[0]).next, turns[1..], id);
    }
  }

  lemma FittedIsPrefix(cfg: Config, loop: Loop, turn: Turn)
    ensures Docs(cfg, loop, turn) == cfg.rows[..|Docs(cfg, loop, turn)|]
  {
  }

  /** How many documents the batch ends with: what fits of the size it was shrunk to. */
  function FinalFit(cfg: Config, size: nat): nat {
    Fitting(Fetched(cfg, size), cfg)
  }

  /** No turn excludes a document beyond what the batch ends with. */
  ghost predicate ExcludesOnlyWithin(cfg: Config, loop: Loop, turns: seq<Turn>, n: nat) {
    forall i | n <= i < |cfg.rows| :: !ExcludedBy(cfg, loop, turns, cfg.rows[i])
  }

  lemma {:induction false} ExcludedAreRows(cfg: Config, loop: Loop, turns: seq<Turn>, batchSize: nat)
    requires Valid(cfg, loop, batchSize) && RunTurns(cfg, loop, turns).Committed? && Answerable(cfg, loop, turns)
    ensures RunTurns(cfg, loop, turns).bad <= SetOf(cfg.rows)
    decreases |turns|
  {
    if TurnOf(cfg, loop, turns[0]).Continue? {
      EveryTurnMakesProgress(cfg, loop, turns[0], batchSize);
      ExcludedAreRows(cfg, TurnOf(cfg, loop, turns[0]).next, turns[1..], batchSize);
    }
  }

  /** Turns the server can answer with. */
  ghost predicate Answerable(cfg: Config, loop: Loop, turns: seq<Turn>)
    decreases |turns|
  {
    turns == [] ||
    (&& Possible(cfg, loop, turns[0])
     && (TurnOf(cfg, loop, turns[0]).Continue? ==> Answerable(cfg, TurnOf(cfg, loop, turns[0]).next, turns[1..])))
  }

  lemma FailedWithinIff(cfg: Config, loop: Loop, turns: seq<Turn>, n: nat, bad: set<nat>)
    requires Distinct(cfg.rows) && n <= |cfg.rows| && bad <= SetOf(cfg.rows)
    requires forall id :: id in bad <==> ExcludedBy(cfg, loop, turns, id)
    ensures bad <= SetOf(cfg.rows[..n]) <==> ExcludesOnlyWithin(cfg, loop, turns, n)
  {
    if ExcludesOnlyWithin(cfg, loop, turns, n) {
      forall id | id in bad ensures id in SetOf(cfg.rows[..n]) {
        var i :| 0 <= i < |cfg.rows| && cfg.rows[i] == id;
        assert i < n && cfg.rows[..n][i] == id;
      }
    }
    if bad <= SetOf(cfg.rows[..n]) {
      forall i | n <= i < |cfg.rows| ensures cfg.rows[i] !in bad {
        assert cfg.rows[i] !in cfg.rows[..n];
      }
    }
  }

  /**
   * The counters of a batch — documents read against those migrated and failed — are exact exactly if no
   * turn excluded a document that the batch, shrunk since, no longer reaches: every excluded row stands
   * before the number of documents that fit the final size.
   */
  lemma CountersAreExactIff(cfg: Config, size: nat, turns: seq<Turn>)
    requires 1 <= size && Distinct(cfg.rows)
    requires RunTurns(cfg, Loop(size, 0, {}), turns).Committed? && Answerable(cfg, Loop(size, 0, {}), turns)
    ensures
      var loop := Loop(size, 0, {});
      var done := RunTurns(cfg, loop, turns);
      var n := FinalFit(cfg, Before(cfg, loop, turns).0.size);
      && done.docs == cfg.rows[..n]
      && (|done.docs| == |done.written| + |done.bad| <==> ExcludesOnlyWithin(cfg, loop, turns, n))
  {
    var loop := Loop(size, 0, {});
    var done := RunTurns(cfg, loop, turns);
    var (last, turn) := Before(cfg, loop, turns);
    TheLastTurnEndsIt(cfg, loop, turns);
    LastTurnIsAnswerable(cfg, loop, turns);
    CommittedTurnIsExactIff(cfg, last, turn);
    FittedIsPrefix(cfg, last, turn);
    ExcludedAreRows(cfg, loop, turns, size);
    forall id ensures id in done.bad <==> ExcludedBy(cfg, loop, turns, id) {
      BadIsWhatWasExcluded(cfg, loop, turns, id);
    }
    FailedWithinIff(cfg, loop, turns, |done.docs|, done.bad);
  }

  lemma {:induction false} LastTurnIsAnswerable(cfg: Config, loop: Loop, turns: seq<Turn>)
    requires turns != [] && !RunTurns(cfg, loop, turns).Continue? && Answerable(cfg, loop, turns)
    ensures Possible(cfg, Before(cfg, loop, turns).0, Before(cfg, loop, turns).1)
    decreases |turns|
  {
    if TurnOf(cfg, loop, turns[0]).Continue? {
      LastTurnIsAnswerable(cfg, TurnOf(cfg, loop, turns[0]).next, turns[1..]);
    }
  }

  // ---- Counted twice

  /** What a batch counts of a document: once if it is migrated, once if it failed. */
  function Counts(done: Outcome, id: nat): nat
    requires done.Committed?
  {
    (if id in done.written then 1 else 0) + (if id in done.bad then 1 else 0)
  }

  /** A committed batch counts what it read exactly once, whether migrated or failed. */
  lemma {:induction false} ReadIsCounted(cfg: Config, loop: Loop, turns: seq<Turn>, id: nat)
    requires RunTurns(cfg, loop, turns).Committed? && id in RunTurns(cfg, loop, turns).docs
    ensures Counts(RunTurns(cfg, loop, turns), id) == 1
  {
    TheLastTurnEndsIt(cfg, loop, turns);
  }

  lemma {:induction false} ABatchReadsAPrefix(cfg: Config, loop: Loop, turns: seq<Turn>)
    requires RunTurns(cfg, loop, turns).Committed?
    ensures
      var docs := RunTurns(cfg, loop, turns).docs;
      |docs| <= |cfg.rows| && docs == cfg.rows[..|docs|]
  {
    TheLastTurnEndsIt(cfg, loop, turns);
    var (last, turn) := Before(cfg, loop, turns);
    FittedIsPrefix(cfg, last, turn);
  }

  /** What the batch query finds once the cursor has passed a committed batch. */
  function Rest(cfg: Config, done: Outcome): Config
    requires done.Committed?
  {
    cfg.(rows := cfg.rows[Min(|done.docs|, |cfg.rows|)..])
  }

  /** A document counted beyond the end of its batch was excluded there and is among the rows left. */
  lemma {:induction false} CountedBeyondTheEnd(cfg: Config, loop: Loop, turns: seq<Turn>, id: nat)
    requires Distinct(cfg.rows) && loop.excluded == {} && RunTurns(cfg, loop, turns).Committed?
    requires id in Rest(cfg, RunTurns(cfg, loop, turns)).rows
    ensures id !in RunTurns(cfg, loop, turns).docs
    ensures Counts(RunTurns(cfg, loop, turns), id) == if ExcludedBy(cfg, loop, turns, id) then 1 else 0
  {
    var done := RunTurns(cfg, loop, turns);
    ABatchReadsAPrefix(cfg, loop, turns);
    var i :| 0 <= i < |Rest(cfg, done).rows| && Rest(cfg, done).rows[i] == id;
    assert cfg.rows[|done.docs| + i] == id;
    assert id !in done.docs;
    BadIsWhatWasExcluded(cfg, loop, turns, id);
    TheLastTurnEndsIt(cfg, loop, turns);
  }

  /**
   * The next batch reads on where the first one ended. A document the first excluded beyond its end and
   * the second reads is counted twice by the two of them; any other the second reads, once.
   */
  lemma {:induction false} ExcludedBeyondTheEndIsCountedTwice(
    cfg: Config, size: nat, turns: seq<Turn>, size': nat, turns': seq<Turn>, id: nat)
    requires Distinct(cfg.rows) && RunTurns(cfg, Loop(size, 0, {}), turns).Committed?
    requires RunTurns(Rest(cfg, RunTurns(cfg, Loop(size, 0, {}), turns)), Loop(size', 0, {}), turns').Committed?
    requires id in RunTurns(Rest(cfg, RunTurns(cfg, Loop(size, 0, {}), turns)), Loop(size', 0, {}), turns').docs
    ensures
      var first := RunTurns(cfg, Loop(size, 0, {}), turns);
      var second := RunTurns(Rest(cfg, first), Loop(size', 0, {}), turns');
      Counts(first, id) + Counts(second, id) == if ExcludedBy(cfg, Loop(size, 0, {}), turns, id) then 2 else 1
  {
    var rest := Rest(cfg, RunTurns(cfg, Loop(size, 0, {}), turns));
    ABatchReadsAPrefix(rest, Loop(size', 0, {}), turns');
    assert id in rest.rows;
    CountedBeyondTheEnd(cfg, Loop(size, 0, {}), turns, id);
    ReadIsCounted(rest, Loop(size', 0, {}), turns', id);
  }

  const TWO := Config([1, 2], _ => 1, 10, 5)
  const FAILS_ON_2 := Turn(false, true, Some(Document(2)))
  const TOO_SLOW := Turn(false, true, Some(TimeOrSize))
  const SUCCEEDS := Turn(false, true, None)

  lemma {:induction false} TwoDocuments()
    ensures Docs(TWO, Loop(2, 0, {}), FAILS_ON_2) == [1, 2]
    ensures Docs(TWO, Loop(2, 0, {2}), TOO_SLOW) == [1, 2]
    ensures Docs(TWO, Loop(1, 0, {2}), SUCCEEDS) == [1]
  {
    assert BytesOf([1], TWO.bytes) == 1 && BytesOf([1, 2], TWO.bytes) == 2;
    assert [1, 2][..1] == [1] && [1, 2][..2] == [1, 2] && [1][..1] == [1];
  }

  lemma {:induction false} TwoDocumentsTurnByTurn()
    ensures TurnOf(TWO, Loop(2, 0, {}), FAILS_ON_2) == Continue(Loop(2, 0, {2}))
    ensures TurnOf(TWO, Loop(2, 0, {2}), TOO_SLOW) == Continue(Loop(1, 0, {2}))
    ensures TurnOf(TWO, Loop(1, 0, {2}), SUCCEEDS) == Committed([1], [1], {2})
    ensures Possible(TWO, Loop(2, 0, {}), FAILS_ON_2) && !Stutters(TWO, Loop(2, 0, {}), FAILS_ON_2)
    ensures Possible(TWO, Loop(2, 0, {2}), TOO_SLOW) && !Stutters(TWO, Loop(2, 0, {2}), TOO_SLOW)
    ensures Possible(TWO, Loop(1, 0, {2}), SUCCEEDS) && !Stutters(TWO, Loop(1, 0, {2}), SUCCEEDS)
  {
    TwoDocuments();
    assert {} + {2} == {2};
    assert [1][..0] == [] && Work([], {2}) == [] && Work([1], {2}) == [1];
  }

  /** Two documents; the second fails, then the batch is too slow and halved to the first: one read, two counted. */
  lemma {:induction false} CountersCanBeOff()
    ensures
      var turns := [FAILS_ON_2, TOO_SLOW, SUCCEEDS];
      && Live(TWO, Loop(2, 0, {}), turns)
      && RunTurns(TWO, Loop(2, 0, {}), turns) == Committed([1], [1], {2})
      && ExcludedBy(TWO, Loop(2, 0, {}), turns, 2) && Rest(TWO, RunTurns(TWO, Loop(2, 0, {}), turns)).rows == [2]
  {
    TwoDocumentsTurnByTurn();
    var turns := [FAILS_ON_2, TOO_SLOW, SUCCEEDS];
    assert turns[1..] == [TOO_SLOW, SUCCEEDS] && turns[1..][1..] == [SUCCEEDS] && turns[1..][1..][1..] == [];
    assert RunTurns(TWO, Loop(1, 0, {2}), [SUCCEEDS]) == Committed([1], [1], {2});
    assert RunTurns(TWO, Loop(2, 0, {2}), [TOO_SLOW, SUCCEEDS]) == Committed([1], [1], {2});
    assert Live(TWO, Loop(1, 0, {2}), [SUCCEEDS]);
    assert Live(TWO, Loop(2, 0, {2}), [TOO_SLOW, SUCCEEDS]);
    assert Excludes(TWO, Loop(2, 0, {}), FAILS_ON_2, 2);
    assert [1, 2][1..] == [2];
  }
}
