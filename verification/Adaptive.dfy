/** The latency-driven batch size: additive increase, multiplicative decrease (src/core/background-throttle.js:185-258). */
module Adaptive {
  import opened Wrappers
  import A = Arithmetic

  const THROTTLE_REPORT_INTERVAL_MS := 10_000
  const FIRST_BACKOFF_MS: nat := 100

  datatype Settings = Settings(targetLatencyMs: nat, minBatchSize: nat, maxBatchSize: nat, maxPauseMs: nat)

  datatype Reason = Slow | Overload | Recover

  datatype Report = Report(reason: Reason, batchSize: nat, pauseMs: nat)

  datatype Batch = Batch(latencyMs: nat, overloaded: bool, at: int)

  /** What the controller remembers; a time that has not come yet is missing. */
  datatype Memory = Memory(
    size: nat, pause: nat, warm: bool, lastDecrease: Option<int>, lastReport: Option<int>, pending: Option<Reason>)

  function Min(a: nat, b: nat): nat { if a < b then a else b }

  function Max(a: nat, b: nat): nat { if a > b then a else b }

  predicate Sensible(settings: Settings) {
    1 <= settings.minBatchSize <= settings.maxBatchSize
  }

  function Increase(settings: Settings): nat {
    Max(1, settings.maxBatchSize / 20)
  }

  predicate Bad(settings: Settings, batch: Batch) {
    batch.overloaded || batch.latencyMs > settings.targetLatencyMs
  }

  /** The batch that saw the last decrease does not count twice. */
  predicate TooSoon(m: Memory, batch: Batch) {
    m.lastDecrease.Some? && batch.at - m.lastDecrease.value < Max(batch.latencyMs, 1)
  }

  predicate Decreases(settings: Settings, m: Memory, batch: Batch) {
    m.warm && Bad(settings, batch) && !TooSoon(m, batch)
  }

  function Decreased(settings: Settings, m: Memory, batch: Batch): Memory {
    if m.size > settings.minBatchSize
    then m.(lastDecrease := Some(batch.at), size := Max(settings.minBatchSize, m.size / 2))
    else m.(lastDecrease := Some(batch.at), pause := Min(settings.maxPauseMs, Max(FIRST_BACKOFF_MS, m.pause * 2)))
  }

  function Recovered(settings: Settings, m: Memory): Memory {
    if m.pause > 0 then m.(pause := m.pause / 2) else m.(size := Min(settings.maxBatchSize, m.size + Increase(settings)))
  }

  predicate FullSpeed(settings: Settings, m: Memory) {
    m.pause == 0 && m.size >= settings.maxBatchSize
  }

  /** A reason joins what is still to be reported — a decrease is not replaced — and is reported if it is time. */
  function Told(m: Memory, reason: Reason, at: int): (Memory, Option<Report>) {
    var pending := if m.pending.None? || m.pending == Some(Recover) then reason else m.pending.value;
    if m.lastReport.Some? && at - m.lastReport.value < THROTTLE_REPORT_INTERVAL_MS
    then (m.(pending := Some(pending)), None)
    else (m.(pending := None, lastReport := Some(at)), Some(Report(pending, m.size, m.pause)))
  }

  function Recorded(settings: Settings, m: Memory, batch: Batch): (Memory, Option<Report>) {
    if !m.warm then (m.(warm := true), None)
    else if Bad(settings, batch) then
      if TooSoon(m, batch) then (m, None)
      else Told(Decreased(settings, m, batch), if batch.overloaded then Overload else Slow, batch.at)
    else if FullSpeed(settings, m) then (m, None)
    else Told(Recovered(settings, m), Recover, batch.at)
  }

  function Fresh(settings: Settings): Memory {
    Memory(settings.maxBatchSize, 0, false, None, None, None)
  }

  // ---- The controller as the lanes hold it

  class Controller {
    const settings: Settings
    var size: nat
    var pause: nat
    var warm: bool
    var lastDecrease: Option<int>
    var lastReport: Option<int>
    var pendingReason: Option<Reason>

    ghost function Remembers(): Memory
      reads this
    {
      Memory(size, pause, warm, lastDecrease, lastReport, pendingReason)
    }

    /** Fresh, or from the state saved on a partition, cut to what the settings allow. */
    constructor (settings: Settings, initial: Option<(nat, nat)>)
      requires Sensible(settings)
      ensures this.settings == settings && InRange(settings, Remembers())
      ensures initial.None? ==> Remembers() == Fresh(settings)
      ensures initial.Some? ==>
                && warm && lastDecrease.None? && lastReport.None? && pendingReason.None?
                && size == (if initial.value.0 < settings.minBatchSize then settings.minBatchSize
                            else if initial.value.0 > settings.maxBatchSize then settings.maxBatchSize
                            else initial.value.0)
                && pause == if initial.value.1 > settings.maxPauseMs then settings.maxPauseMs else initial.value.1
    {
      this.settings := settings;
      var wanted := if initial.Some? then initial.value.0 else settings.maxBatchSize;
      size := Min(settings.maxBatchSize, Max(settings.minBatchSize, wanted));
      pause := Min(settings.maxPauseMs, if initial.Some? then initial.value.1 else 0);
      warm := initial.Some?;
      lastDecrease, lastReport, pendingReason := None, None, None;
    }

    /** Judge one batch. */
    method Record(latencyMs: nat, overloaded: bool, now: int) returns (report: Option<Report>)
      requires Sensible(settings)
      modifies this
      ensures Remembers() == Recorded(settings, old(Remembers()), Batch(latencyMs, overloaded, now)).0
      ensures report == Recorded(settings, old(Remembers()), Batch(latencyMs, overloaded, now)).1
    {
      if !warm {
        warm := true;
        return None;
      }
      var reason: Option<Reason> := None;
      if overloaded || latencyMs > settings.targetLatencyMs {
        if lastDecrease.Some? && now - lastDecrease.value < Max(latencyMs, 1) { return None; }
        lastDecrease := Some(now);
        reason := Some(if overloaded then Overload else Slow);
        if size > settings.minBatchSize {
          size := Max(settings.minBatchSize, size / 2);
        } else {
          pause := Min(settings.maxPauseMs, Max(FIRST_BACKOFF_MS, pause * 2));
        }
      } else if pause > 0 || size < settings.maxBatchSize {
        reason := Some(Recover);
        if pause > 0 {
          pause := pause / 2;
        } else {
          size := Min(settings.maxBatchSize, size + Increase(settings));
        }
      }
      if reason.None? { return None; }
      if pendingReason.None? || pendingReason == Some(Recover) { pendingReason := reason; }
      if lastReport.Some? && now - lastReport.value < THROTTLE_REPORT_INTERVAL_MS { return None; }
      lastReport := Some(now);
      report := Some(Report(pendingReason.value, size, pause));
      pendingReason := None;
    }
  }

  // ---- What one batch does

  /** It was slow, or the cluster overloaded. */
  predicate IsTrouble(settings: Settings, batch: Batch) {
    batch.overloaded || batch.latencyMs > settings.targetLatencyMs
  }

  /** A round trip has passed since the last decrease. */
  predicate RoundTripPassed(m: Memory, batch: Batch) {
    m.lastDecrease.None? || batch.at - m.lastDecrease.value >= Max(batch.latencyMs, 1)
  }

  /**
   * The first batch warms up; trouble decreases exactly if a round trip has passed since the last decrease;
   * a good batch recovers exactly if there is something to recover; nothing else moves size or pause.
   */
  lemma WhatABatchDoes(settings: Settings, m: Memory, batch: Batch)
    requires Sensible(settings) && InRange(settings, m)
    ensures
      var now := Recorded(settings, m, batch).0;
      var slower := m.warm && IsTrouble(settings, batch) && RoundTripPassed(m, batch);
      var faster := m.warm && !IsTrouble(settings, batch) && (m.pause > 0 || m.size < settings.maxBatchSize);
      && now.warm && (now.lastDecrease == if slower then Some(batch.at) else m.lastDecrease)
      && (slower && m.size > settings.minBatchSize ==>
            now.size == Max(settings.minBatchSize, m.size / 2) && now.pause == m.pause)
      && (slower && m.size == settings.minBatchSize ==>
            now.size == m.size && now.pause == Min(settings.maxPauseMs, Max(100, 2 * m.pause)))
      && (faster && m.pause > 0 ==> now.size == m.size && now.pause == m.pause / 2)
      && (faster && m.pause == 0 ==>
            now.pause == 0 && now.size == Min(settings.maxBatchSize, m.size + Max(1, settings.maxBatchSize / 20)))
      && (!slower && !faster ==> now.size == m.size && now.pause == m.pause)
  {
  }

  /** A change is reported exactly if the last report is ten seconds old; what waits to be told is told with it. */
  lemma WhatIsReported(settings: Settings, m: Memory, batch: Batch)
    requires Sensible(settings) && InRange(settings, m)
    ensures
      var (now, report) := Recorded(settings, m, batch);
      var slower := m.warm && IsTrouble(settings, batch) && RoundTripPassed(m, batch);
      var faster := m.warm && !IsTrouble(settings, batch) && (m.pause > 0 || m.size < settings.maxBatchSize);
      var due := m.lastReport.None? || batch.at - m.lastReport.value >= 10_000;
      var reason := if slower then (if batch.overloaded then Overload else Slow) else Recover;
      var told := if m.pending.Some? && m.pending != Some(Recover) then m.pending.value else reason;
      && (report.Some? <==> (slower || faster) && due)
      && (report.Some? ==> report.value == Report(told, now.size, now.pause)
                           && now.pending.None? && now.lastReport == Some(batch.at))
      && (report.None? ==> now.lastReport == m.lastReport
                           && now.pending == if slower || faster then Some(told) else m.pending)
  {
  }

  // ---- Over whole runs

  function After(settings: Settings, m: Memory, batches: seq<Batch>): Memory
    decreases |batches|
  {
    if batches == [] then m else After(settings, Recorded(settings, m, batches[0]).0, batches[1..])
  }

  predicate InRange(settings: Settings, m: Memory) {
    settings.minBatchSize <= m.size <= settings.maxBatchSize && m.pause <= settings.maxPauseMs
  }

  /** It pauses only once the batch is as small as it gets. */
  predicate Safe(settings: Settings, m: Memory) {
    InRange(settings, m) && (m.pause > 0 ==> m.size == settings.minBatchSize)
  }

  lemma {:induction false} StaysSafe(settings: Settings, m: Memory, batches: seq<Batch>)
    requires Sensible(settings) && InRange(settings, m)
    ensures InRange(settings, After(settings, m, batches))
    ensures Safe(settings, m) ==> Safe(settings, After(settings, m, batches))
    decreases |batches|
  {
    if batches != [] {
      StaysSafe(settings, Recorded(settings, m, batches[0]).0, batches[1..]);
    }
  }

  /** The time of the last decrease only moves on, and by at least the latency of the batch that moves it. */
  lemma {:induction false} LastDecreaseMovesOn(settings: Settings, m: Memory, batches: seq<Batch>)
    requires m.lastDecrease.Some?
    ensures After(settings, m, batches).lastDecrease.Some?
    ensures After(settings, m, batches).lastDecrease.value >= m.lastDecrease.value
    decreases |batches|
  {
    if batches != [] {
      LastDecreaseMovesOn(settings, Recorded(settings, m, batches[0]).0, batches[1..]);
    }
  }

  /** Two decreases, whatever happens in between, are never closer than the later batch's latency. */
  lemma DecreasesAreSpaced(settings: Settings, m: Memory, first: Batch, between: seq<Batch>, second: Batch)
    requires Decreases(settings, m, first)
    requires Decreases(settings, After(settings, Recorded(settings, m, first).0, between), second)
    ensures second.at - first.at >= second.latencyMs && second.at > first.at
  {
    LastDecreaseMovesOn(settings, Recorded(settings, m, first).0, between);
  }

  /** The reports of a run. */
  function Reports(settings: Settings, m: Memory, batches: seq<Batch>): seq<Report>
    decreases |batches|
  {
    if batches == [] then []
    else
      var (m', report) := Recorded(settings, m, batches[0]);
      (if report.Some? then [report.value] else []) + Reports(settings, m', batches[1..])
  }

  /** A decrease waiting to be reported is what the next report says, however far things recovered by then. */
  lemma {:induction false} PendingDecreaseIsReported(settings: Settings, m: Memory, batches: seq<Batch>, reason: Reason)
    requires m.pending == Some(reason) && reason != Recover
    ensures Reports(settings, m, batches) != [] ==> Reports(settings, m, batches)[0].reason == reason
    ensures Reports(settings, m, batches) == [] ==> After(settings, m, batches).pending == Some(reason)
    decreases |batches|
  {
    if batches != [] {
      var (m', report) := Recorded(settings, m, batches[0]);
      if report.None? {
        PendingDecreaseIsReported(settings, m', batches[1..], reason);
        assert Reports(settings, m, batches) == Reports(settings, m', batches[1..]);
      }
    }
  }

  // ---- Backing off

  /** Every one of these batches is a decrease. */
  predicate AllDecrease(settings: Settings, m: Memory, batches: seq<Batch>)
    decreases |batches|
  {
    batches == [] ||
    (Decreases(settings, m, batches[0]) && AllDecrease(settings, Recorded(settings, m, batches[0]).0, batches[1..]))
  }

  function Pow2(k: nat): (p: nat)
    ensures p > 0
  {
    if k == 0 then 1 else 2 * Pow2(k - 1)
  }

  lemma HalfThenMore(n: nat, k: nat)
    ensures A.Floor(n / 2, Pow2(k)) == A.Floor(n, Pow2(k + 1))
  {
    var p := Pow2(k);
    var q := n / 2 / p;
    A.DivBounds(n / 2, p);
    A.MulMono(2 * q, 2 * q, p);
    assert q * p * 2 == q * (2 * p) && (q + 1) * p * 2 == (q + 1) * (2 * p);
    A.DivAtLeast(n, q, 2 * p);
    A.DivBelow(n, q + 1, 2 * p);
  }

  lemma QuotientIsSmaller(n: nat, k: nat)
    ensures A.Floor(n, Pow2(k)) <= n
  {
    A.MulMono(1, Pow2(k), n);
    assert Pow2(k) * n == n * Pow2(k);
    A.DivBelow(n, n + 1, Pow2(k));
  }

  /** Multiplicative decrease: k decreases leave 1 / 2ᵏ of the size, but never less than the minimum. */
  lemma {:induction false} DecreasesHalve(settings: Settings, m: Memory, batches: seq<Batch>)
    requires Sensible(settings) && InRange(settings, m) && AllDecrease(settings, m, batches)
    ensures After(settings, m, batches).size == Max(settings.minBatchSize, A.Floor(m.size, Pow2(|batches|)))
    decreases |batches|
  {
    if batches != [] {
      var m' := Recorded(settings, m, batches[0]).0;
      DecreasesHalve(settings, m', batches[1..]);
      HalfThenMore(m.size, |batches| - 1);
      QuotientIsSmaller(m.size / 2, |batches| - 1);
      QuotientIsSmaller(settings.minBatchSize, |batches| - 1);
      QuotientIsSmaller(settings.minBatchSize, |batches|);
    }
  }

  lemma {:induction false} PausesDouble(settings: Settings, m: Memory, batches: seq<Batch>, j: nat)
    requires Sensible(settings) && AllDecrease(settings, m, batches)
    requires m.size == settings.minBatchSize && m.pause == Min(settings.maxPauseMs, FIRST_BACKOFF_MS * Pow2(j))
    ensures After(settings, m, batches).pause == Min(settings.maxPauseMs, FIRST_BACKOFF_MS * Pow2(j + |batches|))
    decreases |batches|
  {
    if batches != [] {
      PausesDouble(settings, Recorded(settings, m, batches[0]).0, batches[1..], j + 1);
    }
  }

  /** At the minimum it backs off in time: 100 ms, doubling with each further decrease, up to the longest pause. */
  lemma BacksOffInTime(settings: Settings, m: Memory, batches: seq<Batch>)
    requires Sensible(settings) && AllDecrease(settings, m, batches) && batches != []
    requires m.size == settings.minBatchSize && m.pause == 0
    ensures After(settings, m, batches).size == settings.minBatchSize
    ensures After(settings, m, batches).pause == Min(settings.maxPauseMs, FIRST_BACKOFF_MS * Pow2(|batches| - 1))
  {
    DecreasesHalve(settings, m, batches);
    QuotientIsSmaller(m.size, |batches|);
    PausesDouble(settings, Recorded(settings, m, batches[0]).0, batches[1..], 0);
  }

  // ---- Recovery

  /** How often a number can be halved until nothing is left. */
  function Halvings(n: nat): nat {
    if n == 0 then 0 else 1 + Halvings(n / 2)
  }

  /** That is one more than its binary logarithm. */
  lemma {:induction false} HalvingsAreTheLogarithm(n: nat)
    requires n > 0
    ensures Halvings(n) > 0 && Pow2(Halvings(n) - 1) <= n < Pow2(Halvings(n))
  {
    if n > 1 {
      HalvingsAreTheLogarithm(n / 2);
    }
  }

  /** The steps up that are left. */
  function StepsUp(settings: Settings, size: nat): nat {
    if size >= settings.maxBatchSize then 0 else A.Ceil(settings.maxBatchSize - size, Increase(settings))
  }

  /** How many fast batches restore full speed. */
  function ToFullSpeed(settings: Settings, m: Memory): nat {
    Halvings(m.pause) + StepsUp(settings, m.size)
  }

  predicate Fast(settings: Settings, batches: seq<Batch>) {
    forall b <- batches :: !Bad(settings, b)
  }

  lemma OneStepUp(settings: Settings, size: nat)
    requires size < settings.maxBatchSize
    ensures StepsUp(settings, size) == 1 + StepsUp(settings, Min(settings.maxBatchSize, size + Increase(settings)))
  {
    var left, inc := settings.maxBatchSize - size, Increase(settings);
    if left <= inc {
      A.CeilIsOne(left, inc);
    } else {
      A.CeilLessOne(left, inc);
    }
  }

  lemma OneBatchCloser(settings: Settings, m: Memory, batch: Batch)
    requires Sensible(settings) && InRange(settings, m) && m.warm && !Bad(settings, batch)
    ensures
      var m' := Recorded(settings, m, batch).0;
      && m'.warm && InRange(settings, m')
      && ToFullSpeed(settings, m') == if ToFullSpeed(settings, m) == 0 then 0 else ToFullSpeed(settings, m) - 1
    ensures FullSpeed(settings, m) <==> ToFullSpeed(settings, m) == 0
  {
    if m.size < settings.maxBatchSize {
      OneStepUp(settings, m.size);
    }
  }

  /**
   * From any warmed-up state: after k fast batches it is at full speed exactly if k is at
   * least ⌊log₂ pause⌋ + 1 (0 without a pause) plus ⌈(max − size) / increase⌉.
   */
  lemma {:induction false} RecoversInTime(settings: Settings, m: Memory, batches: seq<Batch>)
    requires Sensible(settings) && InRange(settings, m) && m.warm && Fast(settings, batches)
    ensures FullSpeed(settings, After(settings, m, batches)) <==> |batches| >= ToFullSpeed(settings, m)
    decreases |batches|
  {
    if batches == [] {
      OneBatchCloser(settings, m, Batch(0, false, 0));
    } else {
      OneBatchCloser(settings, m, batches[0]);
      var m' := Recorded(settings, m, batches[0]).0;
      RecoversInTime(settings, m', batches[1..]);
      if ToFullSpeed(settings, m) == 0 {
        RecoversInTime(settings, m', []);
      }
    }
  }

  /** The way up is never more than 38 batches. */
  lemma StepsUpAreFew(settings: Settings, m: Memory)
    requires Sensible(settings) && InRange(settings, m)
    ensures StepsUp(settings, m.size) <= 38
  {
    if m.size < settings.maxBatchSize {
      var left, inc := settings.maxBatchSize - m.size, Increase(settings);
      assert left <= 38 * inc;
      A.DivBelow(left + inc - 1, 39, inc);
    }
  }
}
