/**
 * Safe, bounded completion (src/core/background.js:386-449, 530-647): a state is completed only by a
 * coordinator that, seeing no failed partition, counted zero documents left outside the bad ids; the
 * pass it closed is the current one unless another plan was committed meanwhile; and a registration
 * nobody retries plans at most `maxPasses` passes.
 */
module Completion {
  import opened Wrappers
  import opened Coordination
  import opened CoordinationInv
  import opened OnePlan
  import S = Store

  // ---- What a state or a coordinator's copy of it may hold

  /** As long as nobody retried, no failure is forgotten: a copy without one saw none. */
  ghost predicate RemembersFailures(s: System, st: StateDoc) {
    !s.retried && st.failedPartitions == 0 ==> forall g <- s.failedAt :: g <= st.rolled ==> s.failedAt[g] == 0
  }

  /** As long as nobody retried, a pass is planned only below the bound. */
  ghost predicate WithinPasses(cfg: Config, s: System, st: StateDoc) {
    && st.pass == st.generation
    && (!s.retried ==> st.pass <= cfg.maxPasses && (st.phase == Partitioning ==> st.pass < cfg.maxPasses))
  }

  ghost predicate CopyInv(cfg: Config, s: System, st: StateDoc) {
    RemembersFailures(s, st) && WithinPasses(cfg, s, st)
  }

  ghost predicate CompInv(cfg: Config, s: System) {
    && (s.state.status == Completed ==> s.completed.Some?)
    && (s.completed.Some? ==> s.completed.value in s.zeroCounted)
    && (forall g <- s.failedAt :: g <= s.state.rolled)
    && (forall g <- s.zeroCounted :: g <= s.state.rolled)
    && (forall g <- s.zeroCounted :: !s.retried ==> forall h <- s.failedAt :: h <= g ==> s.failedAt[h] == 0)
    && CopyInv(cfg, s, s.state)
    && forall c <- s.coords ::
         && CopyInv(cfg, s, s.coords[c].st)
         && (s.coords[c].pc == Counted(true) ==> s.coords[c].gen in s.zeroCounted)
  }

  /** The history of counts and failures, and every coordinator's copy, are as they were. */
  ghost predicate SameCopies(s: System, s': System) {
    && s'.completed == s.completed && s'.zeroCounted == s.zeroCounted && s'.failedAt == s.failedAt && s'.retried == s.retried
    && forall c <- s'.coords ::
         && (s'.coords[c].pc == Counted(true) ==>
               c in s.coords && s.coords[c].pc == Counted(true) && s.coords[c].gen == s'.coords[c].gen)
         && (s'.coords[c].st == s'.state || s'.coords[c].st == s.state || (c in s.coords && s'.coords[c].st == s.coords[c].st))
  }

  lemma SameCopiesKeepInv(cfg: Config, s: System, s': System)
    requires CompInv(cfg, s) && SameCopies(s, s') && s'.state.rolled == s.state.rolled
    requires s'.state.status == Completed ==> s.completed.Some?
    requires CopyInv(cfg, s, s'.state)
    ensures CompInv(cfg, s')
  {
    forall c | c in s'.coords ensures CopyInv(cfg, s', s'.coords[c].st) {
    }
  }

  // ---- Step by step

  /** Nothing that completion depends on changes, but perhaps the status, to something other than completed. */
  ghost predicate Unconcerned(s: System, s': System) {
    && SameCopies(s, s') && s'.state.rolled == s.state.rolled && s'.state.failedPartitions == s.state.failedPartitions
    && s'.state.pass == s.state.pass && s'.state.generation == s.state.generation && s'.state.phase == s.state.phase
    && (s'.state.status == Completed ==> s.state.status == Completed)
  }

  lemma UnconcernedKeepsInv(cfg: Config, s: System, s': System)
    requires CompInv(cfg, s) && Unconcerned(s, s')
    ensures CompInv(cfg, s')
  {
    SameCopiesKeepInv(cfg, s, s');
  }

  lemma ControlsAreUnconcerned(cfg: Config, s: System, step: Step)
    requires Enabled(cfg, s, step) && (step.FailState? || step.Writes? || step.Start? || step.Pause? || step.Resume? || step.Cancel?)
    ensures Unconcerned(s, Next(cfg, s, step))
  {
    if !step.Writes? {
      var status := ControlsMoveTheStatus(cfg, s, step);
    }
  }

  lemma LanesAreUnconcerned(cfg: Config, s: System, step: S.Step)
    ensures Unconcerned(s, NextLane(cfg, s, step))
  {
  }

  lemma CancelPlanIsUnconcerned(s: System, generation: nat)
    requires generation in s.plans
    ensures Unconcerned(s, NextCancelPlan(s, generation))
  {
  }

  lemma ReadingIsUnconcerned(cfg: Config, s: System, step: Step)
    requires Enabled(cfg, s, step)
    requires step.Load? || step.FindDrained? || step.AlreadyRolledUp? || step.SumTotals? || step.GiveUp? || step.Crash?
    ensures Unconcerned(s, Next(cfg, s, step))
  {
  }

  lemma DropsAreUnconcerned(cfg: Config, s: System, step: Step)
    requires Enabled(cfg, s, step) && (step.DropLost? || step.DropForeign? || step.DropOld?)
    ensures Unconcerned(s, Next(cfg, s, step))
  {
  }

  lemma InsertIsUnconcerned(s: System, c: nat, groups: seq<Option<string>>)
    requires c in s.coords
    ensures Unconcerned(s, NextInsert(s, c, groups))
  {
  }

  /** A retry forgets failures and may plan once more: both bounds are given up from here on. */
  lemma RetryKeepsCompInv(cfg: Config, s: System)
    requires CompInv(cfg, s) && (s.state.status == Failed || s.state.status == Cancelled)
    ensures CompInv(cfg, NextRetry(s))
  {
  }

  /** A plan is committed from a copy below the bound, so one pass more is still within it. */
  lemma CommittedCopy(cfg: Config, s: System, c: nat)
    requires c in s.coords && s.coords[c].pc.Inserted? && s.coords[c].st.phase == Partitioning
    requires CopyInv(cfg, s, s.state) && CopyInv(cfg, s, s.coords[c].st)
    ensures CopyInv(cfg, s, NextCommit(s, c).state)
  {
  }

  lemma CommitKeepsCopies(s: System, c: nat)
    requires c in s.coords && s.coords[c].pc.Inserted?
    ensures SameCopies(s, NextCommit(s, c))
    ensures NextCommit(s, c).state.rolled == s.state.rolled && NextCommit(s, c).state.status == s.state.status
  {
  }

  lemma CommitKeepsCompInv(cfg: Config, s: System, c: nat)
    requires Inv(s) && CompInv(cfg, s) && c in s.coords && s.coords[c].pc.Inserted?
    ensures CompInv(cfg, NextCommit(s, c))
  {
    assert CoordInv(s, s.coords[c]);
    CommittedCopy(cfg, s, c);
    CommitKeepsCopies(s, c);
    SameCopiesKeepInv(cfg, s, NextCommit(s, c));
  }

  /** The roll-up writes down what failed: a state without failed partitions has rolled up none. */
  lemma RollUpKeepsCompInv(cfg: Config, s: System, c: nat)
    requires Inv(s) && CompInv(cfg, s) && c in s.coords && s.coords[c].pc.Summed?
    ensures CompInv(cfg, NextRollUp(s, c))
  {
    var s' := NextRollUp(s, c);
    assert CoordInv(s, s.coords[c]);
    forall d | d in s.coords ensures CopyInv(cfg, s', s.coords[d].st) {
      assert CoordInv(s, s.coords[d]);
    }
    assert CopyInv(cfg, s', s'.state);
  }

  /** A count of zero is taken on a copy without failed partitions, of a pass rolled up. */
  lemma CountKeepsCompInv(cfg: Config, s: System, c: nat)
    requires Inv(s) && CompInv(cfg, s) && c in s.coords && s.coords[c].pc.RolledUp? && s.coords[c].st.failedPartitions == 0
    ensures CompInv(cfg, NextCountLeft(s, c))
  {
    var s' := NextCountLeft(s, c);
    assert CoordInv(s, s.coords[c]) && CopyInv(cfg, s, s.coords[c].st);
    forall d | d in s'.coords ensures CopyInv(cfg, s', s'.coords[d].st) {
      assert CopyInv(cfg, s, s.coords[d].st);
    }
    forall g | g in s'.zeroCounted ensures g in s.zeroCounted || g == s.coords[c].gen {
    }
  }

  lemma CompleteKeepsCompInv(cfg: Config, s: System, c: nat)
    requires Inv(s) && CompInv(cfg, s) && Enabled(cfg, s, Complete(c))
    ensures CompInv(cfg, NextComplete(s, c))
  {
    var s' := NextComplete(s, c);
    assert s.coords[c].gen in s.zeroCounted;
    assert CoordInv(s, s.coords[c]);
    forall d | d in s'.coords ensures CopyInv(cfg, s', s'.coords[d].st) {
      assert CopyInv(cfg, s, s.coords[d].st);
    }
  }

  /** The next pass is decided on a copy that has not reached the bound, and of this very generation. */
  lemma NextPassKeepsCompInv(cfg: Config, s: System, c: nat)
    requires Inv(s) && CompInv(cfg, s) && Enabled(cfg, s, NextPass(c))
    ensures CompInv(cfg, NextNextPass(s, c))
  {
    assert CoordInv(s, s.coords[c]) && CopyInv(cfg, s, s.coords[c].st);
    SameCopiesKeepInv(cfg, s, NextNextPass(s, c));
  }

  lemma UnconcernedSteps(cfg: Config, s: System, step: Step)
    requires Enabled(cfg, s, step) && !step.Retry? && !step.CommitPlan? && !step.RollUp?
    requires !step.CountLeft? && !step.Complete? && !step.NextPass?
    ensures Unconcerned(s, Next(cfg, s, step))
  {
    if step.Lane? {
      LanesAreUnconcerned(cfg, s, step.step);
    } else if step.CancelPlan? {
      CancelPlanIsUnconcerned(s, step.generation);
    } else if step.InsertPlan? {
      InsertIsUnconcerned(s, step.c, step.groups);
    } else if step.DropLost? || step.DropForeign? || step.DropOld? {
      DropsAreUnconcerned(cfg, s, step);
    } else if step.FailState? || step.Writes? || step.Start? || step.Pause? || step.Resume? || step.Cancel? {
      ControlsAreUnconcerned(cfg, s, step);
    } else {
      ReadingIsUnconcerned(cfg, s, step);
    }
  }

  lemma DecidingKeepsCompInv(cfg: Config, s: System, step: Step)
    requires Inv(s) && CompInv(cfg, s) && Enabled(cfg, s, step) && (step.CountLeft? || step.Complete? || step.NextPass?)
    ensures CompInv(cfg, Next(cfg, s, step))
  {
    if step.CountLeft? {
      CountKeepsCompInv(cfg, s, step.c);
    } else if step.Complete? {
      CompleteKeepsCompInv(cfg, s, step.c);
    } else {
      NextPassKeepsCompInv(cfg, s, step.c);
    }
  }

  lemma StepKeepsCompInv(cfg: Config, s: System, step: Step)
    requires Inv(s) && CompInv(cfg, s) && Enabled(cfg, s, step)
    ensures CompInv(cfg, Next(cfg, s, step))
  {
    if step.Retry? {
      RetryKeepsCompInv(cfg, s);
    } else if step.CommitPlan? {
      CommitKeepsCompInv(cfg, s, step.c);
    } else if step.RollUp? {
      RollUpKeepsCompInv(cfg, s, step.c);
    } else if step.CountLeft? || step.Complete? || step.NextPass? {
      DecidingKeepsCompInv(cfg, s, step);
    } else {
      UnconcernedSteps(cfg, s, step);
      UnconcernedKeepsInv(cfg, s, Next(cfg, s, step));
    }
  }

  lemma {:induction false} RunKeepsCompInv(cfg: Config, s: System, steps: seq<Step>)
    requires Inv(s) && CompInv(cfg, s) && Run(cfg, s, steps)
    ensures Inv(After(cfg, s, steps)) && CompInv(cfg, After(cfg, s, steps))
    decreases |steps|
  {
    if steps != [] {
      StepKeepsInv(cfg, s, steps[0]);
      StepKeepsCompInv(cfg, s, steps[0]);
      RunKeepsCompInv(cfg, Next(cfg, s, steps[0]), steps[1..]);
    }
  }

  // ---- Over whole runs

  /** This step counts no document left outside the bad ids, for pass g, and saw no failed partition. */
  ghost predicate CountsZero(cfg: Config, s: System, step: Step, g: nat) {
    && step.CountLeft? && Enabled(cfg, s, step)
    && s.coords[step.c].gen == g && s.coords[step.c].st.failedPartitions == 0
    && forall id <- s.matching :: id in s.coords[step.c].st.badIds
  }

  ghost predicate CountedZero(cfg: Config, s: System, steps: seq<Step>, g: nat)
    requires Run(cfg, s, steps)
    decreases |steps|
  {
    steps != [] && (CountsZero(cfg, s, steps[0], g) || CountedZero(cfg, Next(cfg, s, steps[0]), steps[1..], g))
  }

  lemma OthersCountNothing(cfg: Config, s: System, step: Step)
    requires Enabled(cfg, s, step) && (step.Retry? || step.CommitPlan? || step.RollUp? || step.Complete? || step.NextPass?)
    ensures Next(cfg, s, step).zeroCounted == s.zeroCounted
  {
  }

  lemma OnlyCountsAddZeroCounts(cfg: Config, s: System, step: Step, g: nat)
    requires Enabled(cfg, s, step) && g in Next(cfg, s, step).zeroCounted && g !in s.zeroCounted
    ensures CountsZero(cfg, s, step, g)
  {
    if step.CountLeft? {
      assert Next(cfg, s, step) == NextCountLeft(s, step.c);
    } else if step.Retry? || step.CommitPlan? || step.RollUp? || step.Complete? || step.NextPass? {
      OthersCountNothing(cfg, s, step);
      assert false;
    } else {
      UnconcernedSteps(cfg, s, step);
      assert false;
    }
  }

  lemma {:induction false} ZeroCountsHappened(cfg: Config, s: System, steps: seq<Step>, g: nat)
    requires Run(cfg, s, steps) && g in After(cfg, s, steps).zeroCounted && g !in s.zeroCounted
    ensures CountedZero(cfg, s, steps, g)
    decreases |steps|
  {
    if steps != [] {
      var s' := Next(cfg, s, steps[0]);
      if g in s'.zeroCounted {
        OnlyCountsAddZeroCounts(cfg, s, steps[0], g);
      } else {
        ZeroCountsHappened(cfg, s', steps[1..], g);
      }
    }
  }

  /**
   * However plans overlap, leave gaps or lose partitions, and however many coordinators race: a state is
   * completed only by a coordinator that, with no failed partition in its copy of the state, counted zero
   * documents outside the bad ids for the pass it closed, which was rolled up — and, unless somebody
   * retried, no pass rolled up until then had a failed partition.
   */
  lemma CompletedOnlyAfterAZeroCount(cfg: Config, s0: System, steps: seq<Step>)
    requires Initial(s0) && cfg.maxPasses > 0 && Run(cfg, s0, steps)
    requires After(cfg, s0, steps).state.status == Completed
    ensures
      var s := After(cfg, s0, steps);
      && s.completed.Some? && CountedZero(cfg, s0, steps, s.completed.value) && s.completed.value <= s.state.rolled
      && (!s.retried ==> forall h <- s.failedAt :: h <= s.completed.value ==> s.failedAt[h] == 0)
  {
    RunKeepsCompInv(cfg, s0, steps);
    ZeroCountsHappened(cfg, s0, steps, After(cfg, s0, steps).completed.value);
  }

  // ---- Which pass it is

  /**
   * A coordinator that set out to close the current pass, and completes the state, completes with the
   * current pass exactly if no plan was committed in between.
   */
  lemma CompletedPassIsCurrentIff(cfg: Config, s: System, steps: seq<Step>, c: nat)
    requires Inv(s) && c in s.coords && s.coords[c].gen == s.state.generation && Run(cfg, s, steps)
    requires Enabled(cfg, After(cfg, s, steps), Complete(c)) && Live(After(cfg, s, steps).state.status)
    requires After(cfg, s, steps).coords[c].gen == s.coords[c].gen
    ensures
      var done := Next(cfg, After(cfg, s, steps), Complete(c));
      && done.state == After(cfg, s, steps).state.(status := Completed, phase := Processing)
      && done.completed == Some(s.coords[c].gen)
      && (done.completed == Some(done.state.generation) <==> NothingCommits(cfg, s, steps))
  {
    SameGenerationIff(cfg, s, steps);
    assert Next(cfg, After(cfg, s, steps), Complete(c)) == NextComplete(After(cfg, s, steps), c);
  }

  lemma CompletedStaysSo(cfg: Config, s: System, step: Step)
    requires Inv(s) && Enabled(cfg, s, step) && s.state.status == Completed
    ensures
      var s' := Next(cfg, s, step);
      s'.state.status == Completed && s'.completed == s.completed && s'.state.generation == s.state.generation
  {
    GenerationsIncrease(cfg, s, step);
    if step.Complete? {
      assert Next(cfg, s, step) == NextComplete(s, step.c);
    } else if step.CommitPlan? || step.RollUp? || step.CountLeft? || step.NextPass? {
      ClosingKeepsTheStatus(cfg, s, step);
    } else {
      UnconcernedSteps(cfg, s, step);
      CompletedKeepsTheStatus(cfg, s, step);
    }
  }

  lemma ClosingKeepsTheStatus(cfg: Config, s: System, step: Step)
    requires Enabled(cfg, s, step) && (step.CommitPlan? || step.RollUp? || step.CountLeft? || step.NextPass?)
    ensures Next(cfg, s, step).state.status == s.state.status && Next(cfg, s, step).completed == s.completed
  {
  }

  lemma PlansKeepTheStatus(cfg: Config, s: System, step: Step)
    requires Enabled(cfg, s, step) && (step.Lane? || step.InsertPlan? || step.CancelPlan? || step.Writes?)
    ensures Next(cfg, s, step).state == s.state
  {
    if step.Lane? {
      assert Next(cfg, s, step) == NextLane(cfg, s, step.step);
    }
  }

  lemma CompletedKeepsTheStatus(cfg: Config, s: System, step: Step)
    requires Enabled(cfg, s, step) && s.state.status == Completed && !step.Complete?
    requires !step.CommitPlan? && !step.RollUp? && !step.CountLeft? && !step.NextPass?
    ensures Next(cfg, s, step).state.status == Completed
  {
    if step.Lane? || step.InsertPlan? || step.CancelPlan? || step.Writes? {
      PlansKeepTheStatus(cfg, s, step);
    }
  }

  /** Completed is final: no later step plans, completes or fails anything again. */
  lemma {:induction false} CompletedIsFinal(cfg: Config, s: System, steps: seq<Step>)
    requires Inv(s) && Run(cfg, s, steps) && s.state.status == Completed
    ensures
      var s' := After(cfg, s, steps);
      s'.state.status == Completed && s'.completed == s.completed && s'.state.generation == s.state.generation
    decreases |steps|
  {
    if steps != [] {
      StepKeepsInv(cfg, s, steps[0]);
      CompletedStaysSo(cfg, s, steps[0]);
      CompletedIsFinal(cfg, Next(cfg, s, steps[0]), steps[1..]);
    }
  }

  /** Without a retry, at most `maxPasses` passes are ever planned. */
  lemma PassesAreBounded(cfg: Config, s0: System, steps: seq<Step>)
    requires Initial(s0) && cfg.maxPasses > 0 && Run(cfg, s0, steps)
    ensures
      var s := After(cfg, s0, steps);
      s.state.pass == s.state.generation == |s.plans| && (!s.retried ==> |s.plans| <= cfg.maxPasses)
  {
    RunKeepsCompInv(cfg, s0, steps);
    var s := After(cfg, s0, steps);
    PlansAreNumbered(s.plans, s.state.generation);
  }

  lemma {:induction false} PlansAreNumbered(plans: map<nat, nat>, n: nat)
    requires forall g :: g in plans <==> 1 <= g <= n
    ensures |plans| == n
    decreases n
  {
    if n == 0 {
      assert plans == map[];
    } else {
      var rest := plans - {n};
      PlansAreNumbered(rest, n - 1);
      assert plans.Keys == rest.Keys + {n};
    }
  }
}
