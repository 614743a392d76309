/**
 * Failed partitions are not overlooked (src/core/background.js:534-585): what a roll-up saw of them is
 * how the partitions of its generation are from then on.
 */
module Failures {
  import opened Wrappers
  import opened Totals
  import opened Coordination
  import opened CoordinationInv
  import Completion
  import S = Store

  predicate NoneFailed(db: S.Db, generation: nat) {
    forall pid <- db.parts :: db.parts[pid].generation == generation ==> db.parts[pid].status != S.Status.Failed
  }

  /** The passes rolled up are known, and one whose roll-up saw no failed partition has none. */
  ghost predicate FailInv(s: System) {
    && (forall g: nat :: g in s.failedAt <==> 1 <= g <= s.state.rolled)
    && (forall g <- s.failedAt :: s.failedAt[g] == 0 ==> NoneFailed(s.db, g))
    && (forall c <- s.coords :: SummedFailures(s, s.coords[c]))
  }

  ghost predicate SummedFailures(s: System, me: Coord) {
    me.pc.Summed? && me.pc.failed == 0 && s.state.rolled < me.gen ==> NoneFailed(s.db, me.gen)
  }

  /** A partition that fails was open, and of a committed plan. */
  ghost predicate FailsOnlyOpen(s: System, db: S.Db) {
    forall pid <- db.parts :: db.parts[pid].status == S.Status.Failed ==>
      && pid in s.db.parts && db.parts[pid].generation == s.db.parts[pid].generation
      && (s.db.parts[pid].status == S.Status.Failed || (S.Open(s.db.parts[pid]) && IsCommitted(s, s.db.parts[pid])))
  }

  lemma ClaimsFailNothing(cfg: Config, s: System, step: S.Step)
    requires step.ClaimStep? || step.RenewStep? || step.ReleaseStep? || step.CheckpointStep?
    ensures FailsOnlyOpen(s, S.Apply(cfg.store, s.db, step))
  {
  }

  lemma FailuresFailTheOpen(cfg: Config, s: System, step: S.Step)
    requires LaneStep(s, step) && (step.FailSliceStep? || step.FailPartitionStep?)
    ensures FailsOnlyOpen(s, S.Apply(cfg.store, s.db, step))
  {
  }

  lemma UnleasingFailsNothing(cfg: Config, s: System, step: S.Step)
    requires step.Tick? || step.ReapStep? || step.UnlockStep?
    ensures FailsOnlyOpen(s, S.Apply(cfg.store, s.db, step))
  {
  }

  lemma LanesFailTheOpen(cfg: Config, s: System, step: S.Step)
    requires LaneStep(s, step)
    ensures FailsOnlyOpen(s, S.Apply(cfg.store, s.db, step))
  {
    if step.FailSliceStep? || step.FailPartitionStep? {
      FailuresFailTheOpen(cfg, s, step);
    } else if step.Tick? || step.ReapStep? || step.UnlockStep? {
      UnleasingFailsNothing(cfg, s, step);
    } else {
      ClaimsFailNothing(cfg, s, step);
    }
  }

  lemma DropsFailNothing(s: System, token: nat, upTo: int)
    ensures FailsOnlyOpen(s, S.DropPlan(s.db, token)) && FailsOnlyOpen(s, S.DropForeignPlans(s.db, token))
    ensures FailsOnlyOpen(s, S.DropGenerations(s.db, upTo))
  {
  }

  lemma RetryFailsNothing(s: System)
    ensures FailsOnlyOpen(s, NextRetry(s).db)
  {
  }

  lemma CancelPlanFailsNothing(s: System, generation: nat)
    requires generation in s.plans
    ensures FailsOnlyOpen(s, NextCancelPlan(s, generation).db)
  {
  }

  lemma InsertsFailNothing(s: System, generation: nat, plan: nat, groups: seq<Option<string>>)
    ensures FailsOnlyOpen(s, S.Insert(s.db, generation, plan, groups))
  {
  }

  /** A generation rolled up, or found drained, has no open partition to fail. */
  lemma ClosedStayUnfailed(s: System, db: S.Db, g: nat)
    requires PartsInv(s) && FailsOnlyOpen(s, db) && NoneFailed(s.db, g)
    requires g <= s.state.rolled || (g in s.plans && NoneOpen(s.db, g, s.plans[g]))
    ensures NoneFailed(db, g)
  {
    forall pid | pid in db.parts && pid in s.db.parts ensures PartInv(s, pid) {
    }
  }

  /** A step that rolls up nothing and sums up nothing new. */
  ghost predicate SumsNothingNew(s: System, s': System) {
    && s'.failedAt == s.failedAt && s'.state.rolled == s.state.rolled
    && forall c <- s'.coords :: s'.coords[c].pc.Summed? ==>
         c in s.coords && s.coords[c].pc == s'.coords[c].pc && s.coords[c].gen == s'.coords[c].gen
  }

  lemma QuietKeepsFailInv(s: System, s': System)
    requires Inv(s) && FailInv(s) && FailsOnlyOpen(s, s'.db) && SumsNothingNew(s, s')
    ensures FailInv(s')
  {
    forall g | g in s'.failedAt && s'.failedAt[g] == 0 ensures NoneFailed(s'.db, g) {
      ClosedStayUnfailed(s, s'.db, g);
    }
    forall c | c in s'.coords ensures SummedFailures(s', s'.coords[c]) {
      var me := s'.coords[c];
      if me.pc.Summed? && me.pc.failed == 0 && s'.state.rolled < me.gen {
        assert CoordInv(s, s.coords[c]) && SummedFailures(s, s.coords[c]);
        ClosedStayUnfailed(s, s'.db, me.gen);
      }
    }
  }

  lemma SumTotalsKeepsFailInv(cfg: Config, s: System, c: nat)
    requires FailInv(s) && Enabled(cfg, s, SumTotals(c))
    ensures FailInv(Next(cfg, s, SumTotals(c)))
  {
    var s' := Next(cfg, s, SumTotals(c));
    var gen := s.coords[c].gen;
    var failed := set pid | pid in s.db.parts && s.db.parts[pid].generation == gen && s.db.parts[pid].status == S.Status.Failed;
    assert FailedOf(s, gen) == |failed|;
    if failed == {} {
      assert forall pid <- s.db.parts :: pid !in failed;
    }
    forall d | d in s'.coords ensures SummedFailures(s', s'.coords[d]) {
      if d != c {
        assert SummedFailures(s, s.coords[d]);
      }
    }
  }

  lemma RollUpKeepsFailInv(s: System, c: nat)
    requires Inv(s) && FailInv(s) && c in s.coords && s.coords[c].pc.Summed?
    ensures FailInv(NextRollUp(s, c))
  {
    var s' := NextRollUp(s, c);
    assert CoordInv(s, s.coords[c]) && SummedFailures(s, s.coords[c]);
    forall d | d in s'.coords ensures SummedFailures(s', s'.coords[d]) {
      if d != c {
        assert SummedFailures(s, s.coords[d]);
      }
    }
  }

  // ---- The other steps

  lemma LaneKeepsFailInv(cfg: Config, s: System, step: S.Step)
    requires Inv(s) && FailInv(s) && LaneStep(s, step)
    ensures FailInv(NextLane(cfg, s, step))
  {
    LanesFailTheOpen(cfg, s, step);
    QuietKeepsFailInv(s, NextLane(cfg, s, step));
  }

  lemma InsertSumsNothing(s: System, c: nat, groups: seq<Option<string>>)
    requires c in s.coords
    ensures SumsNothingNew(s, NextInsert(s, c, groups))
  {
  }

  lemma InsertKeepsFailInv(s: System, c: nat, groups: seq<Option<string>>)
    requires Inv(s) && FailInv(s) && c in s.coords
    ensures FailInv(NextInsert(s, c, groups))
  {
    var s' := NextInsert(s, c, groups);
    assert FailsOnlyOpen(s, s'.db) by {
      InsertsFailNothing(s, s.coords[c].st.generation + 1, s.nextPlan, groups);
    }
    InsertSumsNothing(s, c, groups);
    QuietKeepsFailInv(s, s');
  }

  lemma CommitSumsNothing(s: System, c: nat)
    requires c in s.coords && s.coords[c].pc.Inserted?
    ensures SumsNothingNew(s, NextCommit(s, c)) && NextCommit(s, c).db == s.db
  {
  }

  lemma CommitKeepsFailInv(s: System, c: nat)
    requires Inv(s) && FailInv(s) && c in s.coords && s.coords[c].pc.Inserted?
    ensures FailInv(NextCommit(s, c))
  {
    CommitSumsNothing(s, c);
    QuietKeepsFailInv(s, NextCommit(s, c));
  }

  lemma DropsKeepFailInv(s: System, c: nat)
    requires Inv(s) && FailInv(s) && c in s.coords
    ensures s.coords[c].pc.Lost? ==> FailInv(NextDropLost(s, c))
    ensures FailInv(NextDropForeign(s, c)) && FailInv(NextDropOld(s, c))
  {
    DropsFailNothing(s, s.coords[c].st.plan.GetOr(0), s.coords[c].gen - 1);
    QuietKeepsFailInv(s, NextDropForeign(s, c));
    QuietKeepsFailInv(s, NextDropOld(s, c));
    if s.coords[c].pc.Lost? {
      DropsFailNothing(s, s.coords[c].pc.token, 0);
      QuietKeepsFailInv(s, NextDropLost(s, c));
    }
  }

  lemma RetryKeepsFailInv(s: System)
    requires Inv(s) && FailInv(s)
    ensures FailInv(NextRetry(s))
  {
    RetryFailsNothing(s);
    QuietKeepsFailInv(s, NextRetry(s));
  }

  lemma CancelPlanKeepsFailInv(s: System, generation: nat)
    requires Inv(s) && FailInv(s) && generation in s.plans
    ensures FailInv(NextCancelPlan(s, generation))
  {
    CancelPlanFailsNothing(s, generation);
    QuietKeepsFailInv(s, NextCancelPlan(s, generation));
  }

  lemma StatusSumsNothing(cfg: Config, s: System, step: Step)
    requires Enabled(cfg, s, step) && (step.FailState? || step.Writes? || step.Start? || step.Pause? || step.Resume? || step.Cancel?)
    ensures SumsNothingNew(s, Next(cfg, s, step)) && Next(cfg, s, step).db == s.db
  {
    if !step.Writes? {
      var status := ControlsMoveTheStatus(cfg, s, step);
    }
  }

  lemma ReadingSumsNothing(cfg: Config, s: System, step: Step)
    requires Enabled(cfg, s, step) && (step.Load? || step.FindDrained? || step.AlreadyRolledUp? || step.Crash?)
    ensures SumsNothingNew(s, Next(cfg, s, step)) && Next(cfg, s, step).db == s.db
  {
  }

  lemma ClosingSumsNothing(cfg: Config, s: System, step: Step)
    requires Enabled(cfg, s, step) && (step.GiveUp? || step.CountLeft? || step.Complete? || step.NextPass?)
    ensures SumsNothingNew(s, Next(cfg, s, step)) && Next(cfg, s, step).db == s.db
  {
  }

  lemma PlanningKeepsFailInv(cfg: Config, s: System, step: Step)
    requires Inv(s) && FailInv(s) && Enabled(cfg, s, step)
    requires step.InsertPlan? || step.CommitPlan? || step.DropLost? || step.DropForeign? || step.DropOld?
    ensures FailInv(Next(cfg, s, step))
  {
    if step.InsertPlan? {
      InsertKeepsFailInv(s, step.c, step.groups);
    } else if step.CommitPlan? {
      CommitKeepsFailInv(s, step.c);
    } else {
      DropsKeepFailInv(s, step.c);
    }
  }

  lemma ControlsKeepFailInv(cfg: Config, s: System, step: Step)
    requires Inv(s) && FailInv(s) && Enabled(cfg, s, step) && (step.CancelPlan? || step.Retry?)
    ensures FailInv(Next(cfg, s, step))
  {
    if step.Retry? {
      RetryKeepsFailInv(s);
    } else {
      CancelPlanKeepsFailInv(s, step.generation);
    }
  }

  lemma StepKeepsFailInv(cfg: Config, s: System, step: Step)
    requires Inv(s) && FailInv(s) && Enabled(cfg, s, step)
    ensures FailInv(Next(cfg, s, step))
  {
    if step.Lane? {
      LaneKeepsFailInv(cfg, s, step.step);
    } else if step.InsertPlan? || step.CommitPlan? || step.DropLost? || step.DropForeign? || step.DropOld? {
      PlanningKeepsFailInv(cfg, s, step);
    } else if step.CancelPlan? || step.Retry? {
      ControlsKeepFailInv(cfg, s, step);
    } else if step.SumTotals? {
      SumTotalsKeepsFailInv(cfg, s, step.c);
    } else if step.RollUp? {
      RollUpKeepsFailInv(s, step.c);
    } else {
      OthersKeepFailInv(cfg, s, step);
    }
  }

  lemma OthersKeepFailInv(cfg: Config, s: System, step: Step)
    requires Inv(s) && FailInv(s) && Enabled(cfg, s, step)
    requires !step.Lane? && !step.InsertPlan? && !step.CommitPlan? && !step.DropLost? && !step.DropForeign? && !step.DropOld?
    requires !step.CancelPlan? && !step.Retry? && !step.SumTotals? && !step.RollUp?
    ensures FailInv(Next(cfg, s, step))
  {
    if step.Load? || step.FindDrained? || step.AlreadyRolledUp? || step.Crash? {
      ReadingSumsNothing(cfg, s, step);
    } else if step.GiveUp? || step.CountLeft? || step.Complete? || step.NextPass? {
      ClosingSumsNothing(cfg, s, step);
    } else {
      StatusSumsNothing(cfg, s, step);
    }
    QuietKeepsFailInv(s, Next(cfg, s, step));
  }

  lemma {:induction false} RunKeepsFailInv(cfg: Config, s: System, steps: seq<Step>)
    requires Inv(s) && FailInv(s) && Run(cfg, s, steps)
    ensures FailInv(After(cfg, s, steps))
    decreases |steps|
  {
    if steps != [] {
      StepKeepsInv(cfg, s, steps[0]);
      StepKeepsFailInv(cfg, s, steps[0]);
      RunKeepsFailInv(cfg, Next(cfg, s, steps[0]), steps[1..]);
    }
  }

  /**
   * A state is completed only with a count of zero for the pass it completes with. Every partition of a
   * plan up to that pass, as far as it is still there, is closed then and — unless somebody retried — none
   * has failed. If that pass is the current one, this is every partition there is.
   */
  lemma CompletedWithoutFailures(cfg: Config, s0: System, steps: seq<Step>)
    requires Initial(s0) && cfg.maxPasses > 0 && Run(cfg, s0, steps)
    requires After(cfg, s0, steps).state.status == Completed
    ensures
      var s := After(cfg, s0, steps);
      && s.completed.Some? && Completion.CountedZero(cfg, s0, steps, s.completed.value)
      && ClosedUpTo(s, s.completed.value) && (!s.retried ==> UnfailedUpTo(s, s.completed.value))
      && (s.completed == Some(s.state.generation) ==> AllClosed(s) && (!s.retried ==> NothingFailed(s)))
  {
    Completion.CompletedOnlyAfterAZeroCount(cfg, s0, steps);
    RunKeepsInv(cfg, s0, steps);
    RunKeepsFailInv(cfg, s0, steps);
    ClosedAndUnfailed(After(cfg, s0, steps));
  }

  /** Every partition of a committed plan up to this pass is closed. */
  predicate ClosedUpTo(s: System, g: nat) {
    forall pid <- s.db.parts :: IsCommitted(s, s.db.parts[pid]) && s.db.parts[pid].generation <= g ==> !S.Open(s.db.parts[pid])
  }

  predicate UnfailedUpTo(s: System, g: nat) {
    forall pid <- s.db.parts :: s.db.parts[pid].generation <= g ==> s.db.parts[pid].status != S.Status.Failed
  }

  predicate AllClosed(s: System) {
    forall pid <- s.db.parts :: IsCommitted(s, s.db.parts[pid]) ==> !S.Open(s.db.parts[pid])
  }

  predicate NothingFailed(s: System) {
    forall pid <- s.db.parts :: s.db.parts[pid].status != S.Status.Failed
  }

  lemma ClosedAndUnfailed(s: System)
    requires Inv(s) && FailInv(s) && s.completed.Some? && s.completed.value <= s.state.rolled
    requires !s.retried ==> forall h <- s.failedAt :: h <= s.completed.value ==> s.failedAt[h] == 0
    ensures ClosedUpTo(s, s.completed.value) && (!s.retried ==> UnfailedUpTo(s, s.completed.value))
    ensures s.completed == Some(s.state.generation) ==> AllClosed(s) && (!s.retried ==> NothingFailed(s))
  {
    var g := s.completed.value;
    forall pid | pid in s.db.parts
      ensures IsCommitted(s, s.db.parts[pid]) && s.db.parts[pid].generation <= g ==> !S.Open(s.db.parts[pid])
      ensures !s.retried && s.db.parts[pid].generation <= g ==> s.db.parts[pid].status != S.Status.Failed
      ensures !IsCommitted(s, s.db.parts[pid]) ==> s.db.parts[pid].status != S.Status.Failed
      ensures IsCommitted(s, s.db.parts[pid]) ==> s.db.parts[pid].generation <= s.state.generation
    {
      assert PartInv(s, pid);
      var h := s.db.parts[pid].generation;
      if !s.retried && h <= g && h in s.failedAt {
        assert NoneFailed(s.db, h);
      }
    }
  }
}
