/** One plan at a time: what a commit race can leave behind, and what it cannot. */
module OnePlan {
  import opened Wrappers
  import opened Coordination
  import opened CoordinationInv
  import S = Store

  ghost predicate OfCurrentPlan(s: System, pid: nat) {
    && pid in s.db.parts && s.state.plan.Some?
    && S.OfPlan(s.db.parts[pid], s.state.generation, s.state.plan.value)
  }

  /** In every reachable state, all partitions of the current plan come from one single insert. */
  lemma CurrentPartitionsComeFromOneCommit(cfg: Config, s0: System, steps: seq<Step>, pid: nat)
    requires Initial(s0) && Run(cfg, s0, steps)
    requires OfCurrentPlan(After(cfg, s0, steps), pid)
    ensures
      var s := After(cfg, s0, steps);
      && s.state.plan.value in s.origin
      && var origin := s.origin[s.state.plan.value];
         origin.generation == s.state.generation && origin.first <= pid < origin.first + origin.count
  {
    RunKeepsInv(cfg, s0, steps);
    assert PartInv(After(cfg, s0, steps), pid);
  }

  // ---- Only an insert and a commit touch plans

  /** Plans, their origins and what is inserted but not committed are as they were. */
  ghost predicate SamePlans(s: System, s': System) {
    && s'.state.generation == s.state.generation && s'.state.plan == s.state.plan
    && s'.plans == s.plans && s'.origin == s.origin && s'.nextPlan == s.nextPlan
    && forall c <- s'.coords :: s'.coords[c].pc.Inserted? ==> c in s.coords && s.coords[c].pc == s'.coords[c].pc
  }

  lemma ControlsPlanNothing(cfg: Config, s: System, step: Step)
    requires Enabled(cfg, s, step)
    requires step.FailState? || step.Writes? || step.Start? || step.Pause? || step.Resume? || step.Cancel?
    ensures SamePlans(s, Next(cfg, s, step))
  {
    if !step.Writes? {
      var status := ControlsMoveTheStatus(cfg, s, step);
    }
  }

  lemma LanesPlanNothing(cfg: Config, s: System, step: S.Step)
    ensures SamePlans(s, NextLane(cfg, s, step))
  {
  }

  lemma StoreControlsPlanNothing(cfg: Config, s: System, step: Step)
    requires Enabled(cfg, s, step) && (step.CancelPlan? || step.Retry?)
    ensures SamePlans(s, Next(cfg, s, step))
  {
  }

  lemma RollingUpPlansNothing(cfg: Config, s: System, step: Step)
    requires Enabled(cfg, s, step) && (step.AlreadyRolledUp? || step.SumTotals? || step.RollUp?)
    ensures SamePlans(s, Next(cfg, s, step))
  {
  }

  lemma DecidingPlansNothing(cfg: Config, s: System, step: Step)
    requires Enabled(cfg, s, step) && (step.CountLeft? || step.Complete? || step.NextPass?)
    ensures SamePlans(s, Next(cfg, s, step))
  {
  }

  lemma TheRestPlansNothing(cfg: Config, s: System, step: Step)
    requires Enabled(cfg, s, step)
    requires step.Load? || step.DropLost? || step.DropForeign? || step.FindDrained? || step.GiveUp? || step.DropOld? || step.Crash?
    ensures SamePlans(s, Next(cfg, s, step))
  {
  }

  lemma OthersPlanNothing(cfg: Config, s: System, step: Step)
    requires Enabled(cfg, s, step) && !step.InsertPlan? && !step.CommitPlan?
    ensures SamePlans(s, Next(cfg, s, step))
  {
    if step.Load? || step.DropLost? || step.DropForeign? || step.FindDrained? || step.GiveUp? || step.DropOld? || step.Crash? {
      TheRestPlansNothing(cfg, s, step);
    } else if step.AlreadyRolledUp? || step.SumTotals? || step.RollUp? {
      RollingUpPlansNothing(cfg, s, step);
    } else if step.CountLeft? || step.Complete? || step.NextPass? {
      DecidingPlansNothing(cfg, s, step);
    } else if step.Lane? {
      LanesPlanNothing(cfg, s, step.step);
    } else if step.CancelPlan? || step.Retry? {
      StoreControlsPlanNothing(cfg, s, step);
    } else {
      ControlsPlanNothing(cfg, s, step);
    }
  }

  // ---- Histories of plans

  lemma OriginStays(cfg: Config, s: System, step: Step, token: nat)
    requires Inv(s) && Enabled(cfg, s, step) && token in s.origin
    ensures token in Next(cfg, s, step).origin && Next(cfg, s, step).origin[token] == s.origin[token]
  {
    if step.InsertPlan? {
      assert token < s.nextPlan;
    } else if step.CommitPlan? {
      assert Next(cfg, s, step) == NextCommit(s, step.c);
    } else {
      OthersPlanNothing(cfg, s, step);
    }
  }

  /** An insert is recorded once: no later step changes what a token stands for. */
  lemma {:induction false} OriginsStay(cfg: Config, s: System, steps: seq<Step>, token: nat)
    requires Inv(s) && Run(cfg, s, steps) && token in s.origin
    ensures token in After(cfg, s, steps).origin && After(cfg, s, steps).origin[token] == s.origin[token]
    decreases |steps|
  {
    if steps != [] {
      StepKeepsInv(cfg, s, steps[0]);
      OriginStays(cfg, s, steps[0], token);
      OriginsStay(cfg, Next(cfg, s, steps[0]), steps[1..], token);
    }
  }

  /** A compare-and-set that goes through. */
  ghost predicate Commits(cfg: Config, s: System, step: Step)
    requires Enabled(cfg, s, step)
  {
    step.CommitPlan? && Wins(s, step.c)
  }

  /** The plan changes exactly with a commit, and every commit is one generation further. */
  lemma GenerationsIncrease(cfg: Config, s: System, step: Step)
    requires Inv(s) && Enabled(cfg, s, step)
    ensures
      var s' := Next(cfg, s, step);
      if Commits(cfg, s, step)
      then s'.state.generation == s.state.generation + 1 && s'.state.plan == Some(s.coords[step.c].pc.token)
      else s'.state.generation == s.state.generation && s'.state.plan == s.state.plan
  {
    if step.InsertPlan? {
      assert Next(cfg, s, step) == NextInsert(s, step.c, step.groups);
    } else if step.CommitPlan? {
      assert Next(cfg, s, step) == NextCommit(s, step.c);
    } else {
      OthersPlanNothing(cfg, s, step);
    }
  }

  ghost predicate NothingCommits(cfg: Config, s: System, steps: seq<Step>)
    requires Run(cfg, s, steps)
    decreases |steps|
  {
    steps == [] || (!Commits(cfg, s, steps[0]) && NothingCommits(cfg, Next(cfg, s, steps[0]), steps[1..]))
  }

  /** Over a run the generation is the one it was exactly if nothing was committed meanwhile. */
  lemma {:induction false} SameGenerationIff(cfg: Config, s: System, steps: seq<Step>)
    requires Inv(s) && Run(cfg, s, steps)
    ensures After(cfg, s, steps).state.generation == s.state.generation <==> NothingCommits(cfg, s, steps)
    decreases |steps|
  {
    if steps != [] {
      StepKeepsInv(cfg, s, steps[0]);
      GenerationsIncrease(cfg, s, steps[0]);
      SameGenerationIff(cfg, Next(cfg, s, steps[0]), steps[1..]);
      GenerationsNeverFall(cfg, Next(cfg, s, steps[0]), steps[1..]);
    }
  }

  /** So a generation, once left, is never the current one again. */
  lemma {:induction false} GenerationsNeverFall(cfg: Config, s: System, steps: seq<Step>)
    requires Inv(s) && Run(cfg, s, steps)
    ensures
      var s' := After(cfg, s, steps);
      && s.state.generation <= s'.state.generation
      && (s'.state.generation == s.state.generation ==> s'.state.plan == s.state.plan)
    decreases |steps|
  {
    if steps != [] {
      StepKeepsInv(cfg, s, steps[0]);
      GenerationsIncrease(cfg, s, steps[0]);
      GenerationsNeverFall(cfg, Next(cfg, s, steps[0]), steps[1..]);
    }
  }

  /** A plan whose commit race is lost — or whose coordinator is gone before it was run. */
  ghost predicate Dead(s: System, token: nat) {
    && token in s.origin
    && (forall g <- s.plans :: s.plans[g] != token)
    && (forall c <- s.coords :: s.coords[c].pc != Inserted(token))
  }

  lemma InsertKeepsDead(s: System, c: nat, groups: seq<Option<string>>, token: nat)
    requires PlansInv(s) && c in s.coords && Dead(s, token)
    ensures Dead(NextInsert(s, c, groups), token)
  {
    assert token < s.nextPlan;
  }

  lemma CommitKeepsDead(s: System, c: nat, token: nat)
    requires c in s.coords && s.coords[c].pc.Inserted? && Dead(s, token)
    ensures Dead(NextCommit(s, c), token)
  {
    assert s.coords[c].pc != Inserted(token);
  }

  lemma DeadStaysDead(cfg: Config, s: System, step: Step, token: nat)
    requires PlansInv(s) && Enabled(cfg, s, step) && Dead(s, token)
    ensures Dead(Next(cfg, s, step), token)
  {
    if step.InsertPlan? {
      InsertKeepsDead(s, step.c, step.groups, token);
    } else if step.CommitPlan? {
      CommitKeepsDead(s, step.c, token);
    } else {
      OthersPlanNothing(cfg, s, step);
    }
  }

  /** No partition of such a plan is ever leased, whatever claims are tried. */
  lemma {:induction false} ALostRaceIsNeverClaimed(cfg: Config, s: System, steps: seq<Step>, token: nat, pid: nat)
    requires Inv(s) && Run(cfg, s, steps) && Dead(s, token)
    ensures
      var parts := After(cfg, s, steps).db.parts;
      pid in parts && parts[pid].plan == token ==>
        parts[pid].lease.None? && parts[pid].status == S.Status.Pending && parts[pid].counters == map[]
    decreases |steps|
  {
    if steps != [] {
      StepKeepsInv(cfg, s, steps[0]);
      DeadStaysDead(cfg, s, steps[0], token);
      ALostRaceIsNeverClaimed(cfg, Next(cfg, s, steps[0]), steps[1..], token, pid);
    } else if pid in s.db.parts && s.db.parts[pid].plan == token {
      assert PartInv(s, pid);
    }
  }

  /** Losing the compare-and-set is what makes a plan dead. */
  lemma ALostCommitIsDead(s: System, c: nat)
    requires Inv(s) && c in s.coords && s.coords[c].pc.Inserted? && !Wins(s, c)
    ensures Dead(NextCommit(s, c), s.coords[c].pc.token)
  {
    assert CoordInv(s, s.coords[c]);
  }
}
