/**
 * Exactly-once roll-up: at every moment the totals rolled up plus the counters of the generations
 * not rolled up yet are what the lanes' checkpoints landed, less what the clean-ups of overtaken
 * coordinators deleted — however many coordinators finalize a generation and wherever they crash.
 */
module RollUps {
  import opened Wrappers
  import opened Totals
  import opened Coordination
  import opened CoordinationInv
  import S = Store
  import F = Fencing

  /** What `progress` shows of one counter. */
  function Progress(s: System, key: string): nat {
    S.Get(s.state.totals, key) + S.Get(TotalsOf(s.db.parts, s.db.nextId, Above(s.state.rolled)), key)
  }

  function Unrolled(s: System, key: string): nat {
    S.Get(TotalsOf(s.db.parts, s.db.nextId, Above(s.state.rolled)), key)
  }

  /** A sum a coordinator took is still the sum, unless the generation was rolled up since. */
  ghost predicate SumInv(s: System, me: Coord, key: string) {
    me.pc.Summed? && s.state.rolled < me.gen ==> S.Get(me.pc.sum, key) == Unrolled(s, key)
  }

  /** Progress and what was lost so far are what landed; and every sum still is one. */
  ghost predicate Conserved(s: System, key: string, lost: nat) {
    && Progress(s, key) + lost == S.Get(s.landed, key)
    && forall c <- s.coords :: SumInv(s, s.coords[c], key)
  }

  /** What a clean-up for this plan deletes. */
  function ForeignParts(s: System, plan: nat): map<nat, S.Partition> {
    map pid | pid in s.db.parts && S.Foreign(s.db.parts[pid], plan) :: s.db.parts[pid]
  }

  /** And what of that was not rolled up: what such a clean-up takes away from progress. */
  function ForeignUnrolled(s: System, plan: nat, key: string): nat {
    S.Get(TotalsOf(ForeignParts(s, plan), s.db.nextId, Above(s.state.rolled)), key)
  }

  /** What a step loses: only the clean-up after a commit loses anything. */
  function LostBy(s: System, step: Step, key: string): nat {
    if step.DropForeign? && step.c in s.coords then ForeignUnrolled(s, s.coords[step.c].st.plan.GetOr(0), key) else 0
  }

  // ---- What does not move the unrolled counters

  /** Nothing that counts is added or dropped. */
  ghost predicate SameCounts(s: System, db: S.Db) {
    && db.nextId >= s.db.nextId
    && (forall pid <- db.parts :: pid < db.nextId)
    && (forall pid | pid in s.db.parts ::
          && (pid in db.parts ==> db.parts[pid].counters == s.db.parts[pid].counters
                                  && db.parts[pid].generation == s.db.parts[pid].generation)
          && (pid !in db.parts ==> s.db.parts[pid].counters == map[] || s.db.parts[pid].generation <= s.state.rolled))
    && (forall pid | pid in db.parts && pid !in s.db.parts :: db.parts[pid].counters == map[])
  }

  lemma SameCountsSameSum(s: System, db: S.Db, key: string)
    requires SameCounts(s, db) && F.FenceInv(s.db)
    ensures S.Get(TotalsOf(db.parts, db.nextId, Above(s.state.rolled)), key) == Unrolled(s, key)
  {
    var gens := Above(s.state.rolled);
    SameShares(s.db.parts, db.parts, s.db.nextId, gens, gens, key);
    NewcomersAddNothing(db.parts, s.db.nextId, db.nextId, gens, key);
  }

  /** A step that moves neither counters nor totals conserves. */
  lemma QuietConserves(s: System, s': System, key: string, lost: nat)
    requires Inv(s) && Conserved(s, key, lost) && SameCounts(s, s'.db)
    requires s'.state.totals == s.state.totals && s'.state.rolled == s.state.rolled && s'.landed == s.landed
    requires forall c <- s'.coords :: s'.coords[c].pc.Summed? ==>
               c in s.coords && s.coords[c].pc == s'.coords[c].pc && s.coords[c].gen == s'.coords[c].gen
    ensures Conserved(s', key, lost)
  {
    SameCountsSameSum(s, s'.db, key);
    forall c | c in s'.coords ensures SumInv(s', s'.coords[c], key) {
      if s'.coords[c].pc.Summed? {
        assert SumInv(s, s.coords[c], key);
      }
    }
  }

  /** Neither partitions nor totals change, and every sum taken is one taken before. */
  ghost predicate Bystands(s: System, s': System) {
    && s'.db == s.db && s'.landed == s.landed
    && s'.state.totals == s.state.totals && s'.state.rolled == s.state.rolled
    && forall c <- s'.coords :: s'.coords[c].pc.Summed? ==>
         c in s.coords && s.coords[c].pc == s'.coords[c].pc && s.coords[c].gen == s'.coords[c].gen
  }

  lemma BystandersConserve(s: System, s': System, key: string, lost: nat)
    requires Inv(s) && Conserved(s, key, lost) && Bystands(s, s')
    ensures Conserved(s', key, lost)
  {
    assert SameCounts(s, s.db);
    QuietConserves(s, s', key, lost);
  }

  // ---- Lanes

  /** A checkpoint lands only on the generation not rolled up yet, and never while a pass closes. */
  lemma LandingIsInTheOpenGeneration(s: System, pid: nat, token: nat)
    requires Inv(s) && S.Lands(s.db, pid, token)
    ensures s.db.parts[pid].generation > s.state.rolled
    ensures forall c <- s.coords :: s.coords[c].pc.Summed? ==> s.state.rolled >= s.coords[c].gen
  {
    assert PartInv(s, pid);
    var part := s.db.parts[pid];
    forall c | c in s.coords && s.coords[c].pc.Summed? ensures s.state.rolled >= s.coords[c].gen {
      assert CoordInv(s, s.coords[c]);
      if s.state.rolled < s.coords[c].gen {
        assert S.OfPlan(part, s.coords[c].gen, s.plans[s.coords[c].gen]);
      }
    }
  }

  /** A landed checkpoint raises progress by exactly its counters. */
  lemma LandingRaises(s: System, pid: nat, token: nat, progress: S.Progress, key: string)
    requires Inv(s) && S.Lands(s.db, pid, token)
    ensures
      Unrolled(s.(db := S.Checkpoint(s.db, pid, token, progress)), key) == Unrolled(s, key) + S.Get(progress.counters, key)
  {
    LandingIsInTheOpenGeneration(s, pid, token);
    var gens, parts' := Above(s.state.rolled), S.Checkpoint(s.db, pid, token, progress).parts;
    assert Share(s.db.parts, pid, gens) == s.db.parts[pid].counters;
    assert Share(parts', pid, gens) == S.Plus(s.db.parts[pid].counters, progress.counters);
    OneShareMoves(s.db.parts, parts', s.db.nextId, gens, key, pid);
  }

  lemma LandingConserves(cfg: Config, s: System, step: S.Step, key: string, lost: nat)
    requires Inv(s) && Conserved(s, key, lost) && step.CheckpointStep? && S.Lands(s.db, step.pid, step.token)
    ensures Conserved(NextLane(cfg, s, step), key, lost)
  {
    var s' := NextLane(cfg, s, step);
    LandingIsInTheOpenGeneration(s, step.pid, step.token);
    LandingRaises(s, step.pid, step.token, step.progress, key);
    assert s'.db == S.Checkpoint(s.db, step.pid, step.token, step.progress) && s'.state == s.state;
    assert Unrolled(s', key) == Unrolled(s, key) + S.Get(step.progress.counters, key);
  }

  lemma ClaimSameCounts(cfg: Config, s: System, step: S.Step)
    requires F.FenceInv(s.db) && (step.ClaimStep? || step.RenewStep? || step.ReleaseStep?)
    ensures SameCounts(s, S.Apply(cfg.store, s.db, step))
  {
  }

  lemma FailureSameCounts(cfg: Config, s: System, step: S.Step)
    requires F.FenceInv(s.db) && (step.FailSliceStep? || step.FailPartitionStep?)
    ensures SameCounts(s, S.Apply(cfg.store, s.db, step))
  {
  }

  lemma UnleasingSameCounts(cfg: Config, s: System, step: S.Step)
    requires F.FenceInv(s.db) && (step.Tick? || step.ReapStep? || step.UnlockStep?)
    ensures SameCounts(s, S.Apply(cfg.store, s.db, step))
  {
  }

  lemma LaneSameCounts(cfg: Config, s: System, step: S.Step)
    requires F.FenceInv(s.db) && LaneStep(s, step)
    requires !(step.CheckpointStep? && S.Lands(s.db, step.pid, step.token))
    ensures SameCounts(s, S.Apply(cfg.store, s.db, step))
  {
    if step.ClaimStep? || step.RenewStep? || step.ReleaseStep? {
      ClaimSameCounts(cfg, s, step);
    } else if step.FailSliceStep? || step.FailPartitionStep? {
      FailureSameCounts(cfg, s, step);
    } else if step.CheckpointStep? {
      assert S.Apply(cfg.store, s.db, step) == s.db;
    } else {
      UnleasingSameCounts(cfg, s, step);
    }
  }

  lemma LaneConserves(cfg: Config, s: System, step: S.Step, key: string, lost: nat)
    requires Inv(s) && LaneStep(s, step) && Conserved(s, key, lost)
    ensures Conserved(NextLane(cfg, s, step), key, lost)
  {
    if step.CheckpointStep? && S.Lands(s.db, step.pid, step.token) {
      LandingConserves(cfg, s, step, key, lost);
    } else {
      LaneSameCounts(cfg, s, step);
      QuietConserves(s, NextLane(cfg, s, step), key, lost);
    }
  }

  // ---- Closing a pass

  /** While the pass is the only one not rolled up, its own counters are all that is unrolled. */
  lemma SumIsWhatIsUnrolled(s: System, gen: nat, key: string)
    requires Inv(s) && s.state.rolled < gen <= s.state.generation
    ensures S.Get(TotalsOf(s.db.parts, s.db.nextId, Exactly(gen)), key) == Unrolled(s, key)
  {
    forall pid | 0 <= pid < s.db.nextId
      ensures S.Get(Share(s.db.parts, pid, Exactly(gen)), key) == S.Get(Share(s.db.parts, pid, Above(s.state.rolled)), key)
    {
      if pid in s.db.parts {
        assert PartInv(s, pid);
      }
    }
    SameShares(s.db.parts, s.db.parts, s.db.nextId, Exactly(gen), Above(s.state.rolled), key);
  }

  lemma NothingAboveTheCurrent(s: System, key: string)
    requires Inv(s)
    ensures S.Get(TotalsOf(s.db.parts, s.db.nextId, Above(s.state.generation)), key) == 0
  {
    forall pid | 0 <= pid < s.db.nextId ensures S.Get(Share(s.db.parts, pid, Above(s.state.generation)), key) == 0 {
      if pid in s.db.parts {
        assert PartInv(s, pid);
      }
    }
    NothingToCount(s.db.parts, s.db.nextId, Above(s.state.generation), key);
  }

  /** A generation enters the totals once: the compare-and-set lets through only the first roll-up. */
  lemma RollUpConserves(s: System, c: nat, key: string, lost: nat)
    requires Inv(s) && Conserved(s, key, lost) && c in s.coords && s.coords[c].pc.Summed?
    ensures Conserved(NextRollUp(s, c), key, lost)
  {
    var s' := NextRollUp(s, c);
    assert CoordInv(s, s.coords[c]) && SumInv(s, s.coords[c], key);
    NothingAboveTheCurrent(s, key);
    forall d | d in s'.coords ensures SumInv(s', s'.coords[d], key) {
      if s'.coords[d].pc.Summed? {
        assert CoordInv(s, s.coords[d]) && SumInv(s, s.coords[d], key);
      }
    }
  }

  lemma SumTotalsConserves(cfg: Config, s: System, c: nat, key: string, lost: nat)
    requires Inv(s) && Conserved(s, key, lost) && Enabled(cfg, s, SumTotals(c))
    ensures Conserved(Next(cfg, s, SumTotals(c)), key, lost)
  {
    var s' := Next(cfg, s, SumTotals(c));
    assert CoordInv(s, s.coords[c]);
    forall d | d in s'.coords ensures SumInv(s', s'.coords[d], key) {
      if d != c {
        assert SumInv(s, s.coords[d], key);
      } else if s.state.rolled < s.coords[c].gen {
        SumIsWhatIsUnrolled(s, s.coords[c].gen, key);
      }
    }
  }

  // ---- Plans and clean-ups

  lemma SetStatusSameCounts(s: System, generation: nat, plan: nat, from: set<S.Status>, to: S.Status)
    requires forall pid <- s.db.parts :: pid < s.db.nextId
    ensures SameCounts(s, S.SetStatus(s.db, generation, plan, from, to))
  {
  }

  lemma InsertSameCounts(s: System, generation: nat, plan: nat, groups: seq<Option<string>>)
    requires forall pid <- s.db.parts :: pid < s.db.nextId
    ensures SameCounts(s, S.Insert(s.db, generation, plan, groups))
  {
  }

  /** Old generations go only after they were rolled up. */
  lemma DropOldSameCounts(s: System, c: nat)
    requires Inv(s) && c in s.coords && s.coords[c].pc.Closing?
    ensures SameCounts(s, S.DropGenerations(s.db, s.coords[c].gen - 1))
  {
    assert CoordInv(s, s.coords[c]);
  }

  /** A plan that lost its race holds nothing that counts. */
  lemma DropLostSameCounts(s: System, c: nat)
    requires Inv(s) && c in s.coords && s.coords[c].pc.Lost?
    ensures SameCounts(s, S.DropPlan(s.db, s.coords[c].pc.token))
  {
    assert CoordInv(s, s.coords[c]);
    forall pid | pid in s.db.parts ensures PartInv(s, pid) {
    }
  }

  lemma InsertConserves(s: System, c: nat, groups: seq<Option<string>>, key: string, lost: nat)
    requires Inv(s) && Conserved(s, key, lost) && c in s.coords && s.coords[c].pc.Loaded?
    ensures Conserved(NextInsert(s, c, groups), key, lost)
  {
    var s' := NextInsert(s, c, groups);
    assert SameCounts(s, s'.db) by {
      InsertSameCounts(s, s.coords[c].st.generation + 1, s.nextPlan, groups);
    }
    QuietConserves(s, s', key, lost);
  }

  lemma CommitBystands(s: System, c: nat)
    requires c in s.coords && s.coords[c].pc.Inserted?
    ensures Bystands(s, NextCommit(s, c))
  {
  }

  lemma DropLostConserves(s: System, c: nat, key: string, lost: nat)
    requires Inv(s) && Conserved(s, key, lost) && c in s.coords && s.coords[c].pc.Lost?
    ensures Conserved(NextDropLost(s, c), key, lost)
  {
    DropLostSameCounts(s, c);
    QuietConserves(s, NextDropLost(s, c), key, lost);
  }

  /** What is kept and what is taken away add up. */
  lemma {:induction false} RemovalSplitsTotal(
    parts: map<nat, S.Partition>, kept: map<nat, S.Partition>, gone: map<nat, S.Partition>, n: nat, gens: Generations, key: string)
    requires forall pid: nat ::
               S.Get(Share(parts, pid, gens), key) == S.Get(Share(kept, pid, gens), key) + S.Get(Share(gone, pid, gens), key)
    ensures S.Get(TotalsOf(parts, n, gens), key) == S.Get(TotalsOf(kept, n, gens), key) + S.Get(TotalsOf(gone, n, gens), key)
  {
    if n > 0 {
      RemovalSplitsTotal(parts, kept, gone, n - 1, gens, key);
    }
  }

  lemma CleanUpTakesTheForeign(s: System, plan: nat, key: string)
    ensures Unrolled(s, key) == Unrolled(s.(db := S.DropForeignPlans(s.db, plan)), key) + ForeignUnrolled(s, plan, key)
  {
    var kept, gone, gens := S.DropForeignPlans(s.db, plan).parts, ForeignParts(s, plan), Above(s.state.rolled);
    forall pid: nat
      ensures S.Get(Share(s.db.parts, pid, gens), key) == S.Get(Share(kept, pid, gens), key) + S.Get(Share(gone, pid, gens), key)
    {
      if pid in s.db.parts && S.Foreign(s.db.parts[pid], plan) {
        assert pid !in kept && pid in gone;
      } else {
        assert pid !in gone;
      }
    }
    RemovalSplitsTotal(s.db.parts, kept, gone, s.db.nextId, gens, key);
  }

  /** While a pass closes, no partition a clean-up could delete has counted: none of its own is open. */
  lemma WhileClosingNothingIsForeign(s: System, d: nat, plan: nat, key: string)
    requires Inv(s) && d in s.coords && s.coords[d].pc.Summed? && s.state.rolled < s.coords[d].gen
    ensures ForeignUnrolled(s, plan, key) == 0
  {
    assert CoordInv(s, s.coords[d]);
    forall pid | 0 <= pid < s.db.nextId
      ensures S.Get(Share(ForeignParts(s, plan), pid, Above(s.state.rolled)), key) == 0
    {
      if pid in ForeignParts(s, plan) {
        assert PartInv(s, pid);
      }
    }
    NothingToCount(ForeignParts(s, plan), s.db.nextId, Above(s.state.rolled), key);
  }

  lemma DropForeignConserves(s: System, c: nat, key: string, lost: nat)
    requires Inv(s) && Conserved(s, key, lost) && c in s.coords && s.coords[c].pc.Committed?
    ensures Conserved(NextDropForeign(s, c), key, lost + LostBy(s, DropForeign(c), key))
  {
    var s', plan := NextDropForeign(s, c), s.coords[c].st.plan.GetOr(0);
    CleanUpTakesTheForeign(s, plan, key);
    assert Unrolled(s', key) == Unrolled(s.(db := S.DropForeignPlans(s.db, plan)), key);
    forall d | d in s'.coords ensures SumInv(s', s'.coords[d], key) {
      if s'.coords[d].pc.Summed? && s.state.rolled < s'.coords[d].gen {
        assert SumInv(s, s.coords[d], key);
        WhileClosingNothingIsForeign(s, d, plan, key);
      }
    }
  }

  lemma DropOldConserves(s: System, c: nat, key: string, lost: nat)
    requires Inv(s) && Conserved(s, key, lost) && c in s.coords && s.coords[c].pc.Closing?
    ensures Conserved(NextDropOld(s, c), key, lost)
  {
    DropOldSameCounts(s, c);
    QuietConserves(s, NextDropOld(s, c), key, lost);
  }

  lemma PlanningConserves(cfg: Config, s: System, step: Step, key: string, lost: nat)
    requires Inv(s) && Enabled(cfg, s, step) && Conserved(s, key, lost)
    requires step.InsertPlan? || step.CommitPlan? || step.DropLost? || step.DropForeign? || step.DropOld?
    ensures Conserved(Next(cfg, s, step), key, lost + LostBy(s, step, key))
  {
    if step.InsertPlan? {
      InsertConserves(s, step.c, step.groups, key, lost);
    } else if step.CommitPlan? {
      CommitBystands(s, step.c);
      BystandersConserve(s, NextCommit(s, step.c), key, lost);
    } else if step.DropLost? {
      DropLostConserves(s, step.c, key, lost);
    } else if step.DropForeign? {
      DropForeignConserves(s, step.c, key, lost);
    } else {
      DropOldConserves(s, step.c, key, lost);
    }
  }

  lemma RetryConserves(s: System, key: string, lost: nat)
    requires Inv(s) && Conserved(s, key, lost)
    ensures Conserved(NextRetry(s), key, lost)
  {
    if s.state.plan.Some? {
      SetStatusSameCounts(s, s.state.generation, s.state.plan.value, {S.Failed, S.Cancelled}, S.Pending);
    }
    QuietConserves(s, NextRetry(s), key, lost);
  }

  lemma CancelPlanConserves(s: System, generation: nat, key: string, lost: nat)
    requires Inv(s) && Conserved(s, key, lost) && generation in s.plans
    ensures Conserved(NextCancelPlan(s, generation), key, lost)
  {
    SetStatusSameCounts(s, generation, s.plans[generation], {S.Pending, S.Running}, S.Cancelled);
    QuietConserves(s, NextCancelPlan(s, generation), key, lost);
  }

  /** The remaining controls, the lanes' failure and application writes leave the store alone. */
  lemma StatusBystands(cfg: Config, s: System, step: Step)
    requires Enabled(cfg, s, step) && (step.FailState? || step.Writes? || step.Start? || step.Pause? || step.Resume? || step.Cancel?)
    ensures Bystands(s, Next(cfg, s, step))
  {
    if !step.Writes? {
      var status := ControlsMoveTheStatus(cfg, s, step);
    }
  }

  lemma ControlsConserve(cfg: Config, s: System, step: Step, key: string, lost: nat)
    requires Inv(s) && Enabled(cfg, s, step) && Conserved(s, key, lost) && (step.CancelPlan? || step.Retry?)
    ensures Conserved(Next(cfg, s, step), key, lost)
  {
    if step.Retry? {
      RetryConserves(s, key, lost);
    } else {
      CancelPlanConserves(s, step.generation, key, lost);
    }
  }

  lemma ReadingBystands(cfg: Config, s: System, step: Step)
    requires Enabled(cfg, s, step) && (step.Load? || step.FindDrained? || step.AlreadyRolledUp? || step.Crash?)
    ensures Bystands(s, Next(cfg, s, step))
  {
  }

  lemma DecidingBystands(cfg: Config, s: System, step: Step)
    requires Enabled(cfg, s, step) && (step.Complete? || step.NextPass?)
    ensures Bystands(s, Next(cfg, s, step))
  {
  }

  lemma JudgingBystands(cfg: Config, s: System, step: Step)
    requires Enabled(cfg, s, step) && (step.GiveUp? || step.CountLeft?)
    ensures Bystands(s, Next(cfg, s, step))
  {
  }

  lemma OthersBystand(cfg: Config, s: System, step: Step)
    requires Enabled(cfg, s, step) && !step.Lane? && !step.RollUp? && !step.SumTotals? && !step.CancelPlan? && !step.Retry?
    requires !step.InsertPlan? && !step.CommitPlan? && !step.DropLost? && !step.DropForeign? && !step.DropOld?
    ensures Bystands(s, Next(cfg, s, step))
  {
    if step.Load? || step.FindDrained? || step.AlreadyRolledUp? || step.Crash? {
      ReadingBystands(cfg, s, step);
    } else if step.GiveUp? || step.CountLeft? {
      JudgingBystands(cfg, s, step);
    } else if step.Complete? || step.NextPass? {
      DecidingBystands(cfg, s, step);
    } else {
      StatusBystands(cfg, s, step);
    }
  }

  /** Every step conserves: progress, with what clean-ups have lost, is what landed. */
  lemma StepConserves(cfg: Config, s: System, step: Step, key: string, lost: nat)
    requires Inv(s) && Enabled(cfg, s, step) && Conserved(s, key, lost)
    ensures Conserved(Next(cfg, s, step), key, lost + LostBy(s, step, key))
  {
    if step.Lane? {
      LaneConserves(cfg, s, step.step, key, lost);
    } else if step.RollUp? {
      RollUpConserves(s, step.c, key, lost);
    } else if step.SumTotals? {
      SumTotalsConserves(cfg, s, step.c, key, lost);
    } else if step.InsertPlan? || step.CommitPlan? || step.DropLost? || step.DropForeign? || step.DropOld? {
      PlanningConserves(cfg, s, step, key, lost);
    } else if step.CancelPlan? || step.Retry? {
      ControlsConserve(cfg, s, step, key, lost);
    } else {
      OthersBystand(cfg, s, step);
      BystandersConserve(s, Next(cfg, s, step), key, lost);
    }
  }

  // ---- Over whole runs

  /** What the clean-ups of a run lose. */
  ghost function Lost(cfg: Config, s: System, steps: seq<Step>, key: string): nat
    requires Run(cfg, s, steps)
    decreases |steps|
  {
    if steps == [] then 0 else LostBy(s, steps[0], key) + Lost(cfg, Next(cfg, s, steps[0]), steps[1..], key)
  }

  lemma {:induction false} RunConserves(cfg: Config, s: System, steps: seq<Step>, key: string, lost: nat)
    requires Inv(s) && Conserved(s, key, lost) && Run(cfg, s, steps)
    ensures Inv(After(cfg, s, steps)) && Conserved(After(cfg, s, steps), key, lost + Lost(cfg, s, steps, key))
    decreases |steps|
  {
    if steps != [] {
      StepKeepsInv(cfg, s, steps[0]);
      StepConserves(cfg, s, steps[0], key, lost);
      RunConserves(cfg, Next(cfg, s, steps[0]), steps[1..], key, lost + LostBy(s, steps[0], key));
    }
  }

  /**
   * Exactly once, in every reachable state: totals plus unrolled partitions, with what the clean-ups of
   * overtaken coordinators deleted, are what all landed checkpoints add up to — nothing is entered twice
   * and nothing else is lost. Progress is what landed exactly if no clean-up deleted anything that counted.
   */
  lemma ProgressIsWhatLanded(cfg: Config, s0: System, steps: seq<Step>, key: string)
    requires Initial(s0) && Run(cfg, s0, steps)
    ensures
      var s := After(cfg, s0, steps);
      && Progress(s, key) + Lost(cfg, s0, steps, key) == S.Get(s.landed, key)
      && (Progress(s, key) == S.Get(s.landed, key) <==> EveryCleanUpIsHarmless(cfg, s0, steps, key))
  {
    RunConserves(cfg, s0, steps, key, 0);
    NothingLostIff(cfg, s0, steps, key);
  }

  /** A clean-up deletes only what is rolled up already or never counted anything. */
  ghost predicate HarmlessCleanUp(s: System, step: Step, key: string) {
    step.DropForeign? && step.c in s.coords ==> NothingOfValueIsForeign(s, s.coords[step.c].st.plan.GetOr(0), key)
  }

  ghost predicate EveryCleanUpIsHarmless(cfg: Config, s: System, steps: seq<Step>, key: string)
    requires Run(cfg, s, steps)
    decreases |steps|
  {
    steps == [] || (HarmlessCleanUp(s, steps[0], key) && EveryCleanUpIsHarmless(cfg, Next(cfg, s, steps[0]), steps[1..], key))
  }

  lemma {:induction false} NothingLostIff(cfg: Config, s: System, steps: seq<Step>, key: string)
    requires Inv(s) && Run(cfg, s, steps)
    ensures Lost(cfg, s, steps, key) == 0 <==> EveryCleanUpIsHarmless(cfg, s, steps, key)
    decreases |steps|
  {
    if steps != [] {
      if steps[0].DropForeign? && steps[0].c in s.coords {
        ForeignIsNothingIff(s, s.coords[steps[0].c].st.plan.GetOr(0), key);
      }
      StepKeepsInv(cfg, s, steps[0]);
      NothingLostIff(cfg, Next(cfg, s, steps[0]), steps[1..], key);
    }
  }

  function LandedBy(s: System, step: Step): S.Counters {
    if step.Lane? && step.step.CheckpointStep? then F.LandedOf(s.db, step.step, step.step.pid) else map[]
  }

  lemma LaneLands(cfg: Config, s: System, step: S.Step, key: string)
    ensures S.Get(NextLane(cfg, s, step).landed, key) == S.Get(s.landed, key) + S.Get(LandedBy(s, Lane(step)), key)
  {
  }

  lemma PlanningLandsNothing(cfg: Config, s: System, step: Step)
    requires Enabled(cfg, s, step)
    requires step.InsertPlan? || step.CommitPlan? || step.DropLost? || step.DropForeign? || step.DropOld?
    ensures Next(cfg, s, step).landed == s.landed
  {
  }

  lemma RollingUpLandsNothing(cfg: Config, s: System, step: Step)
    requires Enabled(cfg, s, step) && (step.RollUp? || step.SumTotals? || step.CancelPlan? || step.Retry?)
    ensures Next(cfg, s, step).landed == s.landed
  {
  }

  lemma LandedGrows(cfg: Config, s: System, step: Step, key: string)
    requires Enabled(cfg, s, step)
    ensures S.Get(Next(cfg, s, step).landed, key) == S.Get(s.landed, key) + S.Get(LandedBy(s, step), key)
  {
    if step.Lane? {
      LaneLands(cfg, s, step.step, key);
    } else if step.RollUp? || step.SumTotals? || step.CancelPlan? || step.Retry? {
      RollingUpLandsNothing(cfg, s, step);
    } else if step.InsertPlan? || step.CommitPlan? || step.DropLost? || step.DropForeign? || step.DropOld? {
      PlanningLandsNothing(cfg, s, step);
    } else {
      OthersBystand(cfg, s, step);
    }
  }

  /**
   * So only a landed checkpoint raises progress, by its own counters, and only the clean-up of an
   * overtaken coordinator lowers it, by what it deletes that was not rolled up.
   */
  lemma OnlyCleanUpsLowerProgress(cfg: Config, s0: System, steps: seq<Step>, step: Step, key: string)
    requires Initial(s0) && Run(cfg, s0, steps) && Enabled(cfg, After(cfg, s0, steps), step)
    ensures
      var s := After(cfg, s0, steps);
      && Progress(Next(cfg, s, step), key) + LostBy(s, step, key) == Progress(s, key) + S.Get(LandedBy(s, step), key)
      && (Progress(Next(cfg, s, step), key) >= Progress(s, key) <==> HarmlessCleanUp(s, step, key))
      && (step.DropForeign? && s.coords[step.c].st.plan == s.state.plan ==> HarmlessCleanUp(s, step, key))
  {
    var s, lost := After(cfg, s0, steps), Lost(cfg, s0, steps, key);
    RunConserves(cfg, s0, steps, key, 0);
    StepConserves(cfg, s, step, key, lost);
    LandedGrows(cfg, s, step, key);
    if step.DropForeign? {
      HarmlessIff(s, step.c, key);
    }
  }

  lemma HarmlessIff(s: System, c: nat, key: string)
    requires Inv(s) && c in s.coords && s.coords[c].pc.Committed?
    ensures LostBy(s, DropForeign(c), key) == 0 <==> HarmlessCleanUp(s, DropForeign(c), key)
    ensures s.coords[c].st.plan == s.state.plan ==> HarmlessCleanUp(s, DropForeign(c), key)
  {
    var plan := s.coords[c].st.plan.GetOr(0);
    assert CoordInv(s, s.coords[c]);
    ForeignIsNothingIff(s, plan, key);
    if s.coords[c].st.plan == s.state.plan {
      ForeignOfCurrentNeverCounted(s, plan, key);
    }
  }

  // ---- When the clean-up after a commit is stale

  /** Everything a clean-up for `plan` would delete is rolled up already or never counted anything. */
  ghost predicate NothingOfValueIsForeign(s: System, plan: nat, key: string) {
    forall pid <- s.db.parts ::
      S.Foreign(s.db.parts[pid], plan) && s.db.parts[pid].generation > s.state.rolled ==> S.Get(s.db.parts[pid].counters, key) == 0
  }

  lemma {:induction false} ZeroTotalIff(parts: map<nat, S.Partition>, n: nat, gens: Generations, key: string)
    ensures S.Get(TotalsOf(parts, n, gens), key) == 0 <==> forall pid | 0 <= pid < n :: S.Get(Share(parts, pid, gens), key) == 0
  {
    if n > 0 {
      ZeroTotalIff(parts, n - 1, gens, key);
    }
  }

  lemma ForeignIsNothingIff(s: System, plan: nat, key: string)
    requires Inv(s)
    ensures ForeignUnrolled(s, plan, key) == 0 <==> NothingOfValueIsForeign(s, plan, key)
  {
    var gone, gens := ForeignParts(s, plan), Above(s.state.rolled);
    ZeroTotalIff(gone, s.db.nextId, gens, key);
    forall pid | pid in s.db.parts && S.Foreign(s.db.parts[pid], plan) && s.db.parts[pid].generation > s.state.rolled
      ensures 0 <= pid < s.db.nextId && Share(gone, pid, gens) == s.db.parts[pid].counters
    {
    }
  }

  lemma ForeignOfCurrentNeverCounted(s: System, plan: nat, key: string)
    requires Inv(s) && s.state.plan == Some(plan)
    ensures NothingOfValueIsForeign(s, plan, key)
  {
    forall pid | pid in s.db.parts ensures PartInv(s, pid) {
    }
  }

  /**
   * The clean-up keeps progress exactly when no partition of another plan, open or superseded and
   * not rolled up, has counted: always for the current plan, not for a coordinator that was overtaken.
   */
  lemma CleanUpKeepsProgressIff(s: System, plan: nat, key: string)
    requires Inv(s)
    ensures
      var s' := s.(db := S.DropForeignPlans(s.db, plan));
      && Progress(s', key) <= Progress(s, key)
      && (Progress(s', key) == Progress(s, key) <==> NothingOfValueIsForeign(s, plan, key))
    ensures s.state.plan == Some(plan) ==> NothingOfValueIsForeign(s, plan, key)
  {
    if s.state.plan == Some(plan) {
      ForeignOfCurrentNeverCounted(s, plan, key);
    }
    CleanUpTakesTheForeign(s, plan, key);
    ForeignIsNothingIff(s, plan, key);
  }
}
