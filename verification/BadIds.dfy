/**
 * What a state excludes from its counts (src/core/background-store.js:861-895, src/core/background.js:534-574):
 * bad ids come from checkpoints, through partitions and roll-ups, and from nowhere else; and as long as no
 * more were reported than a list may hold, no roll-up loses one.
 */
module BadIds {
  import opened Wrappers
  import opened Coordination
  import opened CoordinationInv
  import Completion
  import F = Fencing
  import RollUps
  import S = Store

  /** All of them are in what landed checkpoints reported. */
  predicate Reported(s: System, ids: seq<nat>) {
    forall id <- ids :: id in s.reported
  }

  ghost predicate PartsReported(s: System) {
    forall pid <- s.db.parts :: Reported(s, s.db.parts[pid].badIds)
  }

  predicate CoordReported(s: System, me: Coord) {
    Reported(s, me.st.badIds) && (me.pc.Summed? ==> Reported(s, me.pc.badIds))
  }

  ghost predicate BadInv(s: System) {
    PartsReported(s) && Reported(s, s.state.badIds) && forall c <- s.coords :: CoordReported(s, s.coords[c])
  }

  // ---- What does not touch them

  /** Every list is one that was there before, or empty. */
  ghost predicate NoNewIds(s: System, s': System) {
    && s'.reported == s.reported && SameIds(s'.state, s.state)
    && (forall pid <- s'.db.parts :: OldPart(s, pid, s'.db.parts[pid]))
    && (forall c <- s'.coords :: OldIds(s, c, s'.coords[c]))
  }

  predicate SameIds(a: StateDoc, b: StateDoc) {
    a.badIds == b.badIds && a.rolled == b.rolled
  }

  predicate OldPart(s: System, pid: nat, part: S.Partition) {
    || part.badIds == []
    || (pid in s.db.parts && part.badIds == s.db.parts[pid].badIds && part.generation == s.db.parts[pid].generation)
  }

  ghost predicate OldIds(s: System, c: nat, me: Coord) {
    && (SameIds(me.st, s.state) || (c in s.coords && SameIds(me.st, s.coords[c].st)))
    && (me.pc.Summed? ==> c in s.coords && s.coords[c].pc == me.pc && s.coords[c].gen == me.gen)
  }

  lemma NoNewIdsKeepInv(s: System, s': System)
    requires BadInv(s) && NoNewIds(s, s')
    ensures BadInv(s')
  {
    forall c | c in s'.coords ensures CoordReported(s', s'.coords[c]) {
      assert OldIds(s, c, s'.coords[c]);
    }
  }

  lemma ControlsBringNone(cfg: Config, s: System, step: Step)
    requires Enabled(cfg, s, step)
    requires step.FailState? || step.Writes? || step.Start? || step.Pause? || step.Resume? || step.Cancel?
    ensures NoNewIds(s, Next(cfg, s, step))
  {
    if !step.Writes? {
      var status := ControlsMoveTheStatus(cfg, s, step);
    }
  }

  lemma StoreControlsBringNone(cfg: Config, s: System, step: Step)
    requires Enabled(cfg, s, step) && (step.CancelPlan? || step.Retry?)
    ensures NoNewIds(s, Next(cfg, s, step))
  {
  }

  lemma CommitBringsNone(s: System, c: nat)
    requires c in s.coords && s.coords[c].pc.Inserted?
    ensures NoNewIds(s, NextCommit(s, c))
  {
  }

  lemma DropsBringNone(cfg: Config, s: System, step: Step)
    requires Enabled(cfg, s, step) && (step.DropLost? || step.DropForeign? || step.DropOld?)
    ensures NoNewIds(s, Next(cfg, s, step))
  {
  }

  lemma InsertBringsNone(s: System, c: nat, groups: seq<Option<string>>)
    requires Inv(s) && c in s.coords
    ensures NoNewIds(s, NextInsert(s, c, groups))
  {
  }

  lemma ReadingBringsNone(cfg: Config, s: System, step: Step)
    requires Enabled(cfg, s, step) && (step.Load? || step.FindDrained? || step.AlreadyRolledUp? || step.Crash?)
    ensures NoNewIds(s, Next(cfg, s, step))
  {
  }

  lemma DecidingBringsNone(cfg: Config, s: System, step: Step)
    requires Enabled(cfg, s, step) && (step.GiveUp? || step.CountLeft? || step.Complete? || step.NextPass?)
    ensures NoNewIds(s, Next(cfg, s, step))
  {
    if step.Complete? {
      assert Next(cfg, s, step) == NextComplete(s, step.c);
    } else if step.CountLeft? {
      assert Next(cfg, s, step) == NextCountLeft(s, step.c);
    }
  }

  // ---- Lanes

  /** A lane's write leaves every list as it is, or — a checkpoint that lands — adds what it reports. */
  ghost predicate LaneIds(db: S.Db, db': S.Db, more: set<nat>) {
    forall pid <- db'.parts :: pid in db.parts && forall id <- db'.parts[pid].badIds :: id in db.parts[pid].badIds || id in more
  }

  lemma CheckpointIds(db: S.Db, pid: nat, token: nat, progress: S.Progress)
    requires S.Lands(db, pid, token)
    ensures LaneIds(db, S.Checkpoint(db, pid, token, progress), set id | id in progress.badIds)
  {
  }

  lemma HoldersBringNone(cfg: Config, s: System, step: S.Step)
    requires step.ClaimStep? || step.RenewStep? || step.ReleaseStep? || step.FailSliceStep? || step.FailPartitionStep?
    ensures LaneIds(s.db, S.Apply(cfg.store, s.db, step), {})
  {
  }

  lemma UnleasingBringsNone(cfg: Config, s: System, step: S.Step)
    requires step.Tick? || step.ReapStep? || step.UnlockStep?
    ensures LaneIds(s.db, S.Apply(cfg.store, s.db, step), {})
  {
  }

  lemma LaneBrings(cfg: Config, s: System, step: S.Step)
    requires LaneStep(s, step)
    ensures
      var s' := NextLane(cfg, s, step);
      LaneIds(s.db, s'.db, s'.reported) && s.reported <= s'.reported && s'.state == s.state && s'.coords == s.coords
  {
    if step.CheckpointStep? {
      if S.Lands(s.db, step.pid, step.token) {
        CheckpointIds(s.db, step.pid, step.token, step.progress);
      }
    } else if step.Tick? || step.ReapStep? || step.UnlockStep? {
      UnleasingBringsNone(cfg, s, step);
    } else {
      HoldersBringNone(cfg, s, step);
    }
  }

  lemma LaneKeepsBadInv(cfg: Config, s: System, step: S.Step)
    requires BadInv(s) && LaneStep(s, step)
    ensures BadInv(NextLane(cfg, s, step))
  {
    LaneBrings(cfg, s, step);
    MoreIsReported(s, NextLane(cfg, s, step));
  }

  lemma MoreIsReported(s: System, s': System)
    requires BadInv(s) && s.reported <= s'.reported && LaneIds(s.db, s'.db, s'.reported)
    requires s'.state == s.state && s'.coords == s.coords
    ensures BadInv(s')
  {
    forall pid | pid in s'.db.parts ensures Reported(s', s'.db.parts[pid].badIds) {
      assert Reported(s, s.db.parts[pid].badIds);
    }
    forall c | c in s'.coords ensures CoordReported(s', s'.coords[c]) {
      assert CoordReported(s, s.coords[c]);
    }
  }

  // ---- Roll-ups

  lemma {:induction false} GatheredAreReported(s: System, n: nat, gen: nat)
    requires PartsReported(s)
    ensures Reported(s, BadIdsOf(s.db.parts, n, gen))
  {
    if n > 0 {
      GatheredAreReported(s, n - 1, gen);
    }
  }

  lemma SumKeepsBadInv(cfg: Config, s: System, c: nat)
    requires BadInv(s) && Enabled(cfg, s, SumTotals(c))
    ensures BadInv(Next(cfg, s, SumTotals(c)))
  {
    var s' := Next(cfg, s, SumTotals(c));
    GatheredAreReported(s, s.db.nextId, s.coords[c].gen);
    forall d | d in s'.coords ensures CoordReported(s', s'.coords[d]) {
      assert d in s.coords && CoordReported(s, s.coords[d]);
    }
  }

  lemma RollUpKeepsBadInv(s: System, c: nat)
    requires BadInv(s) && c in s.coords && s.coords[c].pc.Summed?
    ensures BadInv(NextRollUp(s, c))
  {
    var s' := NextRollUp(s, c);
    assert CoordReported(s, s.coords[c]);
    forall d | d in s'.coords ensures CoordReported(s', s'.coords[d]) {
      if d != c {
        assert CoordReported(s, s.coords[d]);
      }
    }
  }

  // ---- None is lost

  /** A roll-up that goes through leaves every id of its copy and of its sum, and no other, if they fit. */
  lemma ARollUpKeepsEveryId(s: System, c: nat)
    requires c in s.coords && s.coords[c].pc.Summed? && s.state.rolled < s.coords[c].gen
    ensures
      var me, badIds := s.coords[c], NextRollUp(s, c).state.badIds;
      && (|S.SetOf(me.st.badIds + me.pc.badIds)| <= S.MAX_BAD_IDS + 1 ==>
            forall id :: id in badIds <==> id in me.st.badIds || id in me.pc.badIds)
      && |badIds| == S.Least(|S.SetOf(me.st.badIds + me.pc.badIds)|, S.MAX_BAD_IDS + 1)
  {
    var me, badIds := s.coords[c], NextRollUp(s, c).state.badIds;
    if |S.SetOf(me.st.badIds + me.pc.badIds)| <= S.MAX_BAD_IDS + 1 {
      forall id ensures id in badIds <==> id in me.st.badIds || id in me.pc.badIds {
        assert id in badIds <==> id in S.SetOf(badIds);
        assert id in S.SetOf(me.st.badIds + me.pc.badIds) <==> id in me.st.badIds + me.pc.badIds;
      }
    }
  }

  /** What is gathered of a generation is exactly what its partitions have. */
  lemma {:induction false} GatheredIff(parts: map<nat, S.Partition>, n: nat, gen: nat, id: nat)
    ensures id in BadIdsOf(parts, n, gen) <==>
            exists pid: nat :: pid < n && pid in parts && parts[pid].generation == gen && id in parts[pid].badIds
  {
    if n > 0 {
      GatheredIff(parts, n - 1, gen, id);
    }
  }

  lemma TheSumHasThemAll(s: System, gen: nat, id: nat)
    requires F.FenceInv(s.db)
    ensures id in SumOf(s, gen).badIds <==>
            exists pid :: pid in s.db.parts && s.db.parts[pid].generation == gen && id in s.db.parts[pid].badIds
  {
    GatheredIff(s.db.parts, s.db.nextId, gen, id);
  }

  predicate Fits(s: System) {
    |s.reported| <= S.MAX_BAD_IDS + 1
  }

  predicate HasAll(ids: seq<nat>, more: seq<nat>) {
    forall id <- more :: id in ids
  }

  /** The copy has the bad ids of every partition it takes for rolled up. */
  ghost predicate KnowsRolled(s: System, st: StateDoc) {
    forall pid <- s.db.parts :: s.db.parts[pid].generation <= st.rolled ==> HasAll(st.badIds, s.db.parts[pid].badIds)
  }

  /** A sum that is still to be rolled up has the bad ids of every partition of its generation. */
  ghost predicate SumKnows(s: System, me: Coord) {
    me.pc.Summed? && s.state.rolled < me.gen ==>
      forall pid <- s.db.parts :: s.db.parts[pid].generation == me.gen ==> HasAll(me.pc.badIds, s.db.parts[pid].badIds)
  }

  ghost predicate CoordKnows(s: System, me: Coord) {
    && (me.st.rolled == s.state.rolled ==> me.st.badIds == s.state.badIds)
    && SumKnows(s, me) && (Fits(s) ==> KnowsRolled(s, me.st))
  }

  ghost predicate KeptInv(s: System) {
    && (Fits(s) ==> KnowsRolled(s, s.state))
    && forall c <- s.coords :: CoordKnows(s, s.coords[c])
  }

  lemma NoNewIdsAreKnown(s: System, s': System, st: StateDoc)
    requires NoNewIds(s, s') && KnowsRolled(s, st)
    ensures KnowsRolled(s', st)
  {
    forall pid | pid in s'.db.parts && s'.db.parts[pid].generation <= st.rolled
      ensures HasAll(st.badIds, s'.db.parts[pid].badIds)
    {
      assert OldPart(s, pid, s'.db.parts[pid]);
    }
  }

  lemma NoNewIdsKeepSums(s: System, s': System, me: Coord)
    requires NoNewIds(s, s') && SumKnows(s, me)
    ensures SumKnows(s', me)
  {
    if me.pc.Summed? && s'.state.rolled < me.gen {
      forall pid | pid in s'.db.parts && s'.db.parts[pid].generation == me.gen
        ensures HasAll(me.pc.badIds, s'.db.parts[pid].badIds)
      {
        assert OldPart(s, pid, s'.db.parts[pid]);
      }
    }
  }

  lemma NoNewIdsKeepKept(s: System, s': System)
    requires KeptInv(s) && NoNewIds(s, s')
    ensures KeptInv(s')
  {
    if Fits(s') {
      NoNewIdsAreKnown(s, s', s.state);
    }
    forall c | c in s'.coords ensures CoordKnows(s', s'.coords[c]) {
      var me := s'.coords[c];
      assert OldIds(s, c, me);
      var was := if SameIds(me.st, s.state) then s.state else s.coords[c].st;
      if Fits(s') {
        NoNewIdsAreKnown(s, s', was);
        assert KnowsRolled(s', me.st);
      }
      if me.pc.Summed? {
        assert CoordKnows(s, s.coords[c]);
        NoNewIdsKeepSums(s, s', s.coords[c]);
      }
    }
  }

  /** A lane's write changes the bad ids of partitions of the open generation only. */
  ghost predicate OnlyOpenIdsMove(s: System, db: S.Db) {
    forall pid <- db.parts ::
      && pid in s.db.parts && db.parts[pid].generation == s.db.parts[pid].generation
      && (db.parts[pid].badIds == s.db.parts[pid].badIds || MovesWhileOpen(s, s.db.parts[pid].generation))
  }

  ghost predicate MovesWhileOpen(s: System, gen: nat) {
    gen > s.state.rolled && forall c <- s.coords :: s.coords[c].pc.Summed? ==> s.state.rolled >= s.coords[c].gen
  }

  lemma HoldersMoveNone(cfg: Config, s: System, step: S.Step)
    requires step.ClaimStep? || step.RenewStep? || step.ReleaseStep? || step.FailSliceStep? || step.FailPartitionStep?
    ensures OnlyOpenIdsMove(s, S.Apply(cfg.store, s.db, step))
  {
  }

  lemma UnleasingMovesNone(cfg: Config, s: System, step: S.Step)
    requires step.Tick? || step.ReapStep? || step.UnlockStep?
    ensures OnlyOpenIdsMove(s, S.Apply(cfg.store, s.db, step))
  {
  }

  lemma LandingMovesTheOpen(cfg: Config, s: System, step: S.Step)
    requires Inv(s) && step.CheckpointStep?
    ensures OnlyOpenIdsMove(s, S.Apply(cfg.store, s.db, step))
  {
    if S.Lands(s.db, step.pid, step.token) {
      RollUps.LandingIsInTheOpenGeneration(s, step.pid, step.token);
    }
  }

  lemma LaneKeepsKept(cfg: Config, s: System, step: S.Step)
    requires Inv(s) && KeptInv(s) && LaneStep(s, step)
    ensures KeptInv(NextLane(cfg, s, step))
  {
    var s' := NextLane(cfg, s, step);
    if step.CheckpointStep? {
      LandingMovesTheOpen(cfg, s, step);
    } else if step.Tick? || step.ReapStep? || step.UnlockStep? {
      UnleasingMovesNone(cfg, s, step);
    } else {
      HoldersMoveNone(cfg, s, step);
    }
    LaneBrings(cfg, s, step);
    if Fits(s') {
      FewerFit(s.reported, s'.reported);
    }
    OpenIdsKeepKept(s, s');
  }

  lemma FewerFit(a: set<nat>, b: set<nat>)
    requires a <= b
    ensures |a| <= |b|
  {
    assert b == a + (b - a);
  }

  lemma OpenIdsKeepKept(s: System, s': System)
    requires Inv(s) && KeptInv(s) && OnlyOpenIdsMove(s, s'.db) && s'.state == s.state && s'.coords == s.coords
    requires Fits(s') ==> Fits(s)
    ensures KeptInv(s')
  {
    forall c | c in s'.coords ensures CoordKnows(s', s'.coords[c]) {
      assert CoordKnows(s, s.coords[c]) && CoordInv(s, s.coords[c]);
      if Fits(s') {
        OpenIdsAreNotRolled(s, s', s.coords[c].st);
      }
    }
    if Fits(s') {
      OpenIdsAreNotRolled(s, s', s.state);
    }
  }

  lemma OpenIdsAreNotRolled(s: System, s': System, st: StateDoc)
    requires OnlyOpenIdsMove(s, s'.db) && st.rolled <= s.state.rolled && KnowsRolled(s, st)
    ensures KnowsRolled(s', st)
  {
  }

  lemma SumKeepsKept(cfg: Config, s: System, c: nat)
    requires Inv(s) && KeptInv(s) && Enabled(cfg, s, SumTotals(c))
    ensures KeptInv(Next(cfg, s, SumTotals(c)))
  {
    var s' := Next(cfg, s, SumTotals(c));
    assert s'.coords == s.coords[c := s.coords[c].(pc := SumOf(s, s.coords[c].gen))];
    forall d | d in s'.coords ensures CoordKnows(s', s'.coords[d]) {
      assert d in s.coords && CoordKnows(s, s.coords[d]);
      if d == c {
        forall pid, id | pid in s.db.parts && s.db.parts[pid].generation == s.coords[c].gen && id in s.db.parts[pid].badIds
          ensures id in s'.coords[c].pc.badIds
        {
          TheSumHasThemAll(s, s.coords[c].gen, id);
        }
      }
    }
  }

  /** The ids a roll-up unites were all reported, so they are no more than those. */
  lemma TheyFit(s: System, me: Coord)
    requires CoordReported(s, me) && me.pc.Summed? && Fits(s)
    ensures |S.SetOf(me.st.badIds + me.pc.badIds)| <= S.MAX_BAD_IDS + 1
  {
    FewerFit(S.SetOf(me.st.badIds + me.pc.badIds), s.reported);
  }

  /** The copy a pass is closed from has everything up to the pass before, the sum has the pass itself. */
  lemma RollUpKnows(s: System, c: nat)
    requires Inv(s) && BadInv(s) && KeptInv(s) && c in s.coords && s.coords[c].pc.Summed? && Fits(s)
    requires s.state.rolled < s.coords[c].gen
    ensures KnowsRolled(NextRollUp(s, c), NextRollUp(s, c).state)
  {
    var s', me := NextRollUp(s, c), s.coords[c];
    assert CoordInv(s, me) && CoordReported(s, me) && CoordKnows(s, me);
    TheyFit(s, me);
    ARollUpKeepsEveryId(s, c);
    forall pid | pid in s'.db.parts && s'.db.parts[pid].generation <= s'.state.rolled
      ensures HasAll(s'.state.badIds, s'.db.parts[pid].badIds)
    {
      if s.db.parts[pid].generation < me.gen {
        assert s.db.parts[pid].generation <= me.st.rolled;
        assert HasAll(me.st.badIds, s.db.parts[pid].badIds);
      } else {
        assert HasAll(me.pc.badIds, s.db.parts[pid].badIds);
      }
    }
  }

  lemma RollUpKeepsKept(s: System, c: nat)
    requires Inv(s) && BadInv(s) && KeptInv(s) && c in s.coords && s.coords[c].pc.Summed?
    ensures KeptInv(NextRollUp(s, c))
  {
    var s', me := NextRollUp(s, c), s.coords[c];
    if Fits(s') && s.state.rolled < me.gen {
      RollUpKnows(s, c);
    }
    assert CoordInv(s, me);
    forall d | d in s'.coords ensures CoordKnows(s', s'.coords[d]) {
      assert CoordKnows(s, s.coords[d]) && CoordInv(s, s.coords[d]);
      if d != c && Fits(s') {
        assert KnowsRolled(s, s.coords[d].st);
      }
    }
  }

  // ---- Every step, every run

  lemma OthersBringNone(cfg: Config, s: System, step: Step)
    requires Inv(s) && Enabled(cfg, s, step) && !step.Lane? && !step.SumTotals? && !step.RollUp?
    ensures NoNewIds(s, Next(cfg, s, step))
  {
    if step.InsertPlan? {
      InsertBringsNone(s, step.c, step.groups);
    } else if step.CommitPlan? {
      CommitBringsNone(s, step.c);
    } else if step.DropLost? || step.DropForeign? || step.DropOld? {
      DropsBringNone(cfg, s, step);
    } else if step.CancelPlan? || step.Retry? {
      StoreControlsBringNone(cfg, s, step);
    } else if step.Load? || step.FindDrained? || step.AlreadyRolledUp? || step.Crash? {
      ReadingBringsNone(cfg, s, step);
    } else if step.GiveUp? || step.CountLeft? || step.Complete? || step.NextPass? {
      DecidingBringsNone(cfg, s, step);
    } else {
      ControlsBringNone(cfg, s, step);
    }
  }

  lemma StepKeepsBadInv(cfg: Config, s: System, step: Step)
    requires Inv(s) && BadInv(s) && Enabled(cfg, s, step)
    ensures BadInv(Next(cfg, s, step))
  {
    if step.Lane? {
      LaneKeepsBadInv(cfg, s, step.step);
    } else if step.SumTotals? {
      SumKeepsBadInv(cfg, s, step.c);
    } else if step.RollUp? {
      RollUpKeepsBadInv(s, step.c);
    } else {
      OthersBringNone(cfg, s, step);
      NoNewIdsKeepInv(s, Next(cfg, s, step));
    }
  }

  lemma StepKeepsKept(cfg: Config, s: System, step: Step)
    requires Inv(s) && BadInv(s) && KeptInv(s) && Enabled(cfg, s, step)
    ensures KeptInv(Next(cfg, s, step))
  {
    if step.Lane? {
      LaneKeepsKept(cfg, s, step.step);
    } else if step.SumTotals? {
      SumKeepsKept(cfg, s, step.c);
    } else if step.RollUp? {
      RollUpKeepsKept(s, step.c);
    } else {
      OthersBringNone(cfg, s, step);
      NoNewIdsKeepKept(s, Next(cfg, s, step));
    }
  }

  lemma {:induction false} RunKeepsBadInv(cfg: Config, s: System, steps: seq<Step>)
    requires Inv(s) && BadInv(s) && KeptInv(s) && Run(cfg, s, steps)
    ensures BadInv(After(cfg, s, steps)) && KeptInv(After(cfg, s, steps))
    decreases |steps|
  {
    if steps != [] {
      StepKeepsInv(cfg, s, steps[0]);
      StepKeepsBadInv(cfg, s, steps[0]);
      StepKeepsKept(cfg, s, steps[0]);
      RunKeepsBadInv(cfg, Next(cfg, s, steps[0]), steps[1..]);
    }
  }

  /** Some step counted zero for pass g, and all that still matched then had been reported as failed. */
  ghost predicate LeftOnlyTheFailed(cfg: Config, s: System, steps: seq<Step>, g: nat)
    requires Run(cfg, s, steps)
    decreases |steps|
  {
    steps != [] &&
    (|| (Completion.CountsZero(cfg, s, steps[0], g) && s.matching <= s.reported)
     || LeftOnlyTheFailed(cfg, Next(cfg, s, steps[0]), steps[1..], g))
  }

  lemma {:induction false} ZeroCountsLeaveTheFailed(cfg: Config, s: System, steps: seq<Step>, g: nat)
    requires Inv(s) && BadInv(s) && Run(cfg, s, steps) && Completion.CountedZero(cfg, s, steps, g)
    ensures LeftOnlyTheFailed(cfg, s, steps, g)
    decreases |steps|
  {
    if Completion.CountsZero(cfg, s, steps[0], g) {
      assert CoordReported(s, s.coords[steps[0].c]);
    } else {
      StepKeepsInv(cfg, s, steps[0]);
      StepKeepsBadInv(cfg, s, steps[0]);
      ZeroCountsLeaveTheFailed(cfg, Next(cfg, s, steps[0]), steps[1..], g);
    }
  }

  /**
   * So a state is completed only after a count that found nothing to rewrite but documents some landed
   * checkpoint had reported as failed; and whatever it excludes was reported.
   */
  lemma CompletedLeavesOnlyTheFailed(cfg: Config, s0: System, steps: seq<Step>)
    requires Initial(s0) && cfg.maxPasses > 0 && Run(cfg, s0, steps)
    ensures
      var s := After(cfg, s0, steps);
      && Reported(s, s.state.badIds)
      && (s.state.status == Completed ==>
            s.completed.Some? && LeftOnlyTheFailed(cfg, s0, steps, s.completed.value))
  {
    RunKeepsBadInv(cfg, s0, steps);
    if After(cfg, s0, steps).state.status == Completed {
      Completion.CompletedOnlyAfterAZeroCount(cfg, s0, steps);
      ZeroCountsLeaveTheFailed(cfg, s0, steps, After(cfg, s0, steps).completed.value);
    }
  }

  /**
   * And nothing reported is lost on the way: as long as no more documents were reported as failed than a
   * list may hold, the state has every bad id of every partition rolled up; and a coordinator that rolled
   * its pass up counts zero whenever all that still matches is a bad id of such a partition.
   */
  lemma NoBadIdIsLost(cfg: Config, s0: System, steps: seq<Step>, pid: nat, id: nat)
    requires Initial(s0) && Run(cfg, s0, steps) && |After(cfg, s0, steps).reported| <= S.MAX_BAD_IDS + 1
    requires
      var s := After(cfg, s0, steps);
      pid in s.db.parts && s.db.parts[pid].generation <= s.state.rolled && id in s.db.parts[pid].badIds
    ensures id in After(cfg, s0, steps).state.badIds
  {
    RunKeepsInv(cfg, s0, steps);
    RunKeepsBadInv(cfg, s0, steps);
    var s := After(cfg, s0, steps);
    assert Fits(s) && HasAll(s.state.badIds, s.db.parts[pid].badIds);
  }

  /** The document is a bad id of a partition of this pass or an earlier one. */
  ghost predicate BadUpTo(s: System, gen: nat, id: nat) {
    exists pid :: pid in s.db.parts && s.db.parts[pid].generation <= gen && id in s.db.parts[pid].badIds
  }

  lemma OnlyTheFailedMatchCountsZero(cfg: Config, s0: System, steps: seq<Step>, c: nat)
    requires Initial(s0) && Run(cfg, s0, steps) && |After(cfg, s0, steps).reported| <= S.MAX_BAD_IDS + 1
    requires Enabled(cfg, After(cfg, s0, steps), CountLeft(c))
    requires
      var s := After(cfg, s0, steps);
      forall id <- s.matching :: BadUpTo(s, s.coords[c].gen, id)
    ensures Enabled(cfg, Next(cfg, After(cfg, s0, steps), CountLeft(c)), Complete(c))
  {
    RunKeepsInv(cfg, s0, steps);
    RunKeepsBadInv(cfg, s0, steps);
    var s := After(cfg, s0, steps);
    KnowsThatAll(s, c);
    CountsZeroThen(cfg, s, c);
  }

  lemma CountsZeroThen(cfg: Config, s: System, c: nat)
    requires Enabled(cfg, s, CountLeft(c)) && forall id <- s.matching :: id in s.coords[c].st.badIds
    ensures Enabled(cfg, Next(cfg, s, CountLeft(c)), Complete(c))
  {
    assert Next(cfg, s, CountLeft(c)) == NextCountLeft(s, c);
  }

  lemma KnowsThatAll(s: System, c: nat)
    requires Inv(s) && KeptInv(s) && Fits(s) && c in s.coords && s.coords[c].pc.RolledUp?
    requires forall id <- s.matching :: BadUpTo(s, s.coords[c].gen, id)
    ensures forall id <- s.matching :: id in s.coords[c].st.badIds
  {
    assert CoordInv(s, s.coords[c]) && CoordKnows(s, s.coords[c]);
    forall id | id in s.matching ensures id in s.coords[c].st.badIds {
      var pid :| pid in s.db.parts && s.db.parts[pid].generation <= s.coords[c].gen && id in s.db.parts[pid].badIds;
      assert HasAll(s.coords[c].st.badIds, s.db.parts[pid].badIds);
    }
  }
}
