/**
 * Fencing by lease tokens (src/core/background-store.js): a lane that lost its lease — reaped,
 * unlocked, released or taken over — never changes the partition again, a partition's counters are
 * the sum of what its successive holders checkpointed, and a done partition stays as it is.
 */
module Fencing {
  import opened Wrappers
  import opened Store

  ghost predicate FenceInv(db: Db) {
    forall pid <- db.parts ::
      && pid < db.nextId
      && (db.parts[pid].lease.Some? ==> db.parts[pid].lease.value.token < db.nextToken)
      && (db.parts[pid].status == Done ==> db.parts[pid].lease.None?)
  }

  /** The checkpoint counters a step adds to a partition. */
  function LandedOf(db: Db, step: Step, pid: nat): Counters {
    if step.CheckpointStep? && step.pid == pid && Lands(db, pid, step.token) then step.progress.counters else map[]
  }

  /** What one step may do to a partition that it leaves in the collection. */
  ghost predicate PartMoves(db: Db, db': Db, step: Step, pid: nat)
    requires pid in db.parts && pid in db'.parts
  {
    var p, p' := db.parts[pid], db'.parts[pid];
    && p'.generation == p.generation && p'.plan == p.plan && p'.group == p.group
    && (forall key :: Get(p'.counters, key) == Get(p.counters, key) + Get(LandedOf(db, step, pid), key))
    && (p'.cursor != p.cursor ==> step.CheckpointStep? && step.pid == pid && Lands(db, pid, step.token))
    && (p.status == Done ==> p' == p)
    && (p'.lease.Some? ==>
          || (p.lease.Some? && p'.lease.value.token == p.lease.value.token)
          || p'.lease.value.token == db.nextToken)
  }

  ghost predicate StepMoves(db: Db, db': Db, step: Step) {
    && FenceInv(db') && db'.nextToken >= db.nextToken && db'.nextId >= db.nextId
    && (forall pid <- db'.parts :: pid in db.parts || (db.nextId <= pid && db'.parts[pid].lease.None?
                                                       && db'.parts[pid].counters == map[]))
    && (forall pid | pid in db.parts && pid in db'.parts :: PartMoves(db, db', step, pid))
  }

  lemma ClaimMoves(cfg: Config, db: Db, step: Step)
    requires FenceInv(db) && step.ClaimStep?
    ensures StepMoves(db, Apply(cfg, db, step), step)
  {
  }

  lemma RenewalMoves(cfg: Config, db: Db, step: Step)
    requires FenceInv(db) && (step.RenewStep? || step.ReleaseStep?)
    ensures StepMoves(db, Apply(cfg, db, step), step)
  {
  }

  lemma CheckpointMoves(cfg: Config, db: Db, step: Step)
    requires FenceInv(db) && step.CheckpointStep?
    ensures StepMoves(db, Apply(cfg, db, step), step)
  {
  }

  lemma FailureMoves(cfg: Config, db: Db, step: Step)
    requires FenceInv(db) && (step.FailSliceStep? || step.FailPartitionStep?)
    ensures StepMoves(db, Apply(cfg, db, step), step)
  {
  }

  lemma UnleasingMoves(cfg: Config, db: Db, step: Step)
    requires FenceInv(db) && (step.Tick? || step.ReapStep? || step.UnlockStep?)
    ensures StepMoves(db, Apply(cfg, db, step), step)
  {
  }

  lemma SetStatusMoves(db: Db, generation: nat, plan: nat, from: set<Status>, to: Status, step: Step)
    requires FenceInv(db) && Done !in from && to != Done && !step.CheckpointStep?
    ensures StepMoves(db, SetStatus(db, generation, plan, from, to), step)
  {
  }

  lemma StatusMoves(cfg: Config, db: Db, step: Step)
    requires FenceInv(db) && (step.SupersedeStep? || step.CancelStep? || step.ReopenStep?)
    ensures StepMoves(db, Apply(cfg, db, step), step)
  {
    if step.SupersedeStep? {
      SetStatusMoves(db, step.generation, step.plan, {Pending, Running}, Superseded, step);
    } else if step.CancelStep? {
      SetStatusMoves(db, step.generation, step.plan, {Pending, Running}, Cancelled, step);
    } else {
      SetStatusMoves(db, step.generation, step.plan, {Failed, Cancelled}, Pending, step);
    }
  }

  lemma PlanMoves(cfg: Config, db: Db, step: Step)
    requires FenceInv(db)
    requires step.InsertStep? || step.DropGenerationsStep? || step.DropForeignStep? || step.DropPlanStep?
    ensures StepMoves(db, Apply(cfg, db, step), step)
  {
  }

  lemma EveryStepMoves(cfg: Config, db: Db, step: Step)
    requires FenceInv(db)
    ensures StepMoves(db, Apply(cfg, db, step), step)
  {
    if step.ClaimStep? {
      ClaimMoves(cfg, db, step);
    } else if step.RenewStep? || step.ReleaseStep? {
      RenewalMoves(cfg, db, step);
    } else if step.CheckpointStep? {
      CheckpointMoves(cfg, db, step);
    } else if step.FailSliceStep? || step.FailPartitionStep? {
      FailureMoves(cfg, db, step);
    } else if step.Tick? || step.ReapStep? || step.UnlockStep? {
      UnleasingMoves(cfg, db, step);
    } else if step.SupersedeStep? || step.CancelStep? || step.ReopenStep? {
      StatusMoves(cfg, db, step);
    } else {
      PlanMoves(cfg, db, step);
    }
  }

  lemma {:induction false} RunKeepsFences(cfg: Config, db: Db, steps: seq<Step>)
    requires FenceInv(db)
    ensures FenceInv(After(cfg, db, steps))
    ensures After(cfg, db, steps).nextToken >= db.nextToken && After(cfg, db, steps).nextId >= db.nextId
    decreases |steps|
  {
    if steps != [] {
      EveryStepMoves(cfg, db, steps[0]);
      RunKeepsFences(cfg, Apply(cfg, db, steps[0]), steps[1..]);
    }
  }

  // ---- A lost lease stays lost

  /** The token was given out, and the partition is no longer leased under it. */
  ghost predicate Fenced(db: Db, pid: nat, token: nat) {
    token < db.nextToken && pid < db.nextId && !(pid in db.parts && HeldBy(db.parts[pid], token))
  }

  /**
   * Once a lease is lost, nothing that happens afterwards brings it back, and no checkpoint that
   * carries its token changes anything.
   */
  lemma {:induction false} FencedForGood(cfg: Config, db: Db, steps: seq<Step>, pid: nat, token: nat, progress: Progress)
    requires FenceInv(db) && Fenced(db, pid, token)
    ensures Fenced(After(cfg, db, steps), pid, token)
    ensures Checkpoint(After(cfg, db, steps), pid, token, progress) == After(cfg, db, steps)
    decreases |steps|
  {
    if steps != [] {
      EveryStepMoves(cfg, db, steps[0]);
      FencedForGood(cfg, Apply(cfg, db, steps[0]), steps[1..], pid, token, progress);
    }
  }

  /** Reaping, unlocking, releasing, finishing and failing all fence the holder off. */
  lemma WhatEndsALease(cfg: Config, db: Db, pid: nat, token: nat, progress: Progress, maxFailures: nat)
    requires FenceInv(db) && pid in db.parts && HeldBy(db.parts[pid], token)
    ensures Expired(db.parts[pid], db.now) ==> Fenced(Reap(db), pid, token)
    ensures Fenced(UnlockAll(db), pid, token) && Fenced(Release(db, pid, token), pid, token)
    ensures Lands(db, pid, token) && progress.done ==> Fenced(Checkpoint(db, pid, token, progress), pid, token)
    ensures Open(db.parts[pid]) ==> Fenced(FailSlice(db, pid, token, maxFailures), pid, token)
  {
  }

  /** The holder's own step. */
  predicate IsByHolder(step: Step, pid: nat, token: nat) {
    || (step.ReleaseStep? && step.pid == pid && step.token == token)
    || (step.CheckpointStep? && step.pid == pid && step.token == token && step.progress.done)
    || (step.FailSliceStep? && step.pid == pid && step.token == token)
    || (step.FailPartitionStep? && step.pid == pid && step.token == token)
  }

  predicate DropsPartitions(step: Step) {
    step.DropGenerationsStep? || step.DropForeignStep? || step.DropPlanStep?
  }

  /**
   * Nobody else disturbs a holder: its lease ends by its own doing, by an unlock of everything, with its
   * partition, or by a reaping after its time — never by a claim, or by what another lane does.
   */
  lemma OnlyTheseEndALease(cfg: Config, db: Db, step: Step, pid: nat, token: nat)
    requires FenceInv(db) && pid in db.parts && HeldBy(db.parts[pid], token)
    requires !(pid in Apply(cfg, db, step).parts && HeldBy(Apply(cfg, db, step).parts[pid], token))
    ensures
      || IsByHolder(step, pid, token) || step.UnlockStep? || (DropsPartitions(step) && pid !in Apply(cfg, db, step).parts)
      || (step.ReapStep? && db.parts[pid].lease.value.renewedAt + db.parts[pid].lease.value.ttl < db.now)
  {
  }

  /** One failed slice more; the partition fails with the last that is allowed. */
  predicate FailedOnce(was: Partition, now: Partition, maxFailures: nat) {
    now == was.(lease := None, failures := was.failures + 1,
                status := if was.failures + 1 >= maxFailures then Failed else was.status)
  }

  /**
   * A holder's failure counts, also if its lease was dropped before it could say so — but not once
   * another lane has taken the partition over, or closed it.
   */
  lemma ALateFailureCounts(cfg: Config, db: Db, pid: nat, token: nat, maxFailures: nat, next: Step)
    requires FenceInv(db) && pid in db.parts && HeldBy(db.parts[pid], token) && Open(db.parts[pid])
    ensures FailedOnce(db.parts[pid], FailSlice(db, pid, token, maxFailures).parts[pid], maxFailures)
    ensures FailedOnce(db.parts[pid], FailSlice(UnlockAll(db), pid, token, maxFailures).parts[pid], maxFailures)
    ensures next.ClaimStep? && next.pid == pid && Apply(cfg, UnlockAll(db), next) != UnlockAll(db) ==>
              FailSlice(Apply(cfg, UnlockAll(db), next), pid, token, maxFailures) == Apply(cfg, UnlockAll(db), next)
    ensures next.CheckpointStep? && next.pid == pid && next.token == token && next.progress.done && Lands(db, pid, token) ==>
              FailSlice(Apply(cfg, db, next), pid, token, maxFailures) == Apply(cfg, db, next)
  {
  }

  /** The partition cannot be claimed, and nothing of it moves any more, whoever holds a lease on it. */
  predicate StandsStill(db: Db, pid: nat, token: nat, slot: nat, groupSlot: Option<string>, ttl: nat, progress: Progress)
    requires pid in db.parts
  {
    && ClaimWrite(db, pid, db.parts[pid].generation, db.parts[pid].plan, slot, groupSlot, ttl) == db
    && Checkpoint(db, pid, token, progress) == db
    && FailSlice(db, pid, token, 1) == db && FailPartition(db, pid, token) == db
  }

  /** Of a plan that is superseded, or cancelled, every partition stands still. */
  lemma AStoppedPlanStandsStill(db: Db, pid: nat, token: nat, slot: nat, groupSlot: Option<string>, ttl: nat, progress: Progress)
    requires pid in db.parts
    ensures StandsStill(Supersede(db, db.parts[pid].generation, db.parts[pid].plan), pid, token, slot, groupSlot, ttl, progress)
    ensures StandsStill(CancelOpen(db, db.parts[pid].generation, db.parts[pid].plan), pid, token, slot, groupSlot, ttl, progress)
  {
  }

  /** A lease lasts its time: renewed, and then not again, it survives a reaping exactly as long as that. */
  lemma ALeaseLastsItsTime(cfg: Config, db: Db, pid: nat, token: nat, dt: nat)
    requires pid in db.parts && HeldBy(db.parts[pid], token)
    ensures
      var later := Apply(cfg, Renew(db, pid, token), Tick(dt));
      HeldBy(Reap(later).parts[pid], token) <==> dt <= db.parts[pid].lease.value.ttl
  {
  }

  // ---- Counters are what the holders landed

  function LandedTotal(cfg: Config, db: Db, steps: seq<Step>, pid: nat, key: string): nat
    decreases |steps|
  {
    if steps == [] then 0
    else Get(LandedOf(db, steps[0], pid), key) + LandedTotal(cfg, Apply(cfg, db, steps[0]), steps[1..], pid, key)
  }

  lemma {:induction false} GoneStaysGone(cfg: Config, db: Db, steps: seq<Step>, pid: nat)
    requires FenceInv(db) && pid < db.nextId && pid !in db.parts
    ensures pid !in After(cfg, db, steps).parts
    decreases |steps|
  {
    if steps != [] {
      EveryStepMoves(cfg, db, steps[0]);
      GoneStaysGone(cfg, Apply(cfg, db, steps[0]), steps[1..], pid);
    }
  }

  /** Over any run, a partition's counters grow by exactly the checkpoints that landed on it. */
  lemma {:induction false} CountersAreWhatLanded(cfg: Config, db: Db, steps: seq<Step>, pid: nat, key: string)
    requires FenceInv(db) && pid in db.parts && pid in After(cfg, db, steps).parts
    ensures Get(After(cfg, db, steps).parts[pid].counters, key) ==
            Get(db.parts[pid].counters, key) + LandedTotal(cfg, db, steps, pid, key)
    decreases |steps|
  {
    if steps != [] {
      var db' := Apply(cfg, db, steps[0]);
      EveryStepMoves(cfg, db, steps[0]);
      if pid !in db'.parts {
        GoneStaysGone(cfg, db', steps[1..], pid);
      }
      assert PartMoves(db, db', steps[0], pid);
      CountersAreWhatLanded(cfg, db', steps[1..], pid, key);
    }
  }

  /** Every later lease of the partition carries a token of at least this one. */
  ghost predicate LeasedFrom(db: Db, pid: nat, token: nat) {
    && token < db.nextToken && pid < db.nextId
    && (pid in db.parts && db.parts[pid].lease.Some? ==> db.parts[pid].lease.value.token >= token)
  }

  lemma {:induction false} LaterLeases(cfg: Config, db: Db, steps: seq<Step>, pid: nat, token: nat)
    requires FenceInv(db) && LeasedFrom(db, pid, token)
    ensures LeasedFrom(After(cfg, db, steps), pid, token)
    decreases |steps|
  {
    if steps != [] {
      EveryStepMoves(cfg, db, steps[0]);
      LaterLeases(cfg, Apply(cfg, db, steps[0]), steps[1..], pid, token);
    }
  }

  /** Holders succeed one another: after one landed, only it or a later one lands. */
  lemma HoldersSucceedOneAnother(cfg: Config, db: Db, steps: seq<Step>, pid: nat, token: nat, later: nat)
    requires FenceInv(db) && Lands(db, pid, token)
    requires Lands(After(cfg, db, steps), pid, later)
    ensures token <= later
  {
    LaterLeases(cfg, db, steps, pid, token);
  }

  // ---- Done is done

  /** A done partition, once it is there, never changes: it can only be deleted. */
  lemma {:induction false} DoneIsFrozen(cfg: Config, db: Db, steps: seq<Step>, pid: nat)
    requires FenceInv(db) && pid in db.parts && db.parts[pid].status == Done
    requires pid in After(cfg, db, steps).parts
    ensures After(cfg, db, steps).parts[pid] == db.parts[pid]
    decreases |steps|
  {
    if steps != [] {
      var db' := Apply(cfg, db, steps[0]);
      EveryStepMoves(cfg, db, steps[0]);
      if pid !in db'.parts {
        GoneStaysGone(cfg, db', steps[1..], pid);
      }
      assert PartMoves(db, db', steps[0], pid);
      DoneIsFrozen(cfg, db', steps[1..], pid);
    }
  }
}
