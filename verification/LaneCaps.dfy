/**
 * The lanes' caps, from the two unique indexes of src/core/background-store.js: whatever claims,
 * reaps, releases, checkpoints and unlocks interleave, at most `maxParallel` partitions are leased,
 * and under sharded claims at most `shardConcurrency` per group.
 */
module LaneCaps {
  import opened Wrappers
  import opened Text
  import opened Store

  ghost predicate Leased(db: Db, pid: nat) {
    pid in db.parts && db.parts[pid].lease.Some?
  }

  /** The k that a sharded lease's group slot was made from. */
  ghost predicate HoldsGroupSlot(cfg: Config, part: Partition, k: nat)
    requires part.lease.Some?
  {
    cfg.shardConcurrency.Some? && k < cfg.shardConcurrency.value
    && part.lease.value.groupSlot == Some(GroupSlot(part.group, k))
  }

  ghost predicate SlotsInv(cfg: Config, db: Db) {
    && (forall pid <- db.parts :: pid < db.nextId && db.parts[pid].group != Some(""))
    && (forall pid | Leased(db, pid) ::
          && db.parts[pid].lease.value.slot < cfg.maxParallel
          && db.parts[pid].lease.value.token < db.nextToken
          && (cfg.shardConcurrency.Some? ==> exists k :: HoldsGroupSlot(cfg, db.parts[pid], k)))
    && (forall p, q | Leased(db, p) && Leased(db, q) && p != q ::
          && db.parts[p].lease.value.slot != db.parts[q].lease.value.slot
          && db.parts[p].lease.value.token != db.parts[q].lease.value.token
          && (cfg.shardConcurrency.Some? ==>
                db.parts[p].lease.value.groupSlot != db.parts[q].lease.value.groupSlot))
  }

  /** Leases are only dropped or renewed: no slot, group slot or token moves. */
  ghost predicate LeasesOnlyDrop(db: Db, db': Db) {
    && db'.nextToken >= db.nextToken && db'.nextId >= db.nextId
    && (forall pid <- db'.parts :: pid < db'.nextId && db'.parts[pid].group != Some(""))
    && forall pid | Leased(db', pid) ::
         && Leased(db, pid) && db'.parts[pid].group == db.parts[pid].group
         && db'.parts[pid].lease.value.slot == db.parts[pid].lease.value.slot
         && db'.parts[pid].lease.value.groupSlot == db.parts[pid].lease.value.groupSlot
         && db'.parts[pid].lease.value.token == db.parts[pid].lease.value.token
  }

  lemma DroppedLeasesKeepTheInv(cfg: Config, db: Db, db': Db)
    requires SlotsInv(cfg, db) && LeasesOnlyDrop(db, db')
    ensures SlotsInv(cfg, db')
  {
    forall pid | Leased(db', pid) && cfg.shardConcurrency.Some? ensures exists k :: HoldsGroupSlot(cfg, db'.parts[pid], k) {
      var k :| HoldsGroupSlot(cfg, db.parts[pid], k);
      assert HoldsGroupSlot(cfg, db'.parts[pid], k);
    }
  }

  lemma ClaimKeepsTheInv(cfg: Config, db: Db, step: Step)
    requires SlotsInv(cfg, db) && step.ClaimStep? && Permitted(cfg, step)
    ensures SlotsInv(cfg, Apply(cfg, db, step))
  {
    var db' := Apply(cfg, db, step);
    var pid := step.pid;
    if db' != db {
      if cfg.shardConcurrency.Some? {
        assert HoldsGroupSlot(cfg, db'.parts[pid], step.k);
      }
      forall p | Leased(db', p) && p != pid
        ensures db'.parts[p] == db.parts[p] && Leased(db, p)
        ensures db.parts[p].lease.value.slot != step.slot
        ensures cfg.shardConcurrency.Some? ==> db.parts[p].lease.value.groupSlot != db'.parts[pid].lease.value.groupSlot
      {
      }
      forall p | Leased(db', p) && cfg.shardConcurrency.Some? ensures exists k :: HoldsGroupSlot(cfg, db'.parts[p], k) {
        if p != pid {
          var k :| HoldsGroupSlot(cfg, db.parts[p], k);
          assert HoldsGroupSlot(cfg, db'.parts[p], k);
        }
      }
    }
  }

  lemma HolderStepsDropLeases(cfg: Config, db: Db, step: Step)
    requires SlotsInv(cfg, db) && (step.RenewStep? || step.ReleaseStep? || step.CheckpointStep?)
    ensures LeasesOnlyDrop(db, Apply(cfg, db, step))
  {
  }

  lemma FailuresDropLeases(cfg: Config, db: Db, step: Step)
    requires SlotsInv(cfg, db) && (step.FailSliceStep? || step.FailPartitionStep?)
    ensures LeasesOnlyDrop(db, Apply(cfg, db, step))
  {
  }

  lemma UnleasingDropsLeases(cfg: Config, db: Db, step: Step)
    requires SlotsInv(cfg, db) && (step.Tick? || step.ReapStep? || step.UnlockStep?)
    ensures LeasesOnlyDrop(db, Apply(cfg, db, step))
  {
  }

  lemma StatusStepsDropLeases(cfg: Config, db: Db, step: Step)
    requires SlotsInv(cfg, db) && (step.SupersedeStep? || step.CancelStep? || step.ReopenStep?)
    ensures LeasesOnlyDrop(db, Apply(cfg, db, step))
  {
  }

  lemma PlanStepsDropLeases(cfg: Config, db: Db, step: Step)
    requires SlotsInv(cfg, db) && Permitted(cfg, step)
    requires step.InsertStep? || step.DropGenerationsStep? || step.DropForeignStep? || step.DropPlanStep?
    ensures LeasesOnlyDrop(db, Apply(cfg, db, step))
  {
  }

  lemma StepKeepsTheInv(cfg: Config, db: Db, step: Step)
    requires SlotsInv(cfg, db) && Permitted(cfg, step)
    ensures SlotsInv(cfg, Apply(cfg, db, step))
  {
    if step.ClaimStep? {
      ClaimKeepsTheInv(cfg, db, step);
    } else if step.RenewStep? || step.ReleaseStep? || step.CheckpointStep? {
      HolderStepsDropLeases(cfg, db, step);
    } else if step.FailSliceStep? || step.FailPartitionStep? {
      FailuresDropLeases(cfg, db, step);
    } else if step.Tick? || step.ReapStep? || step.UnlockStep? {
      UnleasingDropsLeases(cfg, db, step);
    } else if step.SupersedeStep? || step.CancelStep? || step.ReopenStep? {
      StatusStepsDropLeases(cfg, db, step);
    } else {
      PlanStepsDropLeases(cfg, db, step);
    }
    if !step.ClaimStep? {
      DroppedLeasesKeepTheInv(cfg, db, Apply(cfg, db, step));
    }
  }

  lemma {:induction false} RunKeepsTheInv(cfg: Config, db: Db, steps: seq<Step>)
    requires SlotsInv(cfg, db) && Run(cfg, steps)
    ensures SlotsInv(cfg, After(cfg, db, steps))
    decreases |steps|
  {
    if steps != [] {
      StepKeepsTheInv(cfg, db, steps[0]);
      RunKeepsTheInv(cfg, Apply(cfg, db, steps[0]), steps[1..]);
    }
  }

  // ---- Counting lanes

  function Lanes(db: Db): set<nat> {
    set pid | pid in db.parts && db.parts[pid].lease.Some?
  }

  function LanesOf(db: Db, group: Option<string>): set<nat> {
    set pid | pid in db.parts && db.parts[pid].lease.Some? && db.parts[pid].group == group
  }

  /** Different numbers below n: at most n of them. */
  lemma {:induction false} AtMost(number: map<nat, nat>, n: nat)
    requires forall p <- number :: number[p] < n
    requires forall p, q | p in number && q in number && p != q :: number[p] != number[q]
    ensures |number.Keys| <= n
    decreases n
  {
    if n == 0 {
      assert number.Keys == {};
    } else if exists p :: p in number && number[p] == n - 1 {
      var p :| p in number && number[p] == n - 1;
      AtMost(number - {p}, n - 1);
      assert number.Keys == (number - {p}).Keys + {p};
    } else {
      AtMost(number, n - 1);
    }
  }

  lemma LanesAreCapped(cfg: Config, db: Db)
    requires SlotsInv(cfg, db)
    ensures |Lanes(db)| <= cfg.maxParallel
  {
    var number := map pid | pid in Lanes(db) :: db.parts[pid].lease.value.slot;
    AtMost(number, cfg.maxParallel);
    assert number.Keys == Lanes(db);
  }

  ghost function KOf(cfg: Config, db: Db, pid: nat): (k: nat)
    requires SlotsInv(cfg, db) && cfg.shardConcurrency.Some? && Leased(db, pid)
    ensures HoldsGroupSlot(cfg, db.parts[pid], k)
  {
    var k :| HoldsGroupSlot(cfg, db.parts[pid], k);
    k
  }

  lemma GroupsAreCapped(cfg: Config, db: Db, group: Option<string>)
    requires SlotsInv(cfg, db) && cfg.shardConcurrency.Some?
    ensures |LanesOf(db, group)| <= cfg.shardConcurrency.value
  {
    var number := map pid | pid in LanesOf(db, group) :: KOf(cfg, db, pid);
    forall p, q | p in number && q in number && p != q ensures number[p] != number[q] {
      assert HoldsGroupSlot(cfg, db.parts[p], number[p]) && HoldsGroupSlot(cfg, db.parts[q], number[q]);
    }
    AtMost(number, cfg.shardConcurrency.value);
    assert number.Keys == LanesOf(db, group);
  }

  /**
   * In every reachable state at most `maxParallel` partitions are leased, on distinct slots below
   * it; under sharded claims at most `shardConcurrency` per group, those without a group together.
   */
  lemma LaneCapsHold(cfg: Config, steps: seq<Step>, group: Option<string>)
    requires Run(cfg, steps)
    ensures
      var db := After(cfg, EMPTY, steps);
      && |Lanes(db)| <= cfg.maxParallel
      && (forall p <- Lanes(db) :: db.parts[p].lease.value.slot < cfg.maxParallel)
      && (forall p, q | p in Lanes(db) && q in Lanes(db) && p != q ::
            db.parts[p].lease.value.slot != db.parts[q].lease.value.slot)
      && (cfg.shardConcurrency.Some? ==> |LanesOf(db, group)| <= cfg.shardConcurrency.value)
  {
    RunKeepsTheInv(cfg, EMPTY, steps);
    var db := After(cfg, EMPTY, steps);
    LanesAreCapped(cfg, db);
    if cfg.shardConcurrency.Some? {
      GroupsAreCapped(cfg, db, group);
    }
  }

  // ---- A full group

  /** Every slot of a group is held: what a claim finds before it rules the group out. */
  ghost predicate AllSlotsTaken(db: Db, group: Option<string>, n: nat) {
    forall k :: 0 <= k < n ==> GroupSlotTaken(db.parts, GroupSlot(group, k))
  }

  lemma GroupSlotIsInjective(g: Option<string>, k: nat, g': Option<string>, k': nat)
    requires g != Some("") && g' != Some("") && GroupSlot(g, k) == GroupSlot(g', k')
    ensures g == g' && k == k'
  {
    NumberedIsInjective(if g.Some? then g.value else "", '#', k, if g'.Some? then g'.value else "", k');
  }

  ghost predicate Used(number: map<nat, nat>, k: nat) {
    exists p :: p in number && number[p] == k
  }

  /** Different numbers below n are n of them exactly when every number below n is among them. */
  lemma {:induction false} AllNumbersUsed(number: map<nat, nat>, n: nat)
    requires forall p <- number :: number[p] < n
    requires forall p, q | p in number && q in number && p != q :: number[p] != number[q]
    ensures (forall k: nat :: k < n ==> Used(number, k)) <==> |number.Keys| == n
    decreases n
  {
    if n == 0 {
      AtMost(number, 0);
    } else if Used(number, n - 1) {
      var p :| p in number && number[p] == n - 1;
      var rest := number - {p};
      AllNumbersUsed(rest, n - 1);
      assert number.Keys == rest.Keys + {p};
      forall k: nat | k < n - 1 ensures Used(number, k) <==> Used(rest, k) {
        if q :| q in number && number[q] == k {
          assert q in rest && rest[q] == k;
        }
      }
    } else {
      AtMost(number, n - 1);
    }
  }

  ghost function NumberOf(cfg: Config, db: Db, group: Option<string>): map<nat, nat>
    requires SlotsInv(cfg, db) && cfg.shardConcurrency.Some?
  {
    map pid | pid in LanesOf(db, group) :: KOf(cfg, db, pid)
  }

  lemma TakenByItsOwn(cfg: Config, db: Db, group: Option<string>, k: nat)
    requires SlotsInv(cfg, db) && cfg.shardConcurrency.Some? && group != Some("")
    ensures GroupSlotTaken(db.parts, GroupSlot(group, k)) <==> Used(NumberOf(cfg, db, group), k)
  {
    var number := NumberOf(cfg, db, group);
    if GroupSlotTaken(db.parts, GroupSlot(group, k)) {
      var pid :| pid in db.parts && db.parts[pid].lease.Some? && db.parts[pid].lease.value.groupSlot == Some(GroupSlot(group, k));
      GroupSlotIsInjective(group, k, db.parts[pid].group, KOf(cfg, db, pid));
      assert pid in number && number[pid] == k;
    }
    if p :| p in number && number[p] == k {
      assert HoldsGroupSlot(cfg, db.parts[p], k);
    }
  }

  /** A group's slots are all taken exactly when its own lanes fill it — no other group's can. */
  lemma FullMeansFull(cfg: Config, db: Db, group: Option<string>)
    requires SlotsInv(cfg, db) && cfg.shardConcurrency.Some? && group != Some("")
    ensures AllSlotsTaken(db, group, cfg.shardConcurrency.value) <==>
            |LanesOf(db, group)| == cfg.shardConcurrency.value
  {
    var number := NumberOf(cfg, db, group);
    GroupsAreCapped(cfg, db, group);
    forall k: nat { TakenByItsOwn(cfg, db, group, k); }
    forall p, q | p in number && q in number && p != q ensures number[p] != number[q] {
      assert HoldsGroupSlot(cfg, db.parts[p], number[p]) && HoldsGroupSlot(cfg, db.parts[q], number[q]);
    }
    AllNumbersUsed(number, cfg.shardConcurrency.value);
    assert number.Keys == LanesOf(db, group);
  }
}
