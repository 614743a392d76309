/**
 * What planning a pass comes to (src/core/background.js:456-503, src/core/background-store.js:359-416): a
 * coordinator that nobody disturbs, and whose copy of the state is fresh, leaves the state on its plan,
 * the partitions of that plan untouched and in their order, and of the others only those that are closed.
 */
module PlanningPass {
  import opened Wrappers
  import opened Coordination
  import opened CoordinationInv
  import S = Store

  ghost predicate MayPlan(s: System, c: nat) {
    && c in s.coords && s.coords[c].pc.Loaded? && s.coords[c].st == s.state && s.state.phase == Partitioning
    && Live(s.state.status)
  }

  /** The k-th partition of a plan before anybody claimed it. */
  ghost predicate Untouched(part: S.Partition, generation: nat, plan: nat, k: nat, group: Option<string>) {
    && part.generation == generation && part.plan == plan && part.order == k && part.group == group
    && part.status == S.Status.Pending && part.lease.None? && part.failures == 0
    && part.cursor == 0 && part.counters == map[] && part.badIds == []
  }

  /** The state one generation further, on the plan. */
  function OnPlan(st: StateDoc, token: nat): StateDoc {
    st.(generation := st.generation + 1, plan := Some(token), phase := Processing, pass := st.pass + 1)
  }

  /** The partitions of the new plan, in order, after those there were. */
  ghost predicate HasThePlan(s: System, db: S.Db, groups: seq<Option<string>>) {
    && (forall pid <- db.parts :: pid < s.db.nextId + |groups|)
    && forall pid: nat | s.db.nextId <= pid < s.db.nextId + |groups| ::
         && pid in db.parts
         && var k := pid - s.db.nextId; Untouched(db.parts[pid], s.state.generation + 1, s.nextPlan, k, groups[k])
  }

  /** Of the partitions there were, those that are open may be gone; all others are as they were. */
  ghost predicate HasTheOld(s: System, db: S.Db, openToo: bool) {
    forall pid: nat | pid < s.db.nextId ::
      && (pid in db.parts <==> pid in s.db.parts && (openToo || !S.Open(s.db.parts[pid])))
      && (pid in db.parts ==> db.parts[pid] == s.db.parts[pid])
  }

  ghost predicate IsPlanned(s: System, s': System, groups: seq<Option<string>>) {
    s'.state == OnPlan(s.state, s.nextPlan) && HasThePlan(s, s'.db, groups) && HasTheOld(s, s'.db, false)
  }

  lemma Inserts(s: System, c: nat, groups: seq<Option<string>>)
    requires Inv(s) && MayPlan(s, c)
    ensures
      var s' := NextInsert(s, c, groups);
      && s'.state == s.state && c in s'.coords && s'.coords[c] == s.coords[c].(pc := Inserted(s.nextPlan))
      && HasThePlan(s, s'.db, groups) && HasTheOld(s, s'.db, true)
  {
    var s' := NextInsert(s, c, groups);
    forall pid | pid in s.db.parts ensures pid < s.db.nextId {
      assert PartInv(s, pid);
    }
    forall pid: nat | s.db.nextId <= pid < s.db.nextId + |groups|
      ensures pid in s'.db.parts
      ensures s'.db.parts[pid] == S.Planned(s.db, s.state.generation + 1, s.nextPlan, groups, pid)
    {
    }
  }

  lemma Commits(s: System, c: nat)
    requires c in s.coords && s.coords[c].pc.Inserted? && s.coords[c].st == s.state && Live(s.state.status)
    ensures
      var s' := NextCommit(s, c);
      && s'.state == OnPlan(s.state, s.coords[c].pc.token) && s'.db == s.db
      && c in s'.coords && s'.coords[c].pc.Committed? && s'.coords[c].st == s'.state
  {
  }

  lemma DropsTheOpen(s: System, db: S.Db, groups: seq<Option<string>>)
    requires HasThePlan(s, db, groups) && HasTheOld(s, db, true)
    requires forall pid <- s.db.parts :: s.db.parts[pid].plan != s.nextPlan && s.db.parts[pid].status != S.Status.Superseded
    ensures HasThePlan(s, S.DropForeignPlans(db, s.nextPlan), groups)
    ensures HasTheOld(s, S.DropForeignPlans(db, s.nextPlan), false)
  {
  }

  lemma CleansUp(s: System, s': System, c: nat, groups: seq<Option<string>>)
    requires Inv(s) && MayPlan(s, c) && c in s'.coords && s'.coords[c].pc.Committed? && s'.coords[c].st == s'.state
    requires s'.state == OnPlan(s.state, s.nextPlan) && s'.db == NextInsert(s, c, groups).db
    ensures IsPlanned(s, NextDropForeign(s', c), groups)
  {
    Inserts(s, c, groups);
    forall pid | pid in s.db.parts
      ensures s.db.parts[pid].plan != s.nextPlan && s.db.parts[pid].status != S.Status.Superseded
    {
      assert PartInv(s, pid);
    }
    DropsTheOpen(s, s'.db, groups);
  }

  /** Only these partitions are left, each as it was. */
  ghost predicate LeavesOnly(before: S.Db, db: S.Db, keeps: S.Partition -> bool) {
    && db == before.(parts := db.parts)
    && (forall pid :: pid in db.parts <==> pid in before.parts && keeps(before.parts[pid]))
    && forall pid <- db.parts :: pid in before.parts && db.parts[pid] == before.parts[pid]
  }

  predicate IsClosed(status: S.Status) {
    status == S.Status.Done || status == S.Status.Failed || status == S.Status.Cancelled
  }

  /** The clean-up after a commit drops, of every other plan, what is not closed, and no more. */
  lemma WhatACommitDrops(db: S.Db, plan: nat)
    ensures LeavesOnly(db, S.DropForeignPlans(db, plan), (part: S.Partition) => part.plan == plan || IsClosed(part.status))
  {
  }

  /** A plan marked for a replan is gone with the next commit, but for its partitions that are closed, each as it was. */
  lemma AReplacedPlanIsDropped(db: S.Db, generation: nat, replaced: nat, plan: nat)
    requires plan != replaced && forall pid <- db.parts :: db.parts[pid].plan == replaced ==> db.parts[pid].generation == generation
    ensures
      var after := S.DropForeignPlans(S.Supersede(db, generation, replaced), plan);
      forall pid <- db.parts :: db.parts[pid].plan == replaced ==>
        if IsClosed(db.parts[pid].status) then pid in after.parts && after.parts[pid] == db.parts[pid]
        else pid !in after.parts
  {
    WhatACommitDrops(S.Supersede(db, generation, replaced), plan);
  }

  /** A lost race drops the partitions of its own plan and no more. */
  lemma WhatALostRaceDrops(cfg: Config, s: System, c: nat)
    requires Enabled(cfg, s, DropLost(c))
    ensures
      var s' := Next(cfg, s, DropLost(c));
      && s' == s.(db := s'.db, coords := s.coords - {c})
      && LeavesOnly(s.db, s'.db, (part: S.Partition) => part.plan != s.coords[c].pc.token)
  {
    assert Next(cfg, s, DropLost(c)) == NextDropLost(s, c);
  }

  /** A closed pass drops those of the generations before it and no more. */
  lemma WhatAClosedPassDrops(cfg: Config, s: System, c: nat)
    requires Enabled(cfg, s, DropOld(c))
    ensures
      var s' := Next(cfg, s, DropOld(c));
      && s'.state == s.state && c in s'.coords && s'.coords[c].pc.Loaded?
      && LeavesOnly(s.db, s'.db, (part: S.Partition) => part.generation >= s.coords[c].gen)
  {
    assert Next(cfg, s, DropOld(c)) == NextDropOld(s, c);
  }

  /**
   * Planned undisturbed, the pass is the next one, on a plan of its own, with one untouched partition for
   * each given, in order; every open partition of another plan is gone, and every closed one is as it was.
   */
  lemma AnUndisturbedPlanIsCommitted(cfg: Config, s: System, c: nat, groups: seq<Option<string>>) returns (steps: seq<Step>)
    requires Inv(s) && MayPlan(s, c)
    ensures steps == [InsertPlan(c, groups), CommitPlan(c), DropForeign(c)] && Run(cfg, s, steps)
    ensures IsPlanned(s, After(cfg, s, steps), groups)
  {
    var s1, s2 := NextInsert(s, c, groups), NextCommit(NextInsert(s, c, groups), c);
    Inserts(s, c, groups);
    Commits(s1, c);
    RunOfTwo(cfg, s, InsertPlan(c, groups), CommitPlan(c));
    RunThen(cfg, s, [InsertPlan(c, groups), CommitPlan(c)], DropForeign(c));
    CleansUp(s, s2, c, groups);
    steps := [InsertPlan(c, groups), CommitPlan(c), DropForeign(c)];
    assert [InsertPlan(c, groups), CommitPlan(c)] + [DropForeign(c)] == steps;
  }
}
