/**
 * The partition documents of one background migration and every write the store makes to them
 * (src/core/background-store.js). Each write is one atomic step: a filter, an update, and for the
 * two unique indexes a refusal. `now` is the server's clock; `nextId` and `nextToken` stand for
 * ids that are never given out twice.
 */
module Store {
  import opened Wrappers
  import opened Text

  datatype Status = Pending | Running | Done | Failed | Cancelled | Superseded

  /** A lease is a lane's slot; under sharded claims it holds a slot of its group as well. */
  datatype Lease = Lease(slot: nat, groupSlot: Option<string>, token: nat, ttl: nat, renewedAt: int)

  type Counters = map<string, nat>

  datatype Partition = Partition(
    generation: nat, plan: nat, order: nat, group: Option<string>, status: Status, lease: Option<Lease>,
    cursor: nat, counters: Counters, badIds: seq<nat>, failures: nat, claims: nat, reclaims: nat)

  datatype Db = Db(now: int, parts: map<nat, Partition>, nextId: nat, nextToken: nat)

  // ---- Filters

  predicate Open(part: Partition) {
    part.status == Pending || part.status == Running
  }

  predicate OfPlan(part: Partition, generation: nat, plan: nat) {
    part.generation == generation && part.plan == plan
  }

  predicate Claimable(part: Partition, generation: nat, plan: nat) {
    OfPlan(part, generation, plan) && Open(part) && part.lease.None?
  }

  /** `lease.token`: the fence every lane's write goes through. */
  predicate HeldBy(part: Partition, token: nat) {
    part.lease.Some? && part.lease.value.token == token
  }

  predicate Expired(part: Partition, now: int) {
    part.lease.Some? && part.lease.value.renewedAt < now - part.lease.value.ttl
  }

  /** A failed slice counts while its lane still holds the lease, or nobody does any more. */
  predicate MayFail(part: Partition, token: nat) {
    Open(part) && (part.lease.None? || HeldBy(part, token))
  }

  // ---- Counters

  function Get(counters: Counters, key: string): nat {
    if key in counters then counters[key] else 0
  }

  function Plus(counters: Counters, more: Counters): (sum: Counters)
    ensures forall key :: Get(sum, key) == Get(counters, key) + Get(more, key)
  {
    map key | key in counters.Keys + more.Keys :: Get(counters, key) + Get(more, key)
  }

  // ---- Bad ids

  /** What a partition, and the state, keep of the failed documents' ids. */
  const MAX_BAD_IDS := 1000

  predicate NoneTwice(ids: seq<nat>) {
    forall i, j | 0 <= i < j < |ids| :: ids[i] != ids[j]
  }

  function SetOf(ids: seq<nat>): set<nat> {
    set id | id in ids
  }

  /** Each id once, where it comes first. */
  function Once(ids: seq<nat>): (once: seq<nat>)
    ensures NoneTwice(once) && SetOf(once) == SetOf(ids) && |once| == |SetOf(ids)|
    ensures forall id :: id in once <==> id in ids
  {
    if ids == [] then []
    else
      var before, last := Once(ids[..|ids| - 1]), ids[|ids| - 1];
      assert ids == ids[..|ids| - 1] + [last];
      assert SetOf(ids) == SetOf(ids[..|ids| - 1]) + {last};
      if last in before then
        assert last in SetOf(before);
        before
      else
        assert last !in SetOf(before) && SetOf(before + [last]) == SetOf(before) + {last};
        before + [last]
  }

  /** As many of the ids of both lists as one may hold: all of them, if they are no more than that. */
  function Recorded(ids: seq<nat>, more: seq<nat>): (kept: seq<nat>)
    ensures NoneTwice(kept) && forall id <- kept :: id in ids || id in more
    ensures |kept| == Least(|SetOf(ids + more)|, MAX_BAD_IDS + 1)
    ensures |SetOf(ids + more)| <= MAX_BAD_IDS + 1 ==> SetOf(kept) == SetOf(ids + more)
  {
    var all := Once(ids + more);
    assert forall id <- all :: id in ids + more;
    if |all| > MAX_BAD_IDS + 1 then
      var kept := all[..MAX_BAD_IDS + 1];
      assert forall i | 0 <= i < |kept| :: kept[i] == all[i] && all[i] in ids + more;
      kept
    else all
  }

  function Least(a: nat, b: nat): nat { if a < b then a else b }

  // ---- Leases

  /** A group's k-th slot; partitions without a group share one set of slots. */
  function GroupSlot(group: Option<string>, k: nat): string {
    (if group.Some? then group.value else "") + ['#'] + Dec(k)
  }

  predicate SlotTaken(parts: map<nat, Partition>, slot: nat) {
    exists pid :: pid in parts && parts[pid].lease.Some? && parts[pid].lease.value.slot == slot
  }

  predicate GroupSlotTaken(parts: map<nat, Partition>, groupSlot: string) {
    exists pid :: pid in parts && parts[pid].lease.Some? && parts[pid].lease.value.groupSlot == Some(groupSlot)
  }

  function Claimed(db: Db, part: Partition, slot: nat, groupSlot: Option<string>, ttl: nat): Partition {
    part.(lease := Some(Lease(slot, groupSlot, db.nextToken, ttl, db.now)), status := Running, claims := part.claims + 1)
  }

  /** The unique indexes let the write of this lease through. */
  predicate SlotsFree(parts: map<nat, Partition>, slot: nat, groupSlot: Option<string>) {
    !SlotTaken(parts, slot) && (groupSlot.Some? ==> !GroupSlotTaken(parts, groupSlot.value))
  }

  function ClaimWrite(db: Db, pid: nat, generation: nat, plan: nat, slot: nat, groupSlot: Option<string>, ttl: nat): Db {
    if pid in db.parts && Claimable(db.parts[pid], generation, plan) && SlotsFree(db.parts, slot, groupSlot)
    then db.(parts := db.parts[pid := Claimed(db, db.parts[pid], slot, groupSlot, ttl)], nextToken := db.nextToken + 1)
    else db
  }

  function Reap(db: Db): Db {
    db.(parts := map pid | pid in db.parts ::
          if Expired(db.parts[pid], db.now)
          then db.parts[pid].(lease := None, reclaims := db.parts[pid].reclaims + 1) else db.parts[pid])
  }

  function UnlockAll(db: Db): Db {
    db.(parts := map pid | pid in db.parts :: db.parts[pid].(lease := None))
  }

  function Update(db: Db, pid: nat, part: Partition): Db {
    db.(parts := db.parts[pid := part])
  }

  function Renew(db: Db, pid: nat, token: nat): Db {
    if pid in db.parts && HeldBy(db.parts[pid], token)
    then Update(db, pid, db.parts[pid].(lease := Some(db.parts[pid].lease.value.(renewedAt := db.now)))) else db
  }

  function Release(db: Db, pid: nat, token: nat): Db {
    if pid in db.parts && HeldBy(db.parts[pid], token)
    then Update(db, pid, db.parts[pid].(lease := None)) else db
  }

  /** What a lane's batch leaves on its partition. */
  datatype Progress = Progress(cursor: Option<nat>, counters: Counters, badIds: seq<nat>, done: bool)

  predicate Lands(db: Db, pid: nat, token: nat) {
    pid in db.parts && HeldBy(db.parts[pid], token) && db.parts[pid].status == Running
  }

  function Checkpointed(part: Partition, now: int, progress: Progress): Partition
    requires part.lease.Some?
  {
    part.(cursor := if progress.cursor.Some? then progress.cursor.value else part.cursor,
          counters := Plus(part.counters, progress.counters),
          badIds := if progress.badIds == [] then part.badIds else Recorded(part.badIds, progress.badIds),
          failures := 0,
          status := if progress.done then Done else part.status,
          lease := if progress.done then None else Some(part.lease.value.(renewedAt := now)))
  }

  /** The fenced checkpoint: it lands for the holder of the lease, on a partition still running. */
  function Checkpoint(db: Db, pid: nat, token: nat, progress: Progress): Db {
    if Lands(db, pid, token) then Update(db, pid, Checkpointed(db.parts[pid], db.now, progress)) else db
  }

  function FailSlice(db: Db, pid: nat, token: nat, maxFailures: nat): Db {
    if pid in db.parts && MayFail(db.parts[pid], token) then
      var part := db.parts[pid];
      Update(db, pid, part.(failures := part.failures + 1, lease := None,
                            status := if part.failures + 1 >= maxFailures then Failed else part.status))
    else db
  }

  function FailPartition(db: Db, pid: nat, token: nat): Db {
    if pid in db.parts && MayFail(db.parts[pid], token)
    then Update(db, pid, db.parts[pid].(status := Failed, lease := None)) else db
  }

  // ---- Plans

  function Planned(db: Db, generation: nat, plan: nat, groups: seq<Option<string>>, pid: nat): Partition
    requires db.nextId <= pid < db.nextId + |groups|
  {
    var order := pid - db.nextId;
    Partition(generation, plan, order, groups[order], Pending, None, 0, map[], [], 0, 0, 0)
  }

  function Insert(db: Db, generation: nat, plan: nat, groups: seq<Option<string>>): Db {
    db.(parts := db.parts + map pid: nat | db.nextId <= pid < db.nextId + |groups| ::
                   Planned(db, generation, plan, groups, pid),
        nextId := db.nextId + |groups|)
  }

  function SetStatus(db: Db, generation: nat, plan: nat, from: set<Status>, to: Status): Db {
    db.(parts := map pid | pid in db.parts ::
          if OfPlan(db.parts[pid], generation, plan) && db.parts[pid].status in from
          then db.parts[pid].(status := to, failures := if to == Pending then 0 else db.parts[pid].failures)
          else db.parts[pid])
  }

  function Supersede(db: Db, generation: nat, plan: nat): Db {
    SetStatus(db, generation, plan, {Pending, Running}, Superseded)
  }

  function CancelOpen(db: Db, generation: nat, plan: nat): Db {
    SetStatus(db, generation, plan, {Pending, Running}, Cancelled)
  }

  /** A retry of a pass that has not closed: its failed and cancelled partitions are pending again. */
  function Reopen(db: Db, generation: nat, plan: nat): Db {
    SetStatus(db, generation, plan, {Failed, Cancelled}, Pending)
  }

  function DropGenerations(db: Db, upTo: int): Db {
    db.(parts := map pid | pid in db.parts && db.parts[pid].generation > upTo :: db.parts[pid])
  }

  predicate Foreign(part: Partition, plan: nat) {
    part.plan != plan && (Open(part) || part.status == Superseded)
  }

  /** Drops what a lost commit race left: every open or superseded partition of another plan. */
  function DropForeignPlans(db: Db, plan: nat): Db {
    db.(parts := map pid | pid in db.parts && !Foreign(db.parts[pid], plan) :: db.parts[pid])
  }

  function DropPlan(db: Db, plan: nat): Db {
    db.(parts := map pid | pid in db.parts && db.parts[pid].plan != plan :: db.parts[pid])
  }

  // ---- Every write as a step

  datatype Step =
    | Tick(dt: nat)
    | ClaimStep(pid: nat, generation: nat, plan: nat, slot: nat, k: nat, ttl: nat)
    | RenewStep(pid: nat, token: nat)
    | ReleaseStep(pid: nat, token: nat)
    | CheckpointStep(pid: nat, token: nat, progress: Progress)
    | FailSliceStep(pid: nat, token: nat, maxFailures: nat)
    | FailPartitionStep(pid: nat, token: nat)
    | ReapStep
    | UnlockStep
    | InsertStep(generation: nat, plan: nat, groups: seq<Option<string>>)
    | SupersedeStep(generation: nat, plan: nat)
    | CancelStep(generation: nat, plan: nat)
    | ReopenStep(generation: nat, plan: nat)
    | DropGenerationsStep(upTo: int)
    | DropForeignStep(plan: nat)
    | DropPlanStep(plan: nat)

  /** `shardConcurrency` is set where the claims are sharded. */
  datatype Config = Config(maxParallel: nat, shardConcurrency: Option<nat>)

  function GroupSlotFor(cfg: Config, db: Db, pid: nat, k: nat): Option<string> {
    if cfg.shardConcurrency.Some? && pid in db.parts then Some(GroupSlot(db.parts[pid].group, k)) else None
  }

  /** A claim only ever asks for a slot below `maxParallel` (and, sharded, below `shardConcurrency`). */
  predicate AsksForASlot(cfg: Config, slot: nat, k: nat) {
    slot < cfg.maxParallel && (cfg.shardConcurrency.Some? ==> k < cfg.shardConcurrency.value)
  }

  /** A shard has a name. */
  predicate Permitted(cfg: Config, step: Step) {
    && (step.ClaimStep? ==> AsksForASlot(cfg, step.slot, step.k))
    && (step.InsertStep? ==> Some("") !in step.groups)
  }

  function Apply(cfg: Config, db: Db, step: Step): Db {
    match step
    case Tick(dt) => db.(now := db.now + dt)
    case ClaimStep(pid, generation, plan, slot, k, ttl) =>
      ClaimWrite(db, pid, generation, plan, slot, GroupSlotFor(cfg, db, pid, k), ttl)
    case RenewStep(pid, token) => Renew(db, pid, token)
    case ReleaseStep(pid, token) => Release(db, pid, token)
    case CheckpointStep(pid, token, progress) => Checkpoint(db, pid, token, progress)
    case FailSliceStep(pid, token, maxFailures) => FailSlice(db, pid, token, maxFailures)
    case FailPartitionStep(pid, token) => FailPartition(db, pid, token)
    case ReapStep => Reap(db)
    case UnlockStep => UnlockAll(db)
    case InsertStep(generation, plan, groups) => Insert(db, generation, plan, groups)
    case SupersedeStep(generation, plan) => Supersede(db, generation, plan)
    case CancelStep(generation, plan) => CancelOpen(db, generation, plan)
    case ReopenStep(generation, plan) => Reopen(db, generation, plan)
    case DropGenerationsStep(upTo) => DropGenerations(db, upTo)
    case DropForeignStep(plan) => DropForeignPlans(db, plan)
    case DropPlanStep(plan) => DropPlan(db, plan)
  }

  ghost predicate Run(cfg: Config, steps: seq<Step>) {
    forall step <- steps :: Permitted(cfg, step)
  }

  function After(cfg: Config, db: Db, steps: seq<Step>): Db
    decreases |steps|
  {
    if steps == [] then db else After(cfg, Apply(cfg, db, steps[0]), steps[1..])
  }

  const EMPTY := Db(0, map[], 0, 0)
}
