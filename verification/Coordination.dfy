/**
 * Any number of coordinators and lanes driving one background migration (src/core/background.js
 * over src/core/background-store.js). Every store call is a step of its own; a coordinator keeps
 * what it read in between, may be as stale as it likes — its lock may be lost — and may crash.
 *
 * A cancel is two: the state, then — at any later time — the open partitions of the plan it was read
 * with. Left to the controls: a retry is one step, taken while no coordinator is between finding a pass
 * drained and rolling it up. A replan and a retry from the start are not part of the machine.
 */
module Coordination {
  import opened Wrappers
  import opened Totals
  import S = Store

  datatype Status = Pending | Running | Paused | Completed | Failed | Cancelled

  datatype Phase = Partitioning | Processing

  datatype StateDoc = StateDoc(
    status: Status, phase: Phase, generation: nat, plan: Option<nat>, pass: nat, rolled: nat,
    totals: S.Counters, badIds: seq<nat>, failedPartitions: nat)

  /** Where a coordinator is: the plan it inserted, or how far it is in closing generation `gen`. */
  datatype Pc =
    | Loaded
    | Inserted(token: nat)
    | Committed
    | Lost(token: nat)
    | Drained
    | Summed(sum: S.Counters, badIds: seq<nat>, failed: nat)
    | RolledUp
    | Counted(zero: bool)
    | Closing

  datatype Coord = Coord(st: StateDoc, gen: nat, pc: Pc)

  /**
   * `plans` (the plan committed for each generation), `origin` (the one insert each plan token
   * comes from), `landed` and `reported` (the counters and failed documents of every checkpoint that
   * landed), `retried`, `failedAt` (the failed partitions each roll-up saw), `zeroCounted` (the passes
   * whose final count was zero) and `completed` (the pass whose coordinator completed the state) are
   * history.
   */
  datatype System = System(
    state: StateDoc, db: S.Db, matching: set<nat>, coords: map<nat, Coord>, nextPlan: nat,
    plans: map<nat, nat>, origin: map<nat, Origin>, landed: S.Counters, reported: set<nat>, retried: bool,
    failedAt: map<nat, nat>, zeroCounted: set<nat>, completed: Option<nat>)

  datatype Origin = Origin(generation: nat, first: nat, count: nat)

  datatype Config = Config(store: S.Config, maxPasses: nat)

  datatype Step =
    | Lane(step: S.Step)
    | FailState
    | Writes(matching: set<nat>)
    | Load(c: nat)
    | InsertPlan(c: nat, groups: seq<Option<string>>)
    | CommitPlan(c: nat)
    | DropLost(c: nat)
    | DropForeign(c: nat)
    | Start
    | FindDrained(c: nat)
    | AlreadyRolledUp(c: nat)
    | SumTotals(c: nat)
    | RollUp(c: nat)
    | GiveUp(c: nat)
    | CountLeft(c: nat)
    | Complete(c: nat)
    | NextPass(c: nat)
    | DropOld(c: nat)
    | Crash(c: nat)
    | Pause
    | Resume
    | Cancel
    | CancelPlan(generation: nat)
    | Retry

  predicate Live(status: Status) {
    status == Pending || status == Running
  }

  predicate IsCommitted(s: System, part: S.Partition) {
    part.generation in s.plans && s.plans[part.generation] == part.plan
  }

  /** A lane claims from a plan it read in the state at some time, and fails only what it claimed. */
  predicate LaneStep(s: System, step: S.Step) {
    match step
    case Tick(_) => true
    case ClaimStep(_, generation, plan, _, _, _) => generation in s.plans && s.plans[generation] == plan
    case RenewStep(_, _) => true
    case ReleaseStep(_, _) => true
    case CheckpointStep(_, _, _) => true
    case FailSliceStep(pid, _, _) => pid in s.db.parts ==> IsCommitted(s, s.db.parts[pid])
    case FailPartitionStep(pid, _) => pid in s.db.parts ==> IsCommitted(s, s.db.parts[pid])
    case ReapStep => true
    case UnlockStep => true
    case _ => false
  }

  /** No partition of a plan is open: neither pending nor running. */
  predicate NoneOpen(db: S.Db, generation: nat, plan: nat) {
    forall pid <- db.parts :: S.OfPlan(db.parts[pid], generation, plan) ==> !S.Open(db.parts[pid])
  }

  /** Between finding the current pass drained and rolling it up. */
  predicate Closes(s: System, c: nat) {
    c in s.coords && (s.coords[c].pc.Drained? || s.coords[c].pc.Summed?) && s.coords[c].gen == s.state.generation
  }

  predicate ClosedPass(st: StateDoc) {
    st.plan.Some? && st.rolled >= st.generation
  }

  ghost predicate Enabled(cfg: Config, s: System, step: Step) {
    match step
    case Lane(step) => LaneStep(s, step)
    case FailState => true
    case Writes(_) => true
    case Load(_) => Live(s.state.status)
    case InsertPlan(c, _) =>
      c in s.coords && s.coords[c].pc.Loaded? && (s.coords[c].st.phase != Processing || s.coords[c].st.plan.None?)
    case CommitPlan(c) => c in s.coords && s.coords[c].pc.Inserted?
    case DropLost(c) => c in s.coords && s.coords[c].pc.Lost?
    case DropForeign(c) => c in s.coords && s.coords[c].pc.Committed?
    case Start => true
    case FindDrained(c) =>
      && c in s.coords && s.coords[c].pc.Loaded?
      && s.coords[c].st.phase == Processing && s.coords[c].st.plan.Some?
      && NoneOpen(s.db, s.coords[c].st.generation, s.coords[c].st.plan.value)
    case AlreadyRolledUp(c) => c in s.coords && s.coords[c].pc.Drained? && s.coords[c].st.rolled >= s.coords[c].gen
    case SumTotals(c) => c in s.coords && s.coords[c].pc.Drained? && s.coords[c].st.rolled < s.coords[c].gen
    case RollUp(c) => c in s.coords && s.coords[c].pc.Summed?
    case GiveUp(c) =>
      && c in s.coords
      && ((s.coords[c].pc.RolledUp? && s.coords[c].st.failedPartitions > 0)
          || (s.coords[c].pc == Counted(false) && s.coords[c].st.pass >= cfg.maxPasses))
    case CountLeft(c) => c in s.coords && s.coords[c].pc.RolledUp? && s.coords[c].st.failedPartitions == 0
    case Complete(c) => c in s.coords && s.coords[c].pc == Counted(true)
    case NextPass(c) => c in s.coords && s.coords[c].pc == Counted(false) && s.coords[c].st.pass < cfg.maxPasses
    case DropOld(c) => c in s.coords && s.coords[c].pc.Closing?
    case Crash(c) => c in s.coords
    case Pause => Live(s.state.status)
    case Resume => s.state.status == Paused
    case Cancel => Live(s.state.status) || s.state.status == Paused
    case CancelPlan(generation) => generation in s.plans
    case Retry =>
      && (s.state.status == Failed || s.state.status == Cancelled)
      && (ClosedPass(s.state) || forall c <- s.coords :: !Closes(s, c))
  }

  function With(s: System, c: nat, coord: Coord): System {
    s.(coords := s.coords[c := coord])
  }

  function Fail(st: StateDoc): StateDoc {
    if Live(st.status) then st.(status := Failed) else st
  }

  function NextLane(cfg: Config, s: System, step: S.Step): System {
    var db := S.Apply(cfg.store, s.db, step);
    if step.CheckpointStep? && S.Lands(s.db, step.pid, step.token)
    then s.(db := db, landed := S.Plus(s.landed, step.progress.counters),
            reported := s.reported + set id | id in step.progress.badIds)
    else s.(db := db)
  }

  /** The plan is inserted first, under a token of its own; nothing can claim it yet. */
  function NextInsert(s: System, c: nat, groups: seq<Option<string>>): System
    requires c in s.coords
  {
    var me := s.coords[c];
    s.(db := S.Insert(s.db, me.st.generation + 1, s.nextPlan, groups),
       nextPlan := s.nextPlan + 1,
       origin := s.origin[s.nextPlan := Origin(me.st.generation + 1, s.db.nextId, |groups|)],
       coords := s.coords[c := me.(pc := Inserted(s.nextPlan))])
  }

  /** Then one compare-and-set on the generation and the plan it was planned against. */
  function NextCommit(s: System, c: nat): System
    requires c in s.coords && s.coords[c].pc.Inserted?
  {
    var me := s.coords[c];
    if s.state.generation == me.st.generation && s.state.plan == me.st.plan && Live(s.state.status) then
      var st := s.state.(generation := me.st.generation + 1, plan := Some(me.pc.token),
                         phase := Processing, pass := me.st.pass + 1);
      s.(state := st, plans := s.plans[st.generation := me.pc.token],
         coords := s.coords[c := Coord(st, me.gen, Committed)])
    else With(s, c, me.(pc := Lost(me.pc.token)))
  }

  function FailedOf(s: System, gen: nat): nat {
    |set pid | pid in s.db.parts && s.db.parts[pid].generation == gen && s.db.parts[pid].status == S.Status.Failed|
  }

  /** The bad ids of a generation's partitions, one list after the other. */
  function BadIdsOf(parts: map<nat, S.Partition>, n: nat, gen: nat): seq<nat> {
    if n == 0 then []
    else
      var before := BadIdsOf(parts, n - 1, gen);
      if n - 1 in parts && parts[n - 1].generation == gen then before + parts[n - 1].badIds else before
  }

  /** What a coordinator reads of a generation before it rolls it up. */
  function SumOf(s: System, gen: nat): (pc: Pc)
    ensures pc.Summed?
  {
    Summed(TotalsOf(s.db.parts, s.db.nextId, Exactly(gen)), BadIdsOf(s.db.parts, s.db.nextId, gen), FailedOf(s, gen))
  }

  /** The roll-up: once per generation, by `rolledGeneration`. Its bad ids join those of its copy of the state. */
  function NextRollUp(s: System, c: nat): System
    requires c in s.coords && s.coords[c].pc.Summed?
  {
    var me := s.coords[c];
    var st := if s.state.rolled < me.gen
              then s.state.(rolled := me.gen, totals := S.Plus(s.state.totals, me.pc.sum),
                            badIds := S.Recorded(me.st.badIds, me.pc.badIds),
                            failedPartitions := if me.pc.failed > 0 then me.pc.failed else s.state.failedPartitions)
              else s.state;
    s.(state := st, coords := s.coords[c := me.(st := st, pc := RolledUp)],
       failedAt := if s.state.rolled < me.gen then s.failedAt[me.gen := me.pc.failed] else s.failedAt)
  }

  /** The count of what still matches, but for the bad ids. */
  function NextCountLeft(s: System, c: nat): System
    requires c in s.coords
  {
    var zero := forall id <- s.matching :: id in s.coords[c].st.badIds;
    s.(zeroCounted := if zero then s.zeroCounted + {s.coords[c].gen} else s.zeroCounted,
       coords := s.coords[c := s.coords[c].(pc := Counted(zero))])
  }

  function NextComplete(s: System, c: nat): System
    requires c in s.coords
  {
    var live := Live(s.state.status);
    s.(state := if live then s.state.(status := Completed, phase := Processing) else s.state,
       completed := if live then Some(s.coords[c].gen) else s.completed,
       coords := s.coords[c := s.coords[c].(pc := Closing)])
  }

  function NextNextPass(s: System, c: nat): System
    requires c in s.coords
  {
    var me := s.coords[c];
    var st := if s.state.generation == me.gen && s.state.phase == Processing
              then s.state.(phase := Partitioning) else s.state;
    s.(state := st, coords := s.coords[c := me.(st := st, pc := Closing)])
  }

  function NextDropLost(s: System, c: nat): System
    requires c in s.coords && s.coords[c].pc.Lost?
  {
    s.(db := S.DropPlan(s.db, s.coords[c].pc.token), coords := s.coords - {c})
  }

  function NextDropForeign(s: System, c: nat): System
    requires c in s.coords
  {
    s.(db := S.DropForeignPlans(s.db, s.coords[c].st.plan.GetOr(0)), coords := s.coords[c := s.coords[c].(pc := Loaded)])
  }

  function NextDropOld(s: System, c: nat): System
    requires c in s.coords
  {
    s.(db := S.DropGenerations(s.db, s.coords[c].gen - 1), coords := s.coords[c := s.coords[c].(pc := Loaded)])
  }

  function NextRetry(s: System): System {
    var closed := ClosedPass(s.state);
    s.(state := s.state.(status := Pending, failedPartitions := 0, phase := if closed then Partitioning else s.state.phase),
       db := if s.state.plan.Some? && !closed then S.Reopen(s.db, s.state.generation, s.state.plan.value) else s.db,
       retried := true)
  }

  /** After a cancel, the open partitions of the plan that was read before it. */
  function NextCancelPlan(s: System, generation: nat): System
    requires generation in s.plans
  {
    s.(db := S.CancelOpen(s.db, generation, s.plans[generation]))
  }

  ghost function Next(cfg: Config, s: System, step: Step): System
    requires Enabled(cfg, s, step)
  {
    match step
    case Lane(step) => NextLane(cfg, s, step)
    case FailState => s.(state := Fail(s.state))
    case Writes(matching) => s.(matching := matching)
    case Load(c) => With(s, c, Coord(s.state, 0, Loaded))
    case InsertPlan(c, groups) => NextInsert(s, c, groups)
    case CommitPlan(c) => NextCommit(s, c)
    case DropLost(c) => NextDropLost(s, c)
    case DropForeign(c) => NextDropForeign(s, c)
    case Start => if s.state.status == Pending then s.(state := s.state.(status := Running)) else s
    case FindDrained(c) => With(s, c, s.coords[c].(gen := s.coords[c].st.generation, pc := Drained))
    case AlreadyRolledUp(c) => With(s, c, s.coords[c].(pc := RolledUp))
    case SumTotals(c) =>
      var gen := s.coords[c].gen;
      With(s, c, s.coords[c].(pc := SumOf(s, gen)))
    case RollUp(c) => NextRollUp(s, c)
    case GiveUp(c) => s.(state := Fail(s.state), coords := s.coords - {c})
    case CountLeft(c) => NextCountLeft(s, c)
    case Complete(c) => NextComplete(s, c)
    case NextPass(c) => NextNextPass(s, c)
    case DropOld(c) => NextDropOld(s, c)
    case Crash(c) => s.(coords := s.coords - {c})
    case Pause => s.(state := s.state.(status := Paused))
    case Resume =>
      s.(state := s.state.(status := if s.state.plan.Some? && s.state.phase == Processing then Running else Pending))
    case Cancel => s.(state := s.state.(status := Cancelled))
    case CancelPlan(generation) => NextCancelPlan(s, generation)
    case Retry => NextRetry(s)
  }
}
