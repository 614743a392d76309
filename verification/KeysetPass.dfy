/**
 * One pass over a collection the application leaves alone (src/core/background-engine.js,
 * src/core/background-partition.js): lanes claim partitions, read batches after the keyset cursor,
 * rewrite or refuse each document, and checkpoint under their lease. A lane may crash anywhere and
 * be fenced off at any time; one that was fenced goes on writing until its checkpoint is refused.
 */
module KeysetPass {
  import opened Wrappers
  import S = Store

  const MAX_BAD_IDS := S.MAX_BAD_IDS

  datatype Scope = Scope(gte: Option<int>, lt: Option<int>)

  predicate InScope(scope: Scope, id: int) {
    && (scope.gte.Some? ==> scope.gte.value <= id)
    && (scope.lt.Some? ==> id < scope.lt.value)
  }

  /** The cursor: the last id read, or none yet. */
  predicate Beyond(cursor: Option<int>, id: int) {
    cursor.Some? ==> cursor.value < id
  }

  /** `ever` is history: every id a checkpoint of this partition reported as failed, kept or not. */
  datatype Partition = Partition(scope: Scope, cursor: Option<int>, done: bool, token: Option<nat>, bad: set<int>, ever: set<int>)

  /** A batch in flight: the ids read, whether there were fewer than asked for, and those not judged yet. */
  datatype Batch = Batch(ids: seq<int>, short: bool, todo: set<int>, failed: set<int>)

  datatype Lane = Lane(pid: nat, token: nat, cursor: Option<int>, batch: Option<Batch>)

  /** `prior` are the bad ids of earlier passes, which no batch of this one reads. */
  datatype State = State(matching: set<int>, prior: set<int>, parts: map<nat, Partition>, lanes: map<nat, Lane>, nextToken: nat)

  datatype Step =
    | Claim(lane: nat, pid: nat)
    | Fence(pid: nat)
    | Read(lane: nat, ids: seq<int>, limit: nat)
    | Rewrite(lane: nat, id: int)
    | Refuse(lane: nat, id: int)
    | Checkpoint(lane: nat, kept: set<int>)
    | Crash(lane: nat)

  /** What the batch query matches: still to rewrite, no bad id of an earlier pass, in the scope, past the cursor. */
  ghost predicate Queried(s: State, lane: Lane, id: int)
    requires lane.pid in s.parts
  {
    && id in s.matching && id !in s.prior
    && InScope(s.parts[lane.pid].scope, id) && Beyond(lane.cursor, id)
  }

  /** The first `limit` of them, in order. */
  ghost predicate IsBatch(s: State, lane: Lane, ids: seq<int>, limit: nat)
    requires lane.pid in s.parts
  {
    && |ids| <= limit && limit >= 1
    && (forall i, j :: 0 <= i < j < |ids| ==> ids[i] < ids[j])
    && (forall id <- ids :: Queried(s, lane, id))
    && (forall id :: Queried(s, lane, id) ==> id in ids || (|ids| == limit && ids[|ids| - 1] < id))
  }

  function MinSize(a: nat, b: nat): nat { if a < b then a else b }

  ghost predicate Enabled(s: State, step: Step) {
    match step
    case Claim(lane, pid) => pid in s.parts && !s.parts[pid].done && s.parts[pid].token.None?
    case Fence(pid) => pid in s.parts
    case Read(lane, ids, limit) =>
      lane in s.lanes && s.lanes[lane].batch.None? && s.lanes[lane].pid in s.parts && IsBatch(s, s.lanes[lane], ids, limit)
    case Rewrite(lane, id) => lane in s.lanes && s.lanes[lane].batch.Some? && id in s.lanes[lane].batch.value.todo
    case Refuse(lane, id) => lane in s.lanes && s.lanes[lane].batch.Some? && id in s.lanes[lane].batch.value.todo
    case Checkpoint(lane, kept) =>
      && lane in s.lanes && s.lanes[lane].batch.Some? && s.lanes[lane].batch.value.todo == {}
      && s.lanes[lane].pid in s.parts
      && var all := s.parts[s.lanes[lane].pid].bad + s.lanes[lane].batch.value.failed;
         kept <= all && |kept| == MinSize(|all|, MAX_BAD_IDS + 1)
    case Crash(lane) => lane in s.lanes
  }

  ghost predicate Holds(s: State, lane: Lane) {
    lane.pid in s.parts && s.parts[lane.pid].token == Some(lane.token) && !s.parts[lane.pid].done
  }

  ghost function Judged(lane: Lane, id: int, failed: bool): Lane
    requires lane.batch.Some?
  {
    var b := lane.batch.value;
    lane.(batch := Some(b.(todo := b.todo - {id}, failed := if failed then b.failed + {id} else b.failed)))
  }

  /** The fenced checkpoint: only the holder's lands; any other lane has lost its lease and stops. */
  ghost function Checkpointed(s: State, name: nat, kept: set<int>): State
    requires Enabled(s, Checkpoint(name, kept))
  {
    var lane := s.lanes[name];
    var part, batch := s.parts[lane.pid], lane.batch.value;
    if !Holds(s, lane) then s.(lanes := s.lanes - {name})
    else
      var cursor := if batch.ids == [] then lane.cursor else Some(batch.ids[|batch.ids| - 1]);
      var next := part.(cursor := if batch.short then part.cursor else cursor,
                        done := batch.short,
                        token := if batch.short then None else part.token,
                        bad := kept,
                        ever := part.ever + batch.failed);
      s.(parts := s.parts[lane.pid := next],
         lanes := if batch.short then s.lanes - {name} else s.lanes[name := lane.(cursor := cursor, batch := None)])
  }

  ghost function Next(s: State, step: Step): State
    requires Enabled(s, step)
  {
    match step
    case Claim(lane, pid) =>
      s.(parts := s.parts[pid := s.parts[pid].(token := Some(s.nextToken))],
         lanes := s.lanes[lane := Lane(pid, s.nextToken, s.parts[pid].cursor, None)],
         nextToken := s.nextToken + 1)
    case Fence(pid) => s.(parts := s.parts[pid := s.parts[pid].(token := None)])
    case Read(lane, ids, limit) =>
      s.(lanes := s.lanes[lane := s.lanes[lane].(batch := Some(Batch(ids, |ids| < limit, set id | id in ids, {})))])
    case Rewrite(lane, id) =>
      s.(matching := s.matching - {id}, lanes := s.lanes[lane := Judged(s.lanes[lane], id, false)])
    case Refuse(lane, id) => s.(lanes := s.lanes[lane := Judged(s.lanes[lane], id, true)])
    case Checkpoint(lane, kept) => Checkpointed(s, lane, kept)
    case Crash(lane) => s.(lanes := s.lanes - {lane})
  }

  // ---- What every step keeps

  predicate Passed(part: Partition, id: int) {
    part.done || (part.cursor.Some? && id <= part.cursor.value)
  }

  /** Behind the cursor, what still matches failed; and the list of bad ids is whole as long as it fits. */
  ghost predicate PartInv(s: State, part: Partition) {
    && (forall id <- s.matching :: InScope(part.scope, id) && Passed(part, id) && id !in s.prior ==> id in part.ever)
    && part.bad <= part.ever && (|part.ever| <= MAX_BAD_IDS + 1 ==> part.bad == part.ever)
  }

  /** What a lane's batch covers: everything queried up to its last id, or everything. */
  predicate Covered(batch: Batch, id: int) {
    batch.short || (batch.ids != [] && id <= batch.ids[|batch.ids| - 1])
  }

  ghost predicate BatchInv(s: State, lane: Lane, batch: Batch)
    requires lane.pid in s.parts
  {
    && (batch.short || batch.ids != [])
    && forall id :: Queried(s, lane, id) && Covered(batch, id) ==> id in batch.todo || id in batch.failed
  }

  ghost predicate LaneInv(s: State, lane: Lane) {
    && lane.pid in s.parts && lane.token < s.nextToken
    && (Holds(s, lane) ==> lane.cursor == s.parts[lane.pid].cursor)
    && (lane.batch.Some? ==> BatchInv(s, lane, lane.batch.value))
  }

  ghost predicate Inv(s: State) {
    && (forall pid <- s.parts :: PartInv(s, s.parts[pid]) && (s.parts[pid].token.Some? ==> s.parts[pid].token.value < s.nextToken))
    && (forall name <- s.lanes :: LaneInv(s, s.lanes[name]))
    && (forall a, b :: a in s.lanes && b in s.lanes && a != b ==> s.lanes[a].token != s.lanes[b].token)
  }

  lemma CheckpointKeepsPartInv(s: State, name: nat, kept: set<int>)
    requires Inv(s) && Enabled(s, Checkpoint(name, kept)) && Holds(s, s.lanes[name])
    ensures PartInv(s, Checkpointed(s, name, kept).parts[s.lanes[name].pid])
  {
    var lane := s.lanes[name];
    var part, batch := s.parts[lane.pid], lane.batch.value;
    var next := Checkpointed(s, name, kept).parts[lane.pid];
    assert PartInv(s, part) && LaneInv(s, lane);
    forall id | id in s.matching && InScope(next.scope, id) && Passed(next, id) && id !in s.prior ensures id in next.ever {
      if Beyond(part.cursor, id) {
        assert Queried(s, lane, id) && Covered(batch, id);
      }
    }
    if |next.ever| <= MAX_BAD_IDS + 1 {
      SubsetIsNoLarger(part.ever, next.ever);
      SubsetOfSameSize(kept, part.bad + batch.failed);
    }
  }

  /**
   * What a checkpoint leaves: the holder's partition is done exactly if its batch was the last, and else
   * goes on past the last id read; nobody else's checkpoint touches it.
   */
  lemma WhatACheckpointLeaves(s: State, name: nat, kept: set<int>)
    requires Inv(s) && Enabled(s, Checkpoint(name, kept))
    ensures
      var lane := s.lanes[name];
      var was, now := s.parts[lane.pid], Next(s, Checkpoint(name, kept)).parts[lane.pid];
      if Holds(s, lane) then
        && (now.done <==> lane.batch.value.short) && now.bad == kept && now.ever == was.ever + lane.batch.value.failed
        && (now.done ==> now.token.None?)
        && (!now.done ==> now.token == was.token && now.cursor == Some(lane.batch.value.ids[|lane.batch.value.ids| - 1]))
      else now == was
  {
    assert LaneInv(s, s.lanes[name]);
  }

  lemma SubsetIsNoLarger(a: set<int>, b: set<int>)
    requires a <= b
    ensures |a| <= |b|
  {
    assert b == a + (b - a);
  }

  lemma SubsetOfSameSize(a: set<int>, b: set<int>)
    requires a <= b && |a| == |b|
    ensures a == b
  {
    assert b == a + (b - a);
  }

  lemma StepKeepsInv(s: State, step: Step)
    requires Inv(s) && Enabled(s, step)
    ensures Inv(Next(s, step))
  {
    var s' := Next(s, step);
    if step.Checkpoint? && Holds(s, s.lanes[step.lane]) {
      CheckpointKeepsPartInv(s, step.lane, step.kept);
    }
    forall pid | pid in s'.parts ensures PartInv(s', s'.parts[pid]) {
      assert PartInv(s, s.parts[pid]);
    }
    forall name | name in s'.lanes ensures LaneInv(s', s'.lanes[name]) {
      LaneInvIsKept(s, step, name);
    }
  }

  /** A lane that is not the one to step keeps what it knows: the match only shrinks, its partition moves on. */
  lemma BystanderKeepsInv(s: State, s': State, lane: Lane)
    requires LaneInv(s, lane) && s'.matching <= s.matching && s'.prior == s.prior && s'.nextToken >= s.nextToken
    requires lane.pid in s'.parts && s'.parts[lane.pid].scope == s.parts[lane.pid].scope
    requires Holds(s', lane) ==> Holds(s, lane) && s'.parts[lane.pid].cursor == s.parts[lane.pid].cursor
    ensures LaneInv(s', lane)
  {
    if lane.batch.Some? {
      assert forall id :: Queried(s', lane, id) ==> Queried(s, lane, id);
    }
  }

  /** A lane that judged a document: it is rewritten, or on the list of those that failed. */
  lemma JudgedKeepsInv(s: State, lane: Lane, id: int, failed: bool)
    requires LaneInv(s, lane) && lane.batch.Some?
    ensures LaneInv(if failed then s else s.(matching := s.matching - {id}), Judged(lane, id, failed))
  {
    var s' := if failed then s else s.(matching := s.matching - {id});
    assert forall x :: Queried(s', Judged(lane, id, failed), x) ==> Queried(s, lane, x);
  }

  lemma CheckpointKeepsLanes(s: State, step: Step, name: nat)
    requires Inv(s) && Enabled(s, step) && step.Checkpoint? && name in Next(s, step).lanes
    ensures LaneInv(Next(s, step), Next(s, step).lanes[name])
  {
    assert LaneInv(s, s.lanes[name]) && LaneInv(s, s.lanes[step.lane]);
    if name != step.lane {
      BystanderKeepsInv(s, Next(s, step), s.lanes[name]);
    }
  }

  lemma ReadKeepsLanes(s: State, step: Step, name: nat)
    requires Inv(s) && Enabled(s, step) && (step.Read? || step.Claim?) && name in Next(s, step).lanes
    ensures LaneInv(Next(s, step), Next(s, step).lanes[name])
  {
    if name != step.lane {
      assert LaneInv(s, s.lanes[name]);
      BystanderKeepsInv(s, Next(s, step), s.lanes[name]);
    } else if step.Read? {
      assert LaneInv(s, s.lanes[name]);
    }
  }

  lemma LaneInvIsKept(s: State, step: Step, name: nat)
    requires Inv(s) && Enabled(s, step) && name in Next(s, step).lanes
    ensures LaneInv(Next(s, step), Next(s, step).lanes[name])
  {
    if step.Checkpoint? {
      CheckpointKeepsLanes(s, step, name);
    } else if step.Read? || step.Claim? {
      ReadKeepsLanes(s, step, name);
    } else if (step.Rewrite? || step.Refuse?) && name == step.lane {
      JudgedKeepsInv(s, s.lanes[name], step.id, step.Refuse?);
    } else {
      BystanderKeepsInv(s, Next(s, step), s.lanes[name]);
    }
  }

  // ---- A whole pass

  /** The start of a pass: every partition of the plan untouched, no lane at work. */
  ghost predicate Planned(s: State) {
    && s.lanes.Keys == {} && |s.prior| <= MAX_BAD_IDS + 1
    && forall pid <- s.parts :: s.parts[pid] == Partition(s.parts[pid].scope, None, false, None, {}, {})
  }

  ghost predicate Run(s: State, steps: seq<Step>)
    decreases |steps|
  {
    steps == [] || (Enabled(s, steps[0]) && Run(Next(s, steps[0]), steps[1..]))
  }

  ghost function After(s: State, steps: seq<Step>): State
    requires Run(s, steps)
    decreases |steps|
  {
    if steps == [] then s else After(Next(s, steps[0]), steps[1..])
  }

  ghost predicate SamePlan(s: State, s': State) {
    && s'.matching <= s.matching && s'.prior == s.prior
    && s'.parts.Keys == s.parts.Keys
    && forall pid <- s.parts :: s'.parts[pid].scope == s.parts[pid].scope
  }

  lemma {:induction false} RunKeepsInv(s: State, steps: seq<Step>)
    requires Inv(s) && Run(s, steps)
    ensures Inv(After(s, steps)) && SamePlan(s, After(s, steps))
    decreases |steps|
  {
    if steps != [] {
      StepKeepsInv(s, steps[0]);
      assert SamePlan(s, Next(s, steps[0]));
      RunKeepsInv(Next(s, steps[0]), steps[1..]);
    }
  }

  // ---- Earlier failures are left alone

  /** No lane has a bad id of an earlier pass before it. */
  ghost predicate PriorUnread(s: State) {
    forall name <- s.lanes :: s.lanes[name].batch.Some? ==>
      s.lanes[name].batch.value.todo !! s.prior && s.lanes[name].batch.value.failed !! s.prior
  }

  lemma StepLeavesPrior(s: State, step: Step)
    requires Enabled(s, step) && PriorUnread(s)
    ensures PriorUnread(Next(s, step)) && Next(s, step).prior == s.prior
    ensures Next(s, step).matching * s.prior == s.matching * s.prior
    ensures (step.Rewrite? || step.Refuse?) ==> step.id !in s.prior
  {
    if step.Read? {
      var lane := Next(s, step).lanes[step.lane];
      forall id | id in lane.batch.value.todo ensures id !in s.prior {
        assert Queried(s, s.lanes[step.lane], id);
      }
    } else if step.Checkpoint? {
      assert Next(s, step) == Checkpointed(s, step.lane, step.kept);
    }
  }

  /** A document that failed in an earlier pass is neither rewritten nor judged again by this one. */
  lemma {:induction false} EarlierFailuresAreLeftAlone(s: State, steps: seq<Step>)
    requires PriorUnread(s) && Run(s, steps)
    ensures After(s, steps).matching * s.prior == s.matching * s.prior
    ensures forall step <- steps :: (step.Rewrite? || step.Refuse?) ==> step.id !in s.prior
    decreases |steps|
  {
    if steps != [] {
      StepLeavesPrior(s, steps[0]);
      EarlierFailuresAreLeftAlone(Next(s, steps[0]), steps[1..]);
    }
  }

  /** The plan covers what its batches are to read. */
  ghost predicate Covers(s: State) {
    forall id <- s.matching - s.prior :: exists pid :: pid in s.parts && InScope(s.parts[pid].scope, id)
  }

  predicate JudgesRightly(r: set<int>, step: Step) {
    (step.Refuse? ==> step.id in r) && (step.Rewrite? ==> step.id !in r)
  }

  /** The documents of r, and no others, cannot be rewritten: every lane that judges one finds so. */
  ghost predicate Judges(r: set<int>, steps: seq<Step>) {
    forall step <- steps :: JudgesRightly(r, step)
  }

  // ---- Who failed

  /** Nobody but documents of x was reported as failed, or is about to be. */
  ghost predicate FailedWithin(s: State, x: set<int>) {
    && (forall pid <- s.parts :: s.parts[pid].ever <= x)
    && (forall name <- s.lanes :: s.lanes[name].batch.Some? ==> s.lanes[name].batch.value.failed <= x)
  }

  ghost predicate RefusesOnly(x: set<int>, steps: seq<Step>) {
    forall step <- steps :: step.Refuse? ==> step.id in x
  }

  lemma StepFailsWithin(s: State, step: Step, x: set<int>)
    requires Enabled(s, step) && FailedWithin(s, x) && (step.Refuse? ==> step.id in x)
    ensures FailedWithin(Next(s, step), x)
  {
    var s' := Next(s, step);
    if step.Checkpoint? {
      assert s' == Checkpointed(s, step.lane, step.kept);
    }
  }

  lemma {:induction false} RunFailsWithin(s: State, steps: seq<Step>, x: set<int>)
    requires Run(s, steps) && FailedWithin(s, x) && RefusesOnly(x, steps)
    ensures FailedWithin(After(s, steps), x)
    decreases |steps|
  {
    if steps != [] {
      StepFailsWithin(s, steps[0], x);
      RunFailsWithin(Next(s, steps[0]), steps[1..], x);
    }
  }

  /** What a lane still has to judge matches, or was rewritten by another; so of r it judges what matched. */
  ghost predicate ToJudgeWithin(s: State, r: set<int>, bad: set<int>) {
    forall name <- s.lanes :: s.lanes[name].batch.Some? ==>
      forall id <- s.lanes[name].batch.value.todo :: id in r ==> id in bad
  }

  lemma StepLeavesWhatFails(s: State, step: Step, r: set<int>)
    requires Enabled(s, step) && JudgesRightly(r, step)
    ensures Next(s, step).matching * r == s.matching * r
  {
  }

  lemma StepKeepsToJudge(s: State, step: Step, r: set<int>, bad: set<int>)
    requires Enabled(s, step) && bad == s.matching * r && ToJudgeWithin(s, r, bad)
    ensures ToJudgeWithin(Next(s, step), r, bad)
  {
    if step.Read? {
      var lane := Next(s, step).lanes[step.lane];
      forall id | id in lane.batch.value.todo && id in r ensures id in bad {
        assert Queried(s, s.lanes[step.lane], id);
      }
    }
  }

  /** Documents of r that match go on matching, and no others are reported. */
  lemma {:induction false} RunKeepsToJudge(s: State, steps: seq<Step>, r: set<int>, bad: set<int>)
    requires Run(s, steps) && Judges(r, steps)
    requires bad == s.matching * r && FailedWithin(s, bad) && ToJudgeWithin(s, r, bad)
    ensures bad == After(s, steps).matching * r && FailedWithin(After(s, steps), bad)
    decreases |steps|
  {
    if steps != [] {
      assert JudgesRightly(r, steps[0]);
      StepLeavesWhatFails(s, steps[0], r);
      StepFailsWithin(s, steps[0], bad);
      StepKeepsToJudge(s, steps[0], r, bad);
      RunKeepsToJudge(Next(s, steps[0]), steps[1..], r, bad);
    }
  }

  // ---- What is recorded of them

  /** All the partitions' bad ids. */
  ghost function Failed(s: State): set<int> {
    set pid, id | pid in s.parts && id in s.parts[pid].bad :: id
  }

  /** What finalize keeps in the state: the earlier bad ids first, then of the new ones as many as fit. */
  ghost predicate Recorded(prior: set<int>, failed: set<int>, recorded: set<int>) {
    prior <= recorded <= prior + failed && |recorded| == MinSize(|prior + failed|, MAX_BAD_IDS + 1)
  }

  ghost predicate AllDone(s: State) {
    forall pid <- s.parts :: s.parts[pid].done
  }

  /** Once every partition of a covering plan is done, what still matches failed, now or in an earlier pass. */
  lemma WhatIsLeft(s0: State, steps: seq<Step>)
    requires Planned(s0) && Covers(s0) && Run(s0, steps) && AllDone(After(s0, steps))
    ensures
      var s := After(s0, steps);
      && Inv(s) && s.prior == s0.prior
      && forall id <- s.matching :: id in s0.prior || exists pid :: pid in s.parts && id in s.parts[pid].ever
  {
    var s := After(s0, steps);
    RunKeepsInv(s0, steps);
    forall id | id in s.matching && id !in s0.prior ensures exists pid :: pid in s.parts && id in s.parts[pid].ever {
      assert id in s0.matching - s0.prior;
      var pid :| pid in s0.parts && InScope(s0.parts[pid].scope, id);
      assert PartInv(s, s.parts[pid]);
    }
  }

  /** Few enough: no list is cut, so all of them are recorded. */
  lemma FewEnoughAreRecorded(s: State, x: set<int>, recorded: set<int>)
    requires Inv(s) && FailedWithin(s, x) && |s.prior + x| <= MAX_BAD_IDS + 1 && Recorded(s.prior, Failed(s), recorded)
    ensures forall pid, id | pid in s.parts && id in s.parts[pid].ever :: id in recorded
  {
    SubsetIsNoLarger(s.prior + Failed(s), s.prior + x);
    SubsetOfSameSize(recorded, s.prior + Failed(s));
    forall pid, id | pid in s.parts && id in s.parts[pid].ever ensures id in recorded {
      SubsetIsNoLarger(s.parts[pid].ever, s.prior + x);
      assert PartInv(s, s.parts[pid]);
      assert id in Failed(s);
    }
  }

  lemma AllRecorded(s: State, recorded: set<int>)
    requires forall id <- s.matching :: id in s.prior || exists pid :: pid in s.parts && id in s.parts[pid].ever
    requires s.prior <= recorded && forall pid, id | pid in s.parts && id in s.parts[pid].ever :: id in recorded
    ensures s.matching - recorded == {}
  {
    forall id | id in s.matching ensures id in recorded {
      if id !in s.prior {
        var pid :| pid in s.parts && id in s.parts[pid].ever;
      }
    }
  }

  lemma PlannedFailsNothing(s: State, x: set<int>)
    requires Planned(s)
    ensures Inv(s) && FailedWithin(s, x)
  {
  }

  /**
   * One pass drains a quiescent collection: once every partition of a covering plan is done, whatever
   * crashed, was replayed or was fenced off, no document matches outside the recorded bad ids — so
   * finalize counts zero — if the documents ever refused are, with the bad ids of earlier passes, no
   * more than are kept.
   */
  lemma OnePassDrains(s0: State, steps: seq<Step>, refused: set<int>, recorded: set<int>)
    requires Planned(s0) && Covers(s0) && Run(s0, steps) && AllDone(After(s0, steps))
    requires RefusesOnly(refused, steps) && |s0.prior + refused| <= MAX_BAD_IDS + 1
    requires Recorded(s0.prior, Failed(After(s0, steps)), recorded)
    ensures After(s0, steps).matching - recorded == {}
  {
    WhatIsLeft(s0, steps);
    PlannedFailsNothing(s0, refused);
    RunFailsWithin(s0, steps, refused);
    FewEnoughAreRecorded(After(s0, steps), refused, recorded);
    AllRecorded(After(s0, steps), recorded);
  }

  /**
   * And where whether a document can be rewritten is up to the document — r are those that cannot — it
   * drains exactly if those of r that matched are, with the bad ids of earlier passes, no more than
   * are kept. It is a condition on the collection the pass starts from.
   */
  lemma OnePassDrainsIff(s0: State, steps: seq<Step>, r: set<int>, recorded: set<int>)
    requires Planned(s0) && Covers(s0) && Run(s0, steps) && AllDone(After(s0, steps)) && Judges(r, steps)
    requires Recorded(s0.prior, Failed(After(s0, steps)), recorded)
    ensures After(s0, steps).matching - recorded == {} <==> |s0.prior + s0.matching * r| <= MAX_BAD_IDS + 1
  {
    var s, bad := After(s0, steps), s0.matching * r;
    WhatIsLeft(s0, steps);
    PlannedFailsNothing(s0, bad);
    RunKeepsToJudge(s0, steps, r, bad);
    if |s0.prior + bad| <= MAX_BAD_IDS + 1 {
      FewEnoughAreRecorded(s, bad, recorded);
      AllRecorded(s, recorded);
    }
    if s.matching - recorded == {} {
      forall id | id in s0.prior + bad ensures id in recorded {
        assert id in s.matching ==> id !in s.matching - recorded;
      }
      SubsetIsNoLarger(s0.prior + bad, recorded);
    }
  }
}
