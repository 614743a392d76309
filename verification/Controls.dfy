/**
 * What a lane does when a control or a newer plan says stop (src/core/background-engine.js:744-831):
 * it reads the state before every batch, so after the stop it writes at most the batch it had begun.
 */
module Controls {
  import opened Wrappers
  import opened Coordination
  import opened CoordinationInv
  import OnePlan
  import S = Store

  datatype Outcome = IsPaused | IsCancelled | HasFailed | IsStale | Stopped | Yielded | Exhausted

  /** What the state's controls mean for a lane on a partition of this plan; `None`: go on. */
  function ControlOutcome(control: Option<StateDoc>, generation: nat, plan: nat): Option<Outcome> {
    if control.None? then Some(IsCancelled)
    else if control.value.status == Paused then Some(IsPaused)
    else if control.value.status == Cancelled then Some(IsCancelled)
    else if control.value.status == Failed then Some(HasFailed)
    else if control.value.status != Running then Some(IsStale)
    else if control.value.generation != generation || control.value.plan != Some(plan) then Some(IsStale)
    else None
  }

  /** The state is running, and on the plan of the lane's partition. */
  predicate WantsTheLane(control: Option<StateDoc>, generation: nat, plan: nat) {
    control.Some? && control.value.status == Running
    && control.value.generation == generation && control.value.plan == Some(plan)
  }

  /** A lane goes on exactly on a running state that is on its plan; every stop has its one cause. */
  lemma WhatStopsALane(control: Option<StateDoc>, generation: nat, plan: nat)
    ensures
      var outcome := ControlOutcome(control, generation, plan);
      && (outcome.None? <==> WantsTheLane(control, generation, plan))
      && (outcome == Some(IsPaused) <==> control.Some? && control.value.status == Paused)
      && (outcome == Some(IsCancelled) <==> control.None? || control.value.status == Cancelled)
      && (outcome == Some(HasFailed) <==> control.Some? && control.value.status == Failed)
      && (outcome == Some(IsStale) <==>
            && control.Some? && control.value.status in {Status.Pending, Completed, Running}
            && !WantsTheLane(control, generation, plan))
  {
  }

  // ---- Lanes beside the coordinators

  /** `batches` counts the control reads that said go on; `working` from such a read to its checkpoint. */
  datatype Lane = Lane(generation: nat, plan: nat, batches: nat, working: bool, ended: bool)

  /** `writes` is history: who wrote, in which of its batches. */
  datatype World = World(sys: System, lanes: map<nat, Lane>, writes: seq<(nat, nat)>)

  datatype Event = Elsewhere(step: Step) | ReadControl(l: nat) | Write(l: nat) | EndBatch(l: nat)

  ghost predicate Possible(cfg: Config, w: World, e: Event) {
    match e
    case Elsewhere(step) => Enabled(cfg, w.sys, step)
    case ReadControl(l) => l in w.lanes && !w.lanes[l].working && !w.lanes[l].ended
    case Write(l) => l in w.lanes && w.lanes[l].working
    case EndBatch(l) => l in w.lanes && w.lanes[l].working
  }

  predicate ToldToStop(w: World, l: nat)
    requires l in w.lanes
  {
    ControlOutcome(Some(w.sys.state), w.lanes[l].generation, w.lanes[l].plan).Some?
  }

  ghost function Happens(cfg: Config, w: World, e: Event): World
    requires Possible(cfg, w, e)
  {
    match e
    case Elsewhere(step) => w.(sys := Next(cfg, w.sys, step))
    case ReadControl(l) =>
      w.(lanes := w.lanes[l := if ToldToStop(w, l) then w.lanes[l].(ended := true)
                               else w.lanes[l].(working := true, batches := w.lanes[l].batches + 1)])
    case Write(l) => w.(writes := w.writes + [(l, w.lanes[l].batches)])
    case EndBatch(l) => w.(lanes := w.lanes[l := w.lanes[l].(working := false)])
  }

  ghost predicate History(cfg: Config, w: World, events: seq<Event>)
    decreases |events|
  {
    events == [] || (Possible(cfg, w, events[0]) && History(cfg, Happens(cfg, w, events[0]), events[1..]))
  }

  ghost function Outcomes(cfg: Config, w: World, events: seq<Event>): World
    requires History(cfg, w, events)
    decreases |events|
  {
    if events == [] then w else Outcomes(cfg, Happens(cfg, w, events[0]), events[1..])
  }

  /** The control read starts a batch exactly if the state is running on the lane's plan, and ends the lane else. */
  lemma ReadingStartsABatchIff(cfg: Config, w: World, l: nat)
    requires Possible(cfg, w, ReadControl(l))
    ensures
      var was, now := w.lanes[l], Happens(cfg, w, ReadControl(l)).lanes[l];
      if WantsTheLane(Some(w.sys.state), was.generation, was.plan)
      then now.working && !now.ended && now.batches == was.batches + 1
      else !now.working && now.ended && now.batches == was.batches
  {
  }

  /** The lane's partition is not one of the current plan, and cannot be again. */
  predicate Overtaken(w: World, l: nat)
    requires l in w.lanes
  {
    && w.lanes[l].generation <= w.sys.state.generation
    && (w.sys.state.generation == w.lanes[l].generation ==> w.sys.state.plan != Some(w.lanes[l].plan))
  }

  predicate Halted(status: Status) {
    status == Paused || status == Cancelled || status == Failed || status == Completed
  }

  /** Nobody starts the background migration again. */
  predicate NobodyRestarts(events: seq<Event>) {
    forall e <- events :: e.Elsewhere? ==> !e.step.Resume? && !e.step.Retry?
  }

  /** Nothing moves a halt, but a cancel one that is paused. */
  predicate StaysHalted(s: System, s': System, step: Step) {
    s'.state.status == if step.Cancel? then Cancelled else s.state.status
  }

  lemma LeavesHalted(cfg: Config, s: System, step: Step)
    requires Enabled(cfg, s, step) && Halted(s.state.status)
    requires step.FailState? || step.Start? || step.Pause? || step.Cancel? || step.GiveUp? || step.Complete?
    ensures StaysHalted(s, Next(cfg, s, step), step)
  {
  }

  lemma KeepsStatus(cfg: Config, s: System, step: Step)
    requires Enabled(cfg, s, step)
    requires step.Lane? || step.InsertPlan? || step.CommitPlan? || step.RollUp? || step.NextPass? || step.CancelPlan?
    ensures Next(cfg, s, step).state.status == s.state.status
  {
    if step.Lane? {
      assert Next(cfg, s, step) == NextLane(cfg, s, step.step);
    } else if step.InsertPlan? {
      assert Next(cfg, s, step) == NextInsert(s, step.c, step.groups);
    } else if step.CommitPlan? {
      assert Next(cfg, s, step) == NextCommit(s, step.c);
    } else if step.RollUp? {
      assert Next(cfg, s, step) == NextRollUp(s, step.c);
    } else if step.CancelPlan? {
      assert Next(cfg, s, step) == NextCancelPlan(s, step.generation);
    } else {
      assert Next(cfg, s, step) == NextNextPass(s, step.c);
    }
  }

  lemma KeepsState(cfg: Config, s: System, step: Step)
    requires Enabled(cfg, s, step)
    requires
      || step.Writes? || step.Load? || step.DropLost? || step.DropForeign? || step.FindDrained? || step.AlreadyRolledUp?
      || step.SumTotals? || step.CountLeft? || step.DropOld? || step.Crash?
    ensures Next(cfg, s, step).state == s.state
  {
  }

  /**
   * Only a resume or a retry takes a background migration out of a halt, and only a cancel, where it is
   * paused, into another; whatever else happens, a coordinator's completion or failure included, leaves it.
   */
  lemma HaltsHold(cfg: Config, s: System, step: Step)
    requires Enabled(cfg, s, step) && Halted(s.state.status) && !step.Resume? && !step.Retry?
    ensures Halted(Next(cfg, s, step).state.status) && StaysHalted(s, Next(cfg, s, step), step)
    ensures step.Cancel? ==> s.state.status == Paused
  {
    if step.FailState? || step.Start? || step.Pause? || step.Cancel? || step.GiveUp? || step.Complete? {
      LeavesHalted(cfg, s, step);
    } else if step.Lane? || step.InsertPlan? || step.CommitPlan? || step.RollUp? || step.NextPass? || step.CancelPlan? {
      KeepsStatus(cfg, s, step);
    } else {
      KeepsState(cfg, s, step);
    }
  }

  // ---- What the controls do

  /** They move the status, and nothing but the status. */
  lemma WhatTheControlsDo(cfg: Config, s: System, step: Step)
    requires Enabled(cfg, s, step)
    requires step.Start? || step.Pause? || step.Resume? || step.Cancel? || step.FailState?
    ensures
      var s' := Next(cfg, s, step);
      && s' == s.(state := s.state.(status := s'.state.status))
      && (step.Start? ==> s'.state.status == if s.state.status == Pending then Running else s.state.status)
      && (step.Pause? ==> s'.state.status == Paused)
      && (step.Cancel? ==> s'.state.status == Cancelled)
      && (step.FailState? ==> s'.state.status == if Live(s.state.status) then Failed else s.state.status)
      && (step.Resume? ==>
            s'.state.status == if s.state.plan.Some? && s.state.phase == Processing then Running else Pending)
  {
    var status := ControlsMoveTheStatus(cfg, s, step);
  }

  /** A cancel closes every open partition of the plan it was read with, and touches no other. */
  lemma WhatACancelCloses(cfg: Config, s: System, generation: nat)
    requires Enabled(cfg, s, CancelPlan(generation))
    ensures
      var s' := Next(cfg, s, CancelPlan(generation));
      && s' == s.(db := s.db.(parts := s'.db.parts)) && s'.db.parts.Keys == s.db.parts.Keys
      && NoneOpen(s'.db, generation, s.plans[generation])
      && forall pid <- s.db.parts ::
           if S.OfPlan(s.db.parts[pid], generation, s.plans[generation]) && S.Open(s.db.parts[pid])
           then s'.db.parts[pid] == s.db.parts[pid].(status := S.Status.Cancelled)
           else s'.db.parts[pid] == s.db.parts[pid]
  {
  }

  /** Failed or cancelled, of the plan to retry. */
  predicate GivenUp(s: System, part: S.Partition) {
    && s.state.plan.Some? && S.OfPlan(part, s.state.generation, s.state.plan.value)
    && (part.status == S.Status.Failed || part.status == S.Status.Cancelled)
  }

  /**
   * A retry sets out again: a pass that has not closed goes on with its failed and cancelled partitions
   * pending, from where they stood; one that has is followed by another.
   */
  lemma WhatARetryReopens(cfg: Config, s: System)
    requires Enabled(cfg, s, Retry)
    ensures
      var s' := Next(cfg, s, Retry);
      && s'.state.status == Pending && s'.state.failedPartitions == 0 && s'.db.parts.Keys == s.db.parts.Keys
      && s'.state.phase == (if ClosedPass(s.state) then Partitioning else s.state.phase)
      && s'.state.generation == s.state.generation && s'.state.plan == s.state.plan && s'.state.pass == s.state.pass
      && s'.state.totals == s.state.totals && s'.state.badIds == s.state.badIds && s'.state.rolled == s.state.rolled
      && forall pid <- s.db.parts ::
           if GivenUp(s, s.db.parts[pid]) && !ClosedPass(s.state)
           then s'.db.parts[pid] == s.db.parts[pid].(status := S.Status.Pending, failures := 0)
           else s'.db.parts[pid] == s.db.parts[pid]
  {
    assert Next(cfg, s, Retry) == NextRetry(s);
  }

  /**
   * A pause can be taken back: it and a resume leave everything as it was, but that the status is the one
   * the phase calls for.
   */
  lemma PauseAndResume(cfg: Config, s: System)
    requires Live(s.state.status)
    ensures Run(cfg, s, [Pause, Resume])
    ensures
      var status := if s.state.plan.Some? && s.state.phase == Processing then Running else Pending;
      After(cfg, s, [Pause, Resume]) == s.(state := s.state.(status := status))
  {
    var paused := s.(state := s.state.(status := Paused));
    assert Next(cfg, s, Pause) == paused;
    RunOfTwo(cfg, s, Pause, Resume);
  }

  /** The partitions of the plan that are not done are pending, from where they stood; all others as they were. */
  predicate SetOutAgain(before: S.Db, db: S.Db, generation: nat, plan: nat) {
    && db.parts.Keys == before.parts.Keys
    && forall pid <- before.parts ::
         if S.OfPlan(before.parts[pid], generation, plan) && before.parts[pid].status != S.Status.Done
         then db.parts[pid] == before.parts[pid].(status := S.Status.Pending, failures := 0)
         else db.parts[pid] == before.parts[pid]
  }

  lemma CancelledAreOut(db: S.Db, generation: nat, plan: nat)
    requires forall pid <- db.parts :: db.parts[pid].status != S.Status.Superseded
    ensures SetOutAgain(db, S.Reopen(S.CancelOpen(db, generation, plan), generation, plan), generation, plan)
  {
  }

  lemma Cancels(cfg: Config, s: System)
    requires Inv(s) && (Live(s.state.status) || s.state.status == Paused) && s.state.plan.Some?
    ensures
      var g := s.state.generation;
      && Enabled(cfg, s, Cancel) && Enabled(cfg, Next(cfg, s, Cancel), CancelPlan(g))
      && Next(cfg, Next(cfg, s, Cancel), CancelPlan(g)) ==
         s.(state := s.state.(status := Cancelled), db := S.CancelOpen(s.db, g, s.state.plan.value))
  {
    assert Next(cfg, s, Cancel) == s.(state := s.state.(status := Cancelled));
  }

  lemma Retries(cfg: Config, s: System)
    requires s.state.status == Cancelled && s.state.plan.Some? && !ClosedPass(s.state)
    requires forall c <- s.coords :: !Closes(s, c)
    ensures Enabled(cfg, s, Retry)
    ensures Next(cfg, s, Retry) == s.(state := s.state.(status := Pending, failedPartitions := 0), retried := true,
                                     db := S.Reopen(s.db, s.state.generation, s.state.plan.value))
  {
    assert Next(cfg, s, Retry) == NextRetry(s);
  }

  /**
   * A cancel can be taken back: with a retry, before the pass is closed, the migration sets out again with
   * every partition that was not done, and nothing done is lost.
   */
  lemma CancelAndRetry(cfg: Config, s: System) returns (steps: seq<Step>)
    requires Inv(s) && (Live(s.state.status) || s.state.status == Paused)
    requires s.state.plan.Some? && !ClosedPass(s.state) && forall c <- s.coords :: !Closes(s, c)
    ensures steps == [Cancel, CancelPlan(s.state.generation)] + [Retry] && Run(cfg, s, steps)
    ensures After(cfg, s, steps).state == s.state.(status := Pending, failedPartitions := 0)
    ensures SetOutAgain(s.db, After(cfg, s, steps).db, s.state.generation, s.state.plan.value)
  {
    var g := s.state.generation;
    Cancels(cfg, s);
    RunOfTwo(cfg, s, Cancel, CancelPlan(g));
    var s2 := s.(state := s.state.(status := Cancelled), db := S.CancelOpen(s.db, g, s.state.plan.value));
    forall c | c in s2.coords ensures !Closes(s2, c) {
      assert !Closes(s, c);
    }
    Retries(cfg, s2);
    steps := [Cancel, CancelPlan(g)] + [Retry];
    RunThen(cfg, s, [Cancel, CancelPlan(g)], Retry);
    forall pid | pid in s.db.parts ensures s.db.parts[pid].status != S.Status.Superseded {
      assert PartInv(s, pid);
    }
    CancelledAreOut(s.db, g, s.state.plan.value);
  }

  ghost predicate StoppedFor(w: World, l: nat, events: seq<Event>)
    requires l in w.lanes
  {
    Overtaken(w, l) || (Halted(w.sys.state.status) && NobodyRestarts(events))
  }

  lemma StopsHold(cfg: Config, w: World, l: nat, events: seq<Event>)
    requires Inv(w.sys) && l in w.lanes && events != [] && Possible(cfg, w, events[0]) && StoppedFor(w, l, events)
    ensures Inv(Happens(cfg, w, events[0]).sys)
    ensures l in Happens(cfg, w, events[0]).lanes && StoppedFor(Happens(cfg, w, events[0]), l, events[1..])
  {
    var e := events[0];
    if e.Elsewhere? {
      StepKeepsInv(cfg, w.sys, e.step);
      OnePlan.GenerationsIncrease(cfg, w.sys, e.step);
      if Halted(w.sys.state.status) && NobodyRestarts(events) {
        HaltsHold(cfg, w.sys, e.step);
      }
    }
  }

  /**
   * After a pause, a cancel, a failure, a completion or a newer plan, each lane writes at most the one
   * batch whose control read came before: its later writes all belong to the batch it was in, there
   * are none if it was in none, and once that batch ends there are no more. A newer plan stops it for
   * good; a halt, until somebody resumes or retries.
   */
  lemma {:induction false} AtMostTheBatchUnderWay(cfg: Config, w: World, l: nat, events: seq<Event>, i: nat)
    requires Inv(w.sys) && l in w.lanes && History(cfg, w, events) && StoppedFor(w, l, events)
    ensures
      var w' := Outcomes(cfg, w, events);
      && l in w'.lanes && w'.lanes[l].batches == w.lanes[l].batches
      && (w'.lanes[l].working ==> w.lanes[l].working)
      && |w.writes| <= |w'.writes|
      && (|w.writes| <= i < |w'.writes| && w'.writes[i].0 == l ==>
            w.lanes[l].working && w'.writes[i].1 == w.lanes[l].batches)
    decreases |events|
  {
    if events != [] {
      var w1 := Happens(cfg, w, events[0]);
      StopsHold(cfg, w, l, events);
      AtMostTheBatchUnderWay(cfg, w1, l, events[1..], i);
      WritesStay(cfg, w1, events[1..], i);
    }
  }

  lemma {:induction false} WritesStay(cfg: Config, w: World, events: seq<Event>, i: nat)
    requires History(cfg, w, events)
    ensures |w.writes| <= |Outcomes(cfg, w, events).writes|
    ensures i < |w.writes| ==> Outcomes(cfg, w, events).writes[i] == w.writes[i]
    decreases |events|
  {
    if events != [] {
      WritesStay(cfg, Happens(cfg, w, events[0]), events[1..], i);
    }
  }

  // ---- The slice loop

  /**
   * What the loop meets in one turn: the signal, the clock, the state it reads, and how its batch goes —
   * where it goes on from, what it counts, how many of its documents failed, and how many have failed in
   * the whole background migration when the store is asked.
   */
  datatype Turn = Turn(
    aborted: bool, overdue: bool, control: Option<StateDoc>, next: Option<nat>, counts: S.Counters, errors: nat, total: nat)

  function SumOf(turns: seq<Turn>): S.Counters {
    if turns == [] then map[] else S.Plus(SumOf(turns[..|turns| - 1]), turns[|turns| - 1].counts)
  }

  /** The turn runs a batch. */
  predicate Runs(turn: Turn, first: bool, generation: nat, plan: nat) {
    !turn.aborted && (first || !turn.overdue) && ControlOutcome(turn.control, generation, plan).None?
  }

  /** The batch failed a document, and with it more failed than the migration allows. */
  predicate SpendsTheBudget(turn: Turn, maxDocumentErrors: nat) {
    turn.errors > 0 && turn.total > maxDocumentErrors
  }

  predicate GoesOn(turn: Turn, maxDocumentErrors: nat) {
    !SpendsTheBudget(turn, maxDocumentErrors) && turn.next.Some?
  }

  /** Nothing stops the turn or ends the loop with it: no signal, no deadline, a state that wants the lane, a batch that goes on. */
  predicate Undisturbed(turn: Turn, generation: nat, plan: nat, maxDocumentErrors: nat) {
    && !turn.aborted && !turn.overdue && WantsTheLane(turn.control, generation, plan)
    && (turn.errors == 0 || turn.total <= maxDocumentErrors) && turn.next.Some?
  }

  /** Why the loop ends at a turn that runs no batch. */
  function WhyNot(turn: Turn, first: bool, generation: nat, plan: nat): Option<Outcome> {
    if turn.aborted then Some(Stopped)
    else if !first && turn.overdue then Some(Yielded)
    else ControlOutcome(turn.control, generation, plan)
  }

  /** How the loop ended: after these batches, for the first reason there was, with what they counted. */
  predicate EndsAs(generation: nat, plan: nat, start: nat, turns: seq<Turn>, maxDocumentErrors: nat,
                   outcome: Option<Outcome>, counters: S.Counters, cursor: nat, batches: nat) {
    && batches <= |turns| && counters == SumOf(turns[..batches])
    && (forall i | 0 <= i < batches :: Runs(turns[i], i == 0, generation, plan))
    && (forall i | 0 <= i < batches - 1 :: GoesOn(turns[i], maxDocumentErrors))
    && cursor == LastCursor(start, turns[..batches], maxDocumentErrors)
    && (outcome.None? ==> batches == |turns| && (batches > 0 ==> GoesOn(turns[batches - 1], maxDocumentErrors)))
    && (outcome.Some? && !(batches > 0 && !GoesOn(turns[batches - 1], maxDocumentErrors)) ==>
          batches < |turns| && WhyNot(turns[batches], batches == 0, generation, plan) == outcome)
    && (batches > 0 && !GoesOn(turns[batches - 1], maxDocumentErrors) ==>
          outcome == Some(if SpendsTheBudget(turns[batches - 1], maxDocumentErrors) then HasFailed else Exhausted))
  }

  /** It never ends at a turn nothing disturbs: as many undisturbed turns as it meets first, so many batches it runs. */
  lemma UndisturbedTurnsRun(generation: nat, plan: nat, start: nat, turns: seq<Turn>, maxDocumentErrors: nat,
                            outcome: Option<Outcome>, counters: S.Counters, cursor: nat, batches: nat, n: nat)
    requires EndsAs(generation, plan, start, turns, maxDocumentErrors, outcome, counters, cursor, batches)
    requires n <= |turns| && forall i | 0 <= i < n :: Undisturbed(turns[i], generation, plan, maxDocumentErrors)
    ensures batches >= n
  {
    forall i | 0 <= i < n
      ensures GoesOn(turns[i], maxDocumentErrors) && WhyNot(turns[i], i == 0, generation, plan).None?
    {
      assert Undisturbed(turns[i], generation, plan, maxDocumentErrors);
    }
  }

  /** Everything it ran is counted: one batch more adds what it counts. */
  lemma EveryBatchCounts(turns: seq<Turn>, turn: Turn, key: string)
    ensures S.Get(SumOf(turns + [turn]), key) == S.Get(SumOf(turns), key) + S.Get(turn.counts, key)
    ensures S.Get(SumOf([]), key) == 0
  {
    assert (turns + [turn])[..|turns|] == turns;
  }

  /**
   * Whatever ends it, ends it there: no batch before the last failed too many documents, or was the last
   * of the partition. It stops only where it is told to, and yields only after a batch of its own.
   */
  lemma EndsForItsReason(generation: nat, plan: nat, start: nat, turns: seq<Turn>, maxDocumentErrors: nat,
                         outcome: Option<Outcome>, counters: S.Counters, cursor: nat, batches: nat)
    requires EndsAs(generation, plan, start, turns, maxDocumentErrors, outcome, counters, cursor, batches)
    ensures forall i | 0 <= i < batches - 1 ::
              turns[i].next.Some? && (turns[i].errors == 0 || turns[i].total <= maxDocumentErrors)
    ensures forall i | 0 <= i < batches ::
              !turns[i].aborted && WantsTheLane(turns[i].control, generation, plan) && (i > 0 ==> !turns[i].overdue)
    ensures outcome == Some(Stopped) ==> batches < |turns| && turns[batches].aborted
    ensures outcome == Some(Yielded) ==> 0 < batches < |turns| && turns[batches].overdue && !turns[batches].aborted
    ensures outcome == Some(Exhausted) ==> batches > 0 && turns[batches - 1].next.None?
    ensures outcome == Some(HasFailed) ==>
              || (batches > 0 && turns[batches - 1].errors > 0 && turns[batches - 1].total > maxDocumentErrors)
              || (batches < |turns| && turns[batches].control.Some? && turns[batches].control.value.status == Failed)
  {
    forall i | 0 <= i < batches - 1 ensures GoesOn(turns[i], maxDocumentErrors) {
    }
    forall i | 0 <= i < batches
      ensures !turns[i].aborted && WantsTheLane(turns[i].control, generation, plan) && (i > 0 ==> !turns[i].overdue)
    {
      assert Runs(turns[i], i == 0, generation, plan);
    }
  }

  /** Where it leaves the partition: at the place the last batch that went on left it, or where it started. */
  lemma TheCursorIsTheLastPlace(generation: nat, plan: nat, start: nat, turns: seq<Turn>, maxDocumentErrors: nat,
                                outcome: Option<Outcome>, counters: S.Counters, cursor: nat, batches: nat)
    requires EndsAs(generation, plan, start, turns, maxDocumentErrors, outcome, counters, cursor, batches)
    ensures
      if batches > 0 && GoesOn(turns[batches - 1], maxDocumentErrors) then turns[batches - 1].next == Some(cursor)
      else if batches > 1 then turns[batches - 2].next == Some(cursor)
      else cursor == start
  {
    if batches > 0 && !GoesOn(turns[batches - 1], maxDocumentErrors) {
      var ran, before := turns[..batches], turns[..batches - 1];
      assert ran[|ran| - 1] == turns[batches - 1] && ran[..|ran| - 1] == before;
      assert cursor == LastCursor(start, before, maxDocumentErrors);
      if batches > 1 {
        assert before[|before| - 1] == turns[batches - 2] && GoesOn(turns[batches - 2], maxDocumentErrors);
      }
    }
  }

  /** The loop has run this many batches, and all of them went on. */
  predicate SoFar(generation: nat, plan: nat, start: nat, turns: seq<Turn>, maxDocumentErrors: nat,
                  counters: S.Counters, cursor: nat, batches: nat) {
    && batches <= |turns| && counters == SumOf(turns[..batches])
    && cursor == LastCursor(start, turns[..batches], maxDocumentErrors)
    && forall i | 0 <= i < batches :: Runs(turns[i], i == 0, generation, plan) && GoesOn(turns[i], maxDocumentErrors)
  }

  lemma OneBatchMore(generation: nat, plan: nat, start: nat, turns: seq<Turn>, maxDocumentErrors: nat,
                     counters: S.Counters, cursor: nat, batches: nat)
    requires SoFar(generation, plan, start, turns, maxDocumentErrors, counters, cursor, batches)
    requires batches < |turns| && Runs(turns[batches], batches == 0, generation, plan)
    ensures
      var turn, now := turns[batches], S.Plus(counters, turns[batches].counts);
      if GoesOn(turn, maxDocumentErrors)
      then SoFar(generation, plan, start, turns, maxDocumentErrors, now, turn.next.value, batches + 1)
      else EndsAs(generation, plan, start, turns, maxDocumentErrors,
                  Some(if SpendsTheBudget(turn, maxDocumentErrors) then HasFailed else Exhausted), now, cursor, batches + 1)
  {
    var ran := turns[..batches + 1];
    assert ran[..batches] == turns[..batches] && ran[batches] == turns[batches];
  }

  /**
   * The loop on one partition. It ends with the first turn that stops it, or with the batch that spends
   * the error budget or reads nothing more; whatever ends it, its counters are those of all the batches
   * it ran and its cursor is the last one a batch went on from. `None`: these turns do not end it.
   */
  method ProcessPartition(generation: nat, plan: nat, start: nat, turns: seq<Turn>, maxDocumentErrors: nat)
    returns (outcome: Option<Outcome>, counters: S.Counters, cursor: nat, batches: nat)
    ensures EndsAs(generation, plan, start, turns, maxDocumentErrors, outcome, counters, cursor, batches)
  {
    counters, cursor, batches := map[], start, 0;
    while batches < |turns|
      invariant SoFar(generation, plan, start, turns, maxDocumentErrors, counters, cursor, batches)
    {
      var turn := turns[batches];
      if turn.aborted { return Some(Stopped), counters, cursor, batches; }
      if batches > 0 && turn.overdue { return Some(Yielded), counters, cursor, batches; }
      var stop := ControlOutcome(turn.control, generation, plan);
      if stop.Some? { return stop, counters, cursor, batches; }
      OneBatchMore(generation, plan, start, turns, maxDocumentErrors, counters, cursor, batches);
      counters := S.Plus(counters, turn.counts);
      batches := batches + 1;
      if turn.errors > 0 && turn.total > maxDocumentErrors { return Some(HasFailed), counters, cursor, batches; }
      if turn.next.None? { return Some(Exhausted), counters, cursor, batches; }
      cursor := turn.next.value;
    }
    outcome := None;
  }

  function LastCursor(start: nat, turns: seq<Turn>, maxDocumentErrors: nat): nat {
    if turns == [] then start
    else
      var last := turns[|turns| - 1];
      if GoesOn(last, maxDocumentErrors) then last.next.value else LastCursor(start, turns[..|turns| - 1], maxDocumentErrors)
  }
}
