/**
 * What closing a pass comes to (src/core/background.js:530-647): a coordinator that nobody disturbs, and
 * whose copy of the state is fresh, rolls the pass up and decides — by the partitions and documents there
 * are — whether the background migration is failed, completed, or goes through another pass.
 */
module ClosingPass {
  import opened Wrappers
  import opened Totals
  import opened Coordination
  import opened CoordinationInv
  import BadIds
  import S = Store
  import F = Fencing

  /** Nothing of the current plan is open any more, it is not rolled up, and the coordinator has read so. */
  ghost predicate MayClose(s: System, c: nat) {
    && c in s.coords && s.coords[c].pc.Loaded? && s.coords[c].st == s.state
    && s.state.phase == Processing && s.state.plan.Some? && Live(s.state.status)
    && NoneOpen(s.db, s.state.generation, s.state.plan.value) && s.state.rolled < s.state.generation
  }

  /** A partition of the pass has failed, or one of an earlier pass had. */
  ghost predicate SomethingFailed(s: System) {
    || s.state.failedPartitions > 0
    || exists pid :: pid in s.db.parts && s.db.parts[pid].generation == s.state.generation
                     && s.db.parts[pid].status == S.Status.Failed
  }

  /** The document failed: in an earlier pass, or in a partition of this one. */
  ghost predicate Bad(s: System, id: nat) {
    || id in s.state.badIds
    || exists pid :: pid in s.db.parts && s.db.parts[pid].generation == s.state.generation && id in s.db.parts[pid].badIds
  }

  ghost predicate SomethingLeft(s: System) {
    exists id :: id in s.matching && !Bad(s, id)
  }

  /** The bad ids there are fit one list. */
  predicate BadIdsFit(s: System) {
    |S.SetOf(s.state.badIds + BadIdsOf(s.db.parts, s.db.nextId, s.state.generation))| <= S.MAX_BAD_IDS + 1
  }

  predicate OwnStep(step: Step, c: nat) {
    step in {FindDrained(c), SumTotals(c), RollUp(c), CountLeft(c), GiveUp(c), Complete(c), NextPass(c)}
  }

  // ---- The roll-up

  lemma FailedOfIsZeroIff(s: System, gen: nat)
    ensures FailedOf(s, gen) > 0 <==>
            exists pid :: pid in s.db.parts && s.db.parts[pid].generation == gen && s.db.parts[pid].status == S.Status.Failed
  {
    var failed := set pid | pid in s.db.parts && s.db.parts[pid].generation == gen && s.db.parts[pid].status == S.Status.Failed;
    assert FailedOf(s, gen) == |failed|;
    if exists pid :: pid in s.db.parts && s.db.parts[pid].generation == gen && s.db.parts[pid].status == S.Status.Failed {
      var pid :| pid in s.db.parts && s.db.parts[pid].generation == gen && s.db.parts[pid].status == S.Status.Failed;
      assert pid in failed;
    } else {
      assert failed == {};
    }
  }

  lemma Finds(cfg: Config, s: System, c: nat)
    requires Inv(s) && MayClose(s, c)
    ensures Run(cfg, s, [FindDrained(c)])
    ensures After(cfg, s, [FindDrained(c)]) == s.(coords := s.coords[c := Coord(s.state, s.state.generation, Drained)])
  {
    assert Run(cfg, s, []) && After(cfg, s, []) == s;
    RunThen(cfg, s, [], FindDrained(c));
    assert [] + [FindDrained(c)] == [FindDrained(c)];
  }

  lemma SumsUp(cfg: Config, s: System, c: nat)
    requires MayClose(s, c)
    ensures
      var found := s.(coords := s.coords[c := Coord(s.state, s.state.generation, Drained)]);
      && Enabled(cfg, found, SumTotals(c))
      && Next(cfg, found, SumTotals(c)) ==
         s.(coords := s.coords[c := Coord(s.state, s.state.generation, SumOf(s, s.state.generation))])
  {
    var gen := s.state.generation;
    var found := s.(coords := s.coords[c := Coord(s.state, gen, Drained)]);
    assert SumOf(found, gen) == SumOf(s, gen);
    assert s.coords[c := Coord(s.state, gen, Drained)][c := Coord(s.state, gen, SumOf(s, gen))] ==
           s.coords[c := Coord(s.state, gen, SumOf(s, gen))];
  }

  lemma Sums(cfg: Config, s: System, c: nat) returns (steps: seq<Step>, s': System)
    requires Inv(s) && MayClose(s, c)
    ensures Run(cfg, s, steps) && After(cfg, s, steps) == s' && forall step <- steps :: OwnStep(step, c)
    ensures s' == s.(coords := s.coords[c := Coord(s.state, s.state.generation, SumOf(s, s.state.generation))])
  {
    Finds(cfg, s, c);
    SumsUp(cfg, s, c);
    RunThen(cfg, s, [FindDrained(c)], SumTotals(c));
    steps := [FindDrained(c)] + [SumTotals(c)];
    s' := After(cfg, s, steps);
  }

  /** What the state is once the pass is rolled up. */
  ghost predicate RolledUpFrom(s: System, s': System, c: nat) {
    && s'.db == s.db && s'.matching == s.matching && s'.completed == s.completed
    && s'.state == s.state.(rolled := s.state.generation, totals := s'.state.totals, badIds := s'.state.badIds,
                            failedPartitions := s'.state.failedPartitions)
    && c in s'.coords && s'.coords[c] == Coord(s'.state, s.state.generation, RolledUp)
    && (forall key :: S.Get(s'.state.totals, key) ==
          S.Get(s.state.totals, key) + S.Get(TotalsOf(s.db.parts, s.db.nextId, Exactly(s.state.generation)), key))
    && (s'.state.failedPartitions > 0 <==> SomethingFailed(s))
    && (BadIdsFit(s) ==> forall id :: id in s'.state.badIds <==> Bad(s, id))
  }

  lemma RollsUpWhatThereIs(s: System, c: nat)
    requires Inv(s) && MayClose(s, c)
    ensures
      var summed := s.(coords := s.coords[c := Coord(s.state, s.state.generation, SumOf(s, s.state.generation))]);
      RolledUpFrom(s, NextRollUp(summed, c), c)
  {
    var gen := s.state.generation;
    var summed := s.(coords := s.coords[c := Coord(s.state, gen, SumOf(s, gen))]);
    var s' := NextRollUp(summed, c);
    FailedOfIsZeroIff(s, gen);
    BadIds.ARollUpKeepsEveryId(summed, c);
    forall id ensures id in SumOf(s, gen).badIds <==>
                      exists pid :: pid in s.db.parts && s.db.parts[pid].generation == gen && id in s.db.parts[pid].badIds {
      BadIds.TheSumHasThemAll(s, gen, id);
    }
  }

  lemma RollsUp(cfg: Config, s: System, c: nat) returns (steps: seq<Step>, s': System)
    requires Inv(s) && MayClose(s, c)
    ensures Run(cfg, s, steps) && After(cfg, s, steps) == s' && forall step <- steps :: OwnStep(step, c)
    ensures RolledUpFrom(s, s', c)
  {
    var before, summed := Sums(cfg, s, c);
    RunThen(cfg, s, before, RollUp(c));
    steps, s' := before + [RollUp(c)], NextRollUp(summed, c);
    RollsUpWhatThereIs(s, c);
  }

  // ---- The decision

  /** What a closed pass leads to. */
  datatype Decision = Fails | Completes | Repeats

  ghost function DecisionOn(cfg: Config, s: System): Decision {
    if SomethingFailed(s) then Fails
    else if !SomethingLeft(s) then Completes
    else if s.state.pass < cfg.maxPasses then Repeats
    else Fails
  }

  ghost predicate Decided(s: System, s': System, decision: Decision) {
    && s'.db == s.db && s'.state.generation == s.state.generation && s'.state.plan == s.state.plan
    && s'.state.pass == s.state.pass && s'.state.rolled == s.state.generation
    && (forall key :: S.Get(s'.state.totals, key) ==
          S.Get(s.state.totals, key) + S.Get(TotalsOf(s.db.parts, s.db.nextId, Exactly(s.state.generation)), key))
    && (s'.state.status == Failed <==> decision == Fails)
    && (s'.state.status == Completed <==> decision == Completes)
    && (decision == Completes ==> s'.completed == Some(s.state.generation))
    && (decision == Repeats ==> s'.state.status == s.state.status)
    && s'.state.phase == if decision == Repeats then Partitioning else Processing
  }

  /** What the count says, once the pass is rolled up. */
  ghost predicate CountedFrom(s: System, s2: System, c: nat, zero: bool) {
    && c in s2.coords && s2.coords[c].pc == Counted(zero) && s2.coords[c].gen == s.state.generation
    && s2.db == s.db && s2.coords[c].st == s2.state && s2.state.rolled == s.state.generation
    && s2.state == s.state.(rolled := s.state.generation, totals := s2.state.totals, badIds := s2.state.badIds,
                            failedPartitions := s2.state.failedPartitions)
    && (forall key :: S.Get(s2.state.totals, key) ==
          S.Get(s.state.totals, key) + S.Get(TotalsOf(s.db.parts, s.db.nextId, Exactly(s.state.generation)), key))
    && s2.state.failedPartitions == 0
  }

  lemma Counts(cfg: Config, s: System, s1: System, c: nat)
    requires RolledUpFrom(s, s1, c) && BadIdsFit(s) && !SomethingFailed(s)
    ensures Enabled(cfg, s1, CountLeft(c)) && CountedFrom(s, Next(cfg, s1, CountLeft(c)), c, !SomethingLeft(s))
  {
    assert Next(cfg, s1, CountLeft(c)) == NextCountLeft(s1, c);
    if !SomethingLeft(s) {
      forall id | id in s1.matching ensures id in s1.coords[c].st.badIds {
        assert Bad(s, id);
      }
    } else {
      var id :| id in s.matching && !Bad(s, id);
      assert id in s1.matching && id !in s1.coords[c].st.badIds;
    }
  }

  lemma FailsIt(cfg: Config, s: System, s1: System, c: nat)
    requires MayClose(s, c) && RolledUpFrom(s, s1, c) && SomethingFailed(s)
    ensures Enabled(cfg, s1, GiveUp(c)) && Decided(s, Next(cfg, s1, GiveUp(c)), Decision.Fails)
  {
  }

  lemma CompletesIt(cfg: Config, s: System, s2: System, c: nat)
    requires MayClose(s, c) && CountedFrom(s, s2, c, true)
    ensures Enabled(cfg, s2, Complete(c)) && Decided(s, Next(cfg, s2, Complete(c)), Completes)
  {
    assert Next(cfg, s2, Complete(c)) == NextComplete(s2, c);
  }

  lemma RepeatsIt(cfg: Config, s: System, s2: System, c: nat)
    requires MayClose(s, c) && CountedFrom(s, s2, c, false) && s.state.pass < cfg.maxPasses
    ensures Enabled(cfg, s2, NextPass(c)) && Decided(s, Next(cfg, s2, NextPass(c)), Repeats)
  {
    assert Next(cfg, s2, NextPass(c)) == NextNextPass(s2, c);
  }

  lemma GivesUp(cfg: Config, s: System, s2: System, c: nat)
    requires MayClose(s, c) && CountedFrom(s, s2, c, false) && s.state.pass >= cfg.maxPasses
    ensures Enabled(cfg, s2, GiveUp(c)) && Decided(s, Next(cfg, s2, GiveUp(c)), Decision.Fails)
  {
  }

  /** The step that carries out what the count has shown. */
  lemma CarriesOut(cfg: Config, s: System, s2: System, c: nat) returns (step: Step)
    requires MayClose(s, c) && !SomethingFailed(s) && CountedFrom(s, s2, c, !SomethingLeft(s))
    ensures OwnStep(step, c) && Enabled(cfg, s2, step) && Decided(s, Next(cfg, s2, step), DecisionOn(cfg, s))
  {
    if !SomethingLeft(s) {
      step := Complete(c);
      CompletesIt(cfg, s, s2, c);
    } else if s.state.pass < cfg.maxPasses {
      step := NextPass(c);
      RepeatsIt(cfg, s, s2, c);
    } else {
      step := GiveUp(c);
      GivesUp(cfg, s, s2, c);
    }
  }

  /**
   * Closing a pass undisturbed: the pass is rolled up with all its counters, and the background migration
   * fails exactly if a partition failed, now or before, or documents are left in the last pass allowed;
   * it completes exactly if no partition failed and nothing but bad ids is left; else another pass starts.
   */
  lemma AnUndisturbedCloseDecides(cfg: Config, s: System, c: nat) returns (steps: seq<Step>)
    requires Inv(s) && MayClose(s, c) && BadIdsFit(s)
    ensures Run(cfg, s, steps) && forall step <- steps :: OwnStep(step, c)
    ensures Decided(s, After(cfg, s, steps), DecisionOn(cfg, s))
  {
    var s1;
    steps, s1 := RollsUp(cfg, s, c);
    if SomethingFailed(s) {
      FailsIt(cfg, s, s1, c);
      RunThen(cfg, s, steps, GiveUp(c));
      steps := steps + [GiveUp(c)];
    } else {
      Counts(cfg, s, s1, c);
      var step := CarriesOut(cfg, s, Next(cfg, s1, CountLeft(c)), c);
      RunThen(cfg, s, steps, CountLeft(c));
      RunThen(cfg, s, steps + [CountLeft(c)], step);
      steps := steps + [CountLeft(c)] + [step];
    }
  }
}
