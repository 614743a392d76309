/** A pass that ends without draining: more documents fail in one batch than a partition keeps ids of. */
module UndrainedPass {
  import opened Wrappers
  import opened KeysetPass

  const EVERYTHING := Scope(None, None)

  predicate Ascending(ids: seq<int>) {
    forall i, j | 0 <= i < j < |ids| :: ids[i] < ids[j]
  }

  function SetOf(ids: seq<int>): set<int> {
    set id | id in ids
  }

  lemma {:induction false} SizeOf(ids: seq<int>)
    requires Ascending(ids)
    ensures |SetOf(ids)| == |ids|
  {
    if ids != [] {
      var init, last := ids[..|ids| - 1], ids[|ids| - 1];
      SizeOf(init);
      assert ids == init + [last];
      assert SetOf(ids) == SetOf(init) + {last};
    }
  }

  /** One partition over all ids, and these documents, none of which can be rewritten. */
  function Untouched(ids: seq<int>): State {
    State(SetOf(ids), {}, map[0 := Partition(EVERYTHING, None, false, None, {}, {})], map[], 0)
  }

  function Reading(all: set<int>, batch: Option<Batch>): State {
    State(all, {}, map[0 := Partition(EVERYTHING, None, false, Some(0), {}, {})], map[0 := Lane(0, 0, None, batch)], 1)
  }

  /** The lane that claimed the partition has read all of them, refused some, and has the others to judge. */
  function Refusing(all: set<int>, ids: seq<int>, todo: set<int>, failed: set<int>): State {
    Reading(all, Some(Batch(ids, true, todo, failed)))
  }

  lemma ClaimsIt(ids: seq<int>)
    ensures Enabled(Untouched(ids), Claim(0, 0)) && Next(Untouched(ids), Claim(0, 0)) == Reading(SetOf(ids), None)
  {
    var s, s' := Next(Untouched(ids), Claim(0, 0)), Reading(SetOf(ids), None);
    assert s.parts == s'.parts && s.lanes == s'.lanes;
  }

  lemma ReadsAll(ids: seq<int>)
    requires Ascending(ids)
    ensures Enabled(Reading(SetOf(ids), None), Read(0, ids, |ids| + 1))
    ensures Next(Reading(SetOf(ids), None), Read(0, ids, |ids| + 1)) == Refusing(SetOf(ids), ids, SetOf(ids), {})
  {
    var s := Reading(SetOf(ids), None);
    assert IsBatch(s, s.lanes[0], ids, |ids| + 1);
    var s' := Next(s, Read(0, ids, |ids| + 1));
    assert s'.lanes == Refusing(SetOf(ids), ids, SetOf(ids), {}).lanes;
  }

  lemma RefusesOne(all: set<int>, ids: seq<int>, todo: set<int>, failed: set<int>, id: int)
    requires id in todo
    ensures Enabled(Refusing(all, ids, todo, failed), Refuse(0, id))
    ensures Next(Refusing(all, ids, todo, failed), Refuse(0, id)) == Refusing(all, ids, todo - {id}, failed + {id})
  {
    var s, s' := Refusing(all, ids, todo, failed), Refusing(all, ids, todo - {id}, failed + {id});
    assert Next(s, Refuse(0, id)).lanes == s'.lanes;
  }

  lemma {:induction false} RefusesAll(all: set<int>, ids: seq<int>, todo: set<int>, failed: set<int>) returns (steps: seq<Step>)
    requires todo <= all
    ensures Run(Refusing(all, ids, todo, failed), steps) && Judges(all, steps)
    ensures After(Refusing(all, ids, todo, failed), steps) == Refusing(all, ids, {}, failed + todo)
    decreases todo
  {
    if !(exists id :: id in todo) {
      steps := [];
      assert todo == {} && failed + todo == failed;
    } else {
      var id :| id in todo;
      RefusesOne(all, ids, todo, failed, id);
      var rest := RefusesAll(all, ids, todo - {id}, failed + {id});
      assert failed + {id} + (todo - {id}) == failed + todo;
      steps := [Refuse(0, id)] + rest;
      assert steps[1..] == rest;
    }
  }

  lemma {:induction false} SomeOf(all: set<int>, n: nat) returns (some: set<int>)
    requires n <= |all|
    ensures some <= all && |some| == n
    decreases |all|
  {
    if !(exists id :: id in all) {
      assert all == {};
      some := {};
    } else if n == |all| {
      some := all;
    } else {
      var id :| id in all;
      some := SomeOf(all - {id}, n);
    }
  }

  /** The checkpoint keeps some of them, as many as fit, and the partition is done. */
  lemma ClosesThePartition(all: set<int>, ids: seq<int>, kept: set<int>)
    requires kept <= all && |kept| == MAX_BAD_IDS + 1 < |all|
    ensures Enabled(Refusing(all, ids, {}, {} + all), Checkpoint(0, kept))
    ensures AllDone(Next(Refusing(all, ids, {}, {} + all), Checkpoint(0, kept)))
  {
    var s := Refusing(all, ids, {}, {} + all);
    assert s.parts[0].bad + s.lanes[0].batch.value.failed == all;
    assert Next(s, Checkpoint(0, kept)) == Checkpointed(s, 0, kept);
  }

  lemma {:induction false} RunThen(s: State, steps: seq<Step>, step: Step)
    requires Run(s, steps) && Enabled(After(s, steps), step)
    ensures Run(s, steps + [step]) && After(s, steps + [step]) == Next(After(s, steps), step)
    decreases |steps|
  {
    if steps == [] {
      assert steps + [step] == [step] && [step][1..] == [] && Run(Next(s, step), []);
    } else {
      assert (steps + [step])[1..] == steps[1..] + [step];
      RunThen(Next(s, steps[0]), steps[1..], step);
    }
  }

  lemma RunFrom(s: State, step: Step, steps: seq<Step>)
    requires Enabled(s, step) && Run(Next(s, step), steps)
    ensures Run(s, [step] + steps) && After(s, [step] + steps) == After(Next(s, step), steps)
  {
    assert ([step] + steps)[1..] == steps;
  }

  /** From the read on. */
  lemma RefusesWhatItRead(ids: seq<int>) returns (steps: seq<Step>)
    requires Ascending(ids) && |ids| > MAX_BAD_IDS + 1
    ensures
      var s := Refusing(SetOf(ids), ids, SetOf(ids), {});
      Run(s, steps) && AllDone(After(s, steps)) && Judges(SetOf(ids), steps)
  {
    SizeOf(ids);
    var refusals := RefusesAll(SetOf(ids), ids, SetOf(ids), {});
    var kept := SomeOf(SetOf(ids), MAX_BAD_IDS + 1);
    ClosesThePartition(SetOf(ids), ids, kept);
    RunThen(Refusing(SetOf(ids), ids, SetOf(ids), {}), refusals, Checkpoint(0, kept));
    steps := refusals + [Checkpoint(0, kept)];
  }

  lemma RefusesThemAll(ids: seq<int>) returns (steps: seq<Step>)
    requires Ascending(ids) && |ids| > MAX_BAD_IDS + 1
    ensures Run(Untouched(ids), steps) && AllDone(After(Untouched(ids), steps)) && Judges(SetOf(ids), steps)
  {
    var rest := RefusesWhatItRead(ids);
    var read := Read(0, ids, |ids| + 1);
    ReadsAll(ids);
    RunFrom(Reading(SetOf(ids), None), read, rest);
    ClaimsIt(ids);
    RunFrom(Untouched(ids), Claim(0, 0), [read] + rest);
    steps := [Claim(0, 0)] + ([read] + rest);
  }

  lemma UntouchedIsPlanned(ids: seq<int>)
    ensures Planned(Untouched(ids)) && Covers(Untouched(ids))
  {
    assert forall id <- Untouched(ids).matching :: InScope(Untouched(ids).parts[0].scope, id);
  }

  /**
   * Any documents that cannot be rewritten, if they are more than are kept, can end a pass undrained: all
   * partitions are done and, whatever is recorded, some still match. The lane must have crashed between its
   * checkpoint and its check of the error budget (src/core/background-engine.js:794-810), which is never
   * above what is kept.
   */
  lemma APassCanEndUndrained(ids: seq<int>) returns (steps: seq<Step>)
    requires Ascending(ids) && |ids| > MAX_BAD_IDS + 1
    ensures Planned(Untouched(ids)) && Covers(Untouched(ids)) && Run(Untouched(ids), steps) && AllDone(After(Untouched(ids), steps))
    ensures forall recorded :: Recorded({}, Failed(After(Untouched(ids), steps)), recorded) ==>
              After(Untouched(ids), steps).matching - recorded != {}
  {
    steps := RefusesThemAll(ids);
    UntouchedIsPlanned(ids);
    SizeOf(ids);
    assert {} + SetOf(ids) * SetOf(ids) == SetOf(ids);
    forall recorded | Recorded({}, Failed(After(Untouched(ids), steps)), recorded)
      ensures After(Untouched(ids), steps).matching - recorded != {}
    {
      OnePassDrainsIff(Untouched(ids), steps, SetOf(ids), recorded);
    }
  }
}
