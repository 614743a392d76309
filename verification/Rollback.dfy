/**
 * Ordered rollbacks (src/bullmq/producer.js:95-101, 224-296, src/core/changelog.js:179-198, 328-355):
 * which plans are accepted, and that exactly those can be carried out. Names are numbers here: all that
 * matters of them is that they differ and are ordered.
 */
module Rollback {
  import opened Wrappers

  /** An applied migration; `at` is missing from a hand-edited or legacy record. */
  datatype Row = Row(name: int, at: Option<nat>)

  /** A date is after the epoch, which a missing one counts as. */
  predicate IsRow(row: Row) {
    row.at.Some? ==> row.at.value > 0
  }

  /** Newest applied first, names descending where the time is the same. */
  predicate Before(a: Row, b: Row) {
    var ta, tb := a.at.GetOr(0), b.at.GetOr(0);
    ta > tb || (ta == tb && a.name > b.name)
  }

  /** What the changelog's query for applied records newer than this one finds. */
  predicate NewerThan(other: Row, row: Row) {
    if row.at.Some?
    then other.at.Some? && (other.at.value > row.at.value || (other.at == row.at && other.name > row.name))
    else other.name != row.name
  }

  predicate Blocked(applied: set<Row>, row: Row) {
    exists other :: other in applied && NewerThan(other, row)
  }

  /** One record per name. */
  predicate UniqueNames(rows: seq<Row>) {
    forall i, j | 0 <= i < j < |rows| :: rows[i].name != rows[j].name
  }

  // ---- The stack

  function Placed(row: Row, stack: seq<Row>): seq<Row> {
    if stack == [] || Before(row, stack[0]) then [row] + stack else [stack[0]] + Placed(row, stack[1..])
  }

  /** Rows newest first. */
  function NewestFirst(rows: seq<Row>): seq<Row> {
    if rows == [] then [] else Placed(rows[0], NewestFirst(rows[1..]))
  }

  predicate IsStack(stack: seq<Row>) {
    && (forall i, j | 0 <= i < j < |stack| :: Before(stack[i], stack[j]))
    && (forall row <- stack :: IsRow(row))
  }

  lemma {:induction false} PlacedHasAll(row: Row, stack: seq<Row>)
    ensures multiset(Placed(row, stack)) == multiset(stack) + multiset{row}
    decreases |stack|
  {
    if stack != [] && !Before(row, stack[0]) {
      PlacedHasAll(row, stack[1..]);
      assert stack == [stack[0]] + stack[1..];
    }
  }

  lemma {:induction false} PlacedIsAStack(row: Row, stack: seq<Row>)
    requires IsStack(stack) && IsRow(row) && forall r <- stack :: r.name != row.name
    ensures IsStack(Placed(row, stack))
    ensures forall r :: r in Placed(row, stack) <==> r == row || r in stack
    decreases |stack|
  {
    if stack != [] && !Before(row, stack[0]) {
      PlacedIsAStack(row, stack[1..]);
      var rest := Placed(row, stack[1..]);
      forall j | 0 <= j < |rest| ensures Before(stack[0], rest[j]) {
        assert rest[j] in rest;
      }
      assert stack == [stack[0]] + stack[1..];
    }
  }

  lemma {:induction false} NewestFirstIsAStack(rows: seq<Row>)
    requires UniqueNames(rows) && forall row <- rows :: IsRow(row)
    ensures IsStack(NewestFirst(rows)) && forall r :: r in NewestFirst(rows) <==> r in rows
    decreases |rows|
  {
    if rows != [] {
      NewestFirstIsAStack(rows[1..]);
      forall r | r in NewestFirst(rows[1..]) ensures r.name != rows[0].name {
        var k :| 0 <= k < |rows[1..]| && rows[1..][k] == r;
        assert rows[k + 1] == r;
      }
      PlacedIsAStack(rows[0], NewestFirst(rows[1..]));
      assert rows == [rows[0]] + rows[1..];
    }
  }

  predicate Planned(planned: set<int>, row: Row) {
    row.name in planned
  }

  /** The planned ones are the first k of the stack. */
  predicate IsTop(stack: seq<Row>, planned: set<int>, k: nat) {
    k <= |stack| && forall i | 0 <= i < |stack| :: Planned(planned, stack[i]) <==> i < k
  }

  /** Not planned, with a planned one below it. */
  predicate Skipped(stack: seq<Row>, planned: set<int>, i: nat)
    requires i < |stack|
  {
    !Planned(planned, stack[i]) && exists j | i < j < |stack| :: Planned(planned, stack[j])
  }

  /**
   * The check before anything is enqueued: it names the applied migrations a plan skips, and passes
   * exactly if the plan is the top of the stack.
   */
  method AssertTopOfStack(stack: seq<Row>, planned: set<int>) returns (blockedBy: seq<int>, ghost top: nat)
    ensures blockedBy == [] <==> IsTop(stack, planned, top)
    ensures blockedBy == [] <==> exists k :: IsTop(stack, planned, k)
    ensures forall name :: name in blockedBy <==> exists i | 0 <= i < |stack| :: stack[i].name == name && Skipped(stack, planned, i)
  {
    var deepest := -1;
    for index := 0 to |stack|
      invariant -1 <= deepest < index && (deepest >= 0 ==> Planned(planned, stack[deepest]))
      invariant forall i | deepest < i < index :: !Planned(planned, stack[i])
    {
      if stack[index].name in planned { deepest := index; }
    }
    blockedBy := [];
    for index := 0 to deepest + 1
      invariant forall name :: name in blockedBy <==> exists i | 0 <= i < index :: stack[i].name == name && !Planned(planned, stack[i])
    {
      if stack[index].name !in planned { blockedBy := blockedBy + [stack[index].name]; }
    }
    forall i | 0 <= i < |stack| ensures Skipped(stack, planned, i) <==> i <= deepest && !Planned(planned, stack[i]) {
    }
    top := deepest + 1;
    if blockedBy == [] {
      assert forall i | 0 <= i < top :: stack[i].name !in blockedBy;
    } else {
      var name := blockedBy[0];
      assert name in blockedBy;
      var i :| 0 <= i < |stack| && stack[i].name == name && !Planned(planned, stack[i]) && i <= deepest;
      assert Planned(planned, stack[deepest]);
    }
  }

  // ---- Carrying a plan out

  /** The jobs one after the other: each reverts its migration, or fails while something newer is applied. */
  function RunJobs(applied: set<Row>, jobs: seq<Row>): Option<set<Row>>
    decreases |jobs|
  {
    if jobs == [] then Some(applied)
    else if Blocked(applied, jobs[0]) then None
    else RunJobs(applied - {jobs[0]}, jobs[1..])
  }

  function RowsOf(stack: seq<Row>): set<Row> {
    set row | row in stack
  }

  /** At the top of a stack: a dated migration is never blocked, an undated one by anything else applied. */
  lemma TopIsBlockedIff(stack: seq<Row>)
    requires IsStack(stack) && stack != []
    ensures Blocked(RowsOf(stack), stack[0]) <==> stack[0].at.None? && |stack| > 1
  {
    if stack[0].at.None? && |stack| > 1 {
      assert stack[1] in RowsOf(stack) && Before(stack[0], stack[1]);
      assert NewerThan(stack[1], stack[0]);
    }
    forall other | other in RowsOf(stack) && NewerThan(other, stack[0]) ensures stack[0].at.None? && |stack| > 1 {
      var i :| 0 <= i < |stack| && stack[i] == other;
      if i > 0 {
        assert Before(stack[0], stack[i]);
      }
    }
  }

  lemma TopComesOff(stack: seq<Row>)
    requires IsStack(stack) && stack != []
    ensures IsStack(stack[1..]) && RowsOf(stack) - {stack[0]} == RowsOf(stack[1..])
  {
    forall row | row in RowsOf(stack[1..]) ensures row != stack[0] && row in RowsOf(stack) {
      var i :| 0 <= i < |stack[1..]| && stack[1..][i] == row;
      assert Before(stack[0], stack[i + 1]);
    }
    assert stack == [stack[0]] + stack[1..];
  }

  /** No undated migration has anything below it that is still applied. */
  predicate DatedOrLast(stack: seq<Row>, k: nat)
    requires k <= |stack|
  {
    forall i | 0 <= i < k :: stack[i].at.Some? || i == |stack| - 1
  }

  /**
   * A plan that is the top of the stack runs to its end, newest first, and leaves exactly the rest
   * applied — if and only if no undated migration in it has others below.
   */
  lemma {:induction false} TopOfStackFinishesIff(stack: seq<Row>, k: nat)
    requires IsStack(stack) && k <= |stack|
    ensures DatedOrLast(stack, k) ==> RunJobs(RowsOf(stack), stack[..k]) == Some(RowsOf(stack[k..]))
    ensures !DatedOrLast(stack, k) ==> RunJobs(RowsOf(stack), stack[..k]) == None
    decreases k
  {
    if k == 0 {
      assert stack[0..] == stack;
    } else {
      TopIsBlockedIff(stack);
      TopComesOff(stack);
      TopOfStackFinishesIff(stack[1..], k - 1);
      assert stack[..k][0] == stack[0] && stack[..k][1..] == stack[1..][..k - 1] && stack[1..][k - 1..] == stack[k..];
      assert forall i | 0 < i < k :: stack[1..][i - 1] == stack[i];
    }
  }

  /** Something applied before the others in the stack blocks whatever is below it. */
  lemma AboveBlocks(above: Row, below: Row)
    requires IsRow(above) && IsRow(below) && Before(above, below) && above.name != below.name
    ensures NewerThan(above, below)
  {
  }

  lemma {:induction false} SkippedBlocksAnyOrder(applied: set<Row>, jobs: seq<Row>, above: Row, below: Row)
    requires above in applied && above !in jobs && below in jobs && NewerThan(above, below)
    ensures RunJobs(applied, jobs) == None
    decreases |jobs|
  {
    if jobs[0] == below {
      assert Blocked(applied, jobs[0]);
    } else if !Blocked(applied, jobs[0]) {
      SkippedBlocksAnyOrder(applied - {jobs[0]}, jobs[1..], above, below);
    }
  }

  /** What a plan's jobs are, in whatever order: exactly the planned ones of the applied. */
  ghost predicate JobsOf(stack: seq<Row>, planned: set<int>, jobs: seq<Row>) {
    forall row :: row in jobs <==> row in stack && Planned(planned, row)
  }

  /** A refused plan cannot be carried out in any order. */
  lemma RefusedCannotFinish(stack: seq<Row>, planned: set<int>, jobs: seq<Row>, i: nat)
    requires IsStack(stack) && UniqueNames(stack) && JobsOf(stack, planned, jobs)
    requires i < |stack| && Skipped(stack, planned, i)
    ensures RunJobs(RowsOf(stack), jobs) == None
  {
    var j :| i < j < |stack| && Planned(planned, stack[j]);
    assert stack[i] in stack && stack[j] in stack && Before(stack[i], stack[j]);
    AboveBlocks(stack[i], stack[j]);
    SkippedBlocksAnyOrder(RowsOf(stack), jobs, stack[i], stack[j]);
  }

  /** Revert order: the planned rows, sorted, are the top of the stack as it stands. */
  lemma {:induction false} PlanIsThePrefix(stack: seq<Row>, planned: set<int>, k: nat, jobs: seq<Row>)
    requires IsStack(stack) && IsTop(stack, planned, k) && IsStack(jobs) && JobsOf(stack, planned, jobs)
    ensures jobs == stack[..k]
  {
    forall row | row in jobs ensures row in stack[..k] {
      var i :| 0 <= i < |stack| && stack[i] == row;
      assert Planned(planned, stack[i]) && stack[..k][i] == row;
    }
    forall i | 0 <= i < k ensures stack[i] in jobs {
      assert Planned(planned, stack[i]) && stack[i] in stack;
    }
    SameRowsSameStack(jobs, stack[..k]);
  }

  lemma HeadIsNewest(stack: seq<Row>, row: Row)
    requires IsStack(stack) && row in stack
    ensures row == stack[0] || Before(stack[0], row)
  {
  }

  /** Sorting leaves no choice: two stacks of the same rows are the same. */
  lemma {:induction false} SameRowsSameStack(a: seq<Row>, b: seq<Row>)
    requires IsStack(a) && IsStack(b) && forall row :: row in a <==> row in b
    ensures a == b
    decreases |a|
  {
    assert b == [] || b[0] in b;
    assert a == [] || a[0] in a;
    if a != [] {
      HeadIsNewest(a, b[0]);
      HeadIsNewest(b, a[0]);
      TopComesOff(a);
      TopComesOff(b);
      forall row ensures row in a[1..] <==> row in b[1..] {
        assert row in a[1..] <==> row in RowsOf(a[1..]);
        assert row in b[1..] <==> row in RowsOf(b[1..]);
      }
      SameRowsSameStack(a[1..], b[1..]);
    }
  }

  lemma StackNamesAreUnique(rows: seq<Row>, stack: seq<Row>)
    requires UniqueNames(rows) && IsStack(stack) && forall r :: r in stack <==> r in rows
    ensures UniqueNames(stack)
  {
    forall i, j | 0 <= i < j < |stack| ensures stack[i].name != stack[j].name {
      assert stack[i] in rows && stack[j] in rows && Before(stack[i], stack[j]);
    }
  }

  /** `assertTopOfStack` lets the plan through. */
  ghost predicate Accepted(rows: seq<Row>, planned: set<int>) {
    exists k :: IsTop(NewestFirst(rows), planned, k)
  }

  /**
   * The whole of it, from the applied rows in any order: a plan accepted and put in revert order finishes
   * exactly if no undated migration in it has others below — always, if all are dated — ending with the
   * rest of the stack applied; a plan refused fails in every order.
   */
  lemma AcceptedIffItCanFinish(rows: seq<Row>, planned: set<int>, jobs: seq<Row>, shuffled: seq<Row>) returns (k: nat)
    requires UniqueNames(rows) && forall row <- rows :: IsRow(row)
    requires IsStack(jobs) && JobsOf(rows, planned, jobs) && JobsOf(rows, planned, shuffled)
    ensures k <= |NewestFirst(rows)|
    ensures Accepted(rows, planned) ==>
              && IsTop(NewestFirst(rows), planned, k)
              && (DatedOrLast(NewestFirst(rows), k) <==> RunJobs(RowsOf(rows), jobs).Some?)
              && (DatedOrLast(NewestFirst(rows), k) ==> RunJobs(RowsOf(rows), jobs) == Some(RowsOf(NewestFirst(rows)[k..])))
    ensures Accepted(rows, planned) && (forall row <- rows :: row.at.Some?) ==> DatedOrLast(NewestFirst(rows), k)
    ensures !Accepted(rows, planned) ==> RunJobs(RowsOf(rows), shuffled) == None
  {
    k := 0;
    NewestFirstIsAStack(rows);
    var stack := NewestFirst(rows);
    assert RowsOf(stack) == RowsOf(rows);
    if Accepted(rows, planned) {
      k :| IsTop(stack, planned, k);
      PlanIsThePrefix(stack, planned, k, jobs);
      TopOfStackFinishesIff(stack, k);
      assert forall i | 0 <= i < k :: stack[i] in rows;
    } else {
      StackNamesAreUnique(rows, stack);
      var i := SomeSkipped(stack, planned, |stack|);
      RefusedCannotFinish(stack, planned, shuffled, i);
    }
  }

  /** Two migrations applied without a date, both to be reverted: accepted, and the first job is blocked. */
  lemma AnAcceptedPlanCanBeBlocked()
    ensures
      var rows := [Row(1, None), Row(2, None)];
      var jobs := [Row(2, None), Row(1, None)];
      && Accepted(rows, {1, 2}) && IsStack(jobs) && JobsOf(rows, {1, 2}, jobs)
      && RunJobs(RowsOf(rows), jobs) == None
  {
    var rows := [Row(1, None), Row(2, None)];
    var jobs := [Row(2, None), Row(1, None)];
    assert NewestFirst(rows[1..]) == [Row(2, None)] by {
      assert rows[1..][1..] == [];
    }
    assert NewestFirst(rows) == jobs;
    assert IsTop(jobs, {1, 2}, 2);
    assert Row(1, None) in RowsOf(rows) && NewerThan(Row(1, None), jobs[0]);
    assert Blocked(RowsOf(rows), jobs[0]);
  }

  /** No prefix: then something is skipped. */
  lemma {:induction false} SomeSkipped(stack: seq<Row>, planned: set<int>, n: nat) returns (i: nat)
    requires n <= |stack| && !(exists k :: IsTop(stack, planned, k))
    requires forall j | n <= j < |stack| :: !Planned(planned, stack[j])
    ensures i < |stack| && Skipped(stack, planned, i)
    decreases n
  {
    assert !IsTop(stack, planned, n);
    i :| 0 <= i < n && !Planned(planned, stack[i]);
    if !Planned(planned, stack[n - 1]) {
      i := SomeSkipped(stack, planned, n - 1);
    } else {
      assert i < n - 1;
    }
  }

  // ---- The changelog the jobs work on

  datatype Status = Applied | Reverted

  datatype Record = Record(status: Status, at: Option<nat>)

  /** The applied records. */
  function Rows(records: map<int, Record>): set<Row> {
    set name | name in records && records[name].status == Applied :: Row(name, records[name].at)
  }

  class Changelog {
    var records: map<int, Record>

    constructor (records: map<int, Record>)
      ensures this.records == records
    {
      this.records := records;
    }

    function AppliedRows(): set<Row>
      reads this
    {
      Rows(records)
    }

    /** The applied records newer than this one. */
    method GetAppliedNewerThan(row: Row) returns (newer: set<Row>)
      ensures newer == set other | other in AppliedRows() && NewerThan(other, row)
      ensures newer == {} <==> !Blocked(AppliedRows(), row)
    {
      newer := set other | other in AppliedRows() && NewerThan(other, row);
      if newer != {} {
        var other :| other in newer;
        assert Blocked(AppliedRows(), row);
      }
      assert forall other :: other in AppliedRows() && NewerThan(other, row) ==> other in newer;
    }

    /** Only an applied record is reverted, and it keeps everything else it says. */
    method MarkReverted(name: int) returns (matched: bool)
      modifies this
      ensures matched <==> name in old(records) && old(records)[name].status == Applied
      ensures !matched ==> records == old(records)
      ensures matched ==> records == old(records)[name := old(records)[name].(status := Reverted)]
    {
      matched := name in records && records[name].status == Applied;
      if matched { records := records[name := records[name].(status := Reverted)]; }
    }

    /** The worker's side of a rollback: the jobs in order, the first that is blocked ends it. */
    method RunDown(jobs: seq<Row>) returns (blocked: Option<Row>)
      requires forall row <- jobs :: row in AppliedRows()
      requires forall i, j | 0 <= i < j < |jobs| :: jobs[i].name != jobs[j].name
      modifies this
      ensures blocked.None? <==> RunJobs(old(AppliedRows()), jobs).Some?
      ensures blocked.None? ==> RunJobs(old(AppliedRows()), jobs) == Some(AppliedRows())
      ensures records.Keys == old(records).Keys
      ensures forall name <- records :: records[name].at == old(records)[name].at
    {
      for i := 0 to |jobs|
        invariant records.Keys == old(records).Keys && forall name <- records :: records[name].at == old(records)[name].at
        invariant forall k | i <= k < |jobs| :: jobs[k] in AppliedRows()
        invariant RunJobs(old(AppliedRows()), jobs) == RunJobs(AppliedRows(), jobs[i..])
      {
        ghost var before := AppliedRows();
        ghost var was := records;
        var newer := GetAppliedNewerThan(jobs[i]);
        if newer != {} { return Some(jobs[i]); }
        var matched := MarkReverted(jobs[i].name);
        assert jobs[i..][1..] == jobs[i + 1..];
        RevertedIsGone(was, jobs[i]);
        assert AppliedRows() == before - {jobs[i]};
      }
      blocked := None;
    }
  }

  lemma RevertedIsGone(records: map<int, Record>, row: Row)
    requires row in Rows(records)
    ensures Rows(records[row.name := records[row.name].(status := Reverted)]) == Rows(records) - {row}
  {
    var records' := records[row.name := records[row.name].(status := Reverted)];
    forall r | r in Rows(records) - {row} ensures r in Rows(records') {
      assert Row(r.name, records'[r.name].at) == r;
    }
  }
}
