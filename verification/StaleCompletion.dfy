/**
 * A run in which a state is completed with a pass that is no longer the current one: a coordinator counts
 * zero and stalls, the application stores the old shape again, another coordinator's next pass is under
 * way, and then the first one completes (src/core/background.js:597-603).
 */
module StaleCompletion {
  import opened Wrappers
  import opened Coordination
  import opened CoordinationInv
  import opened StaleCleanUp
  import S = Store

  const RESTED := ROLLED.(zeroCounted := {1})
  const DECIDED := Coord(CLOSED, 1, Counted(true))

  /** Coordinator 1 has rolled the first pass up, and finds nothing left to rewrite. */
  lemma CountsNothing(cfg: Config) returns (s: System)
    ensures Reaches(cfg, NEW, s)
    ensures s == RESTED.(matching := {}, coords := map[0 := STALLED, 1 := DECIDED])
  {
    s := RollsUp(cfg);
    s := Then(cfg, NEW, s, Writes({}));
    s := Then(cfg, NEW, s, CountLeft(1));
  }

  /** The old shape is written again; coordinator 2 reads the state. */
  lemma AnotherComes(cfg: Config) returns (s: System)
    ensures Reaches(cfg, NEW, s)
    ensures s == RESTED.(coords := map[0 := STALLED, 1 := DECIDED, 2 := Coord(CLOSED, 0, Loaded)])
  {
    s := CountsNothing(cfg);
    s := Then(cfg, NEW, s, Writes({7}));
    s := Then(cfg, NEW, s, Load(2));
  }

  /** It finds the pass drained, and rolled up. */
  lemma AnotherLooks(cfg: Config) returns (s: System)
    ensures Reaches(cfg, NEW, s)
    ensures s == RESTED.(coords := map[0 := STALLED, 1 := DECIDED, 2 := Coord(CLOSED, 1, RolledUp)])
  {
    s := AnotherComes(cfg);
    s := Then(cfg, NEW, s, FindDrained(2));
    s := Then(cfg, NEW, s, AlreadyRolledUp(2));
  }

  /** It counts the document, and starts another pass. */
  lemma AnotherStartsAgain(cfg: Config) returns (s: System)
    requires cfg.maxPasses > 1
    ensures Reaches(cfg, NEW, s)
    ensures s == RESTED.(state := AGAIN, coords := map[0 := STALLED, 1 := DECIDED, 2 := Coord(AGAIN, 0, Loaded)])
  {
    s := AnotherLooks(cfg);
    assert 7 in s.matching && 7 !in s.coords[2].st.badIds;
    s := Then(cfg, NEW, s, CountLeft(2));
    s := Then(cfg, NEW, s, NextPass(2));
    s := Then(cfg, NEW, s, Load(2));
  }

  /** Its plan, of one partition, is committed. */
  lemma AnotherPlans(cfg: Config) returns (s: System)
    requires cfg.maxPasses > 1
    ensures Reaches(cfg, NEW, s)
    ensures s.state == TWO && 1 in s.coords && s.coords[1] == DECIDED && s.plans == map[1 := 0, 2 := 1]
    ensures s.db == S.Db(0, map[0 := FRESH], 1, 0) && s.matching == {7} && !s.retried
  {
    s := AnotherStartsAgain(cfg);
    s := Then(cfg, NEW, s, InsertPlan(2, [None]));
    s := Then(cfg, NEW, s, CommitPlan(2));
    TheInsertWrites();
  }

  /** Then coordinator 1 completes: a document still matches, and the current plan has an open partition. */
  lemma CompletesWithAnOldPass(cfg: Config) returns (s: System)
    requires cfg.maxPasses > 1
    ensures Initial(NEW) && Reaches(cfg, NEW, s)
    ensures s.state.status == Completed && !s.retried && s.completed == Some(1) && s.state.generation == 2
    ensures s.matching == {7} && s.state.badIds == []
    ensures 0 in s.db.parts && IsCommitted(s, s.db.parts[0]) && S.Open(s.db.parts[0])
  {
    var planned := AnotherPlans(cfg);
    s := Then(cfg, NEW, planned, Complete(1));
    assert s == NextComplete(planned, 1);
  }
}
