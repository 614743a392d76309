/**
 * A run in which progress falls: a coordinator stalls between its commit and the clean-up, the pass
 * closes and the next plan is under way without it, and then it cleans up (src/core/background.js:456-503).
 */
module StaleCleanUp {
  import opened Wrappers
  import opened Coordination
  import opened CoordinationInv
  import opened RollUps
  import opened Totals
  import S = Store

  const NEW := System(
    StateDoc(Status.Pending, Partitioning, 0, None, 0, 0, map[], [], 0), S.EMPTY, {7}, map[], 0,
    map[], map[], map[], {}, false, map[], {}, None)

  const ONE := StateDoc(Status.Pending, Processing, 1, Some(0), 1, 0, map[], [], 0)
  const STALLED := Coord(ONE, 0, Committed)
  const PLANNED := NEW.(nextPlan := 1, plans := map[1 := 0], origin := map[0 := Origin(1, 0, 0)])

  /** Coordinator 0 inserts an empty first plan, under token 0. */
  lemma Plans(cfg: Config) returns (s: System)
    ensures Reaches(cfg, NEW, s) && Initial(NEW)
    ensures s == NEW.(coords := map[0 := Coord(NEW.state, 0, Inserted(0))], nextPlan := 1, origin := map[0 := Origin(1, 0, 0)])
  {
    assert Run(cfg, NEW, []) && After(cfg, NEW, []) == NEW;
    var loaded := Then(cfg, NEW, NEW, Load(0));
    s := Then(cfg, NEW, loaded, InsertPlan(0, []));
    assert s == NextInsert(loaded, 0, []);
    assert s.db.parts == map[] && s.db == S.EMPTY;
  }

  /** It commits it, and stalls there. */
  lemma Stalls(cfg: Config) returns (s: System)
    ensures Reaches(cfg, NEW, s)
    ensures s == PLANNED.(state := ONE, coords := map[0 := STALLED])
  {
    var planned := Plans(cfg);
    s := Then(cfg, NEW, planned, CommitPlan(0));
    assert s == NextCommit(planned, 0);
  }

  const CLOSED := ONE.(rolled := 1)
  const ROLLED := PLANNED.(state := CLOSED, failedAt := map[1 := 0])

  /** Coordinator 1 finds that pass drained. */
  lemma FindsItDrained(cfg: Config) returns (s: System)
    ensures Reaches(cfg, NEW, s)
    ensures s == PLANNED.(state := ONE, coords := map[0 := STALLED, 1 := Coord(ONE, 1, Drained)])
  {
    s := Stalls(cfg);
    s := Then(cfg, NEW, s, Load(1));
    s := Then(cfg, NEW, s, FindDrained(1));
  }

  /** And sums it up: nothing. */
  lemma SumsNothing(cfg: Config) returns (s: System)
    ensures Reaches(cfg, NEW, s)
    ensures s == PLANNED.(state := ONE, coords := map[0 := STALLED, 1 := Coord(ONE, 1, Summed(map[], [], 0))])
  {
    s := FindsItDrained(cfg);
    s := Then(cfg, NEW, s, SumTotals(1));
    assert FailedOf(s, 1) == 0;
    assert s.coords[1] == Coord(ONE, 1, Summed(map[], [], 0));
  }

  /** It rolls that up. */
  lemma RollsUp(cfg: Config) returns (s: System)
    ensures Reaches(cfg, NEW, s)
    ensures s == ROLLED.(coords := map[0 := STALLED, 1 := Coord(CLOSED, 1, RolledUp)])
  {
    var summed := SumsNothing(cfg);
    s := Then(cfg, NEW, summed, RollUp(1));
    assert s == NextRollUp(summed, 1);
  }

  /** And still counts a document. */
  lemma CountsADocument(cfg: Config) returns (s: System)
    ensures Reaches(cfg, NEW, s)
    ensures s == ROLLED.(coords := map[0 := STALLED, 1 := Coord(CLOSED, 1, Counted(false))])
  {
    s := RollsUp(cfg);
    assert 7 in s.matching && 7 !in s.coords[1].st.badIds;
    s := Then(cfg, NEW, s, CountLeft(1));
  }

  const AGAIN := CLOSED.(phase := Partitioning)

  /** So another pass starts. */
  lemma StartsAgain(cfg: Config) returns (s: System)
    requires cfg.maxPasses > 1
    ensures Reaches(cfg, NEW, s)
    ensures s == ROLLED.(state := AGAIN, coords := map[0 := STALLED, 1 := Coord(AGAIN, 0, Loaded)])
  {
    s := CountsADocument(cfg);
    s := Then(cfg, NEW, s, NextPass(1));
    s := Then(cfg, NEW, s, Load(1));
  }

  const TWO := AGAIN.(phase := Processing, generation := 2, plan := Some(1), pass := 2)

  /** Its plan, of one partition, is committed. */
  lemma IsOvertaken(cfg: Config) returns (s: System)
    requires cfg.maxPasses > 1
    ensures Reaches(cfg, NEW, s)
    ensures s.state == TWO && 0 in s.coords && s.coords[0] == STALLED && s.plans == map[1 := 0, 2 := 1]
    ensures s.db == S.Insert(S.EMPTY, 2, 1, [None])
  {
    s := StartsAgain(cfg);
    s := Then(cfg, NEW, s, InsertPlan(1, [None]));
    s := Then(cfg, NEW, s, CommitPlan(1));
  }

  const FRESH := S.Partition(2, 1, 0, None, S.Status.Pending, None, 0, map[], [], 0, 0, 0)

  const HELD := FRESH.(status := S.Status.Running, lease := Some(S.Lease(0, None, 0, 60, 0)), claims := 1)

  lemma InsertsOne(db: S.Db, generation: nat, plan: nat)
    requires db.nextId !in db.parts
    ensures
      var part := S.Partition(generation, plan, 0, None, S.Status.Pending, None, 0, map[], [], 0, 0, 0);
      S.Insert(db, generation, plan, [None]) == db.(parts := db.parts[db.nextId := part], nextId := db.nextId + 1)
  {
    var groups: seq<Option<string>> := [None];
    var part := S.Planned(db, generation, plan, groups, db.nextId);
    var parts := S.Insert(db, generation, plan, groups).parts;
    forall pid | pid in parts ensures pid in db.parts[db.nextId := part] && parts[pid] == db.parts[db.nextId := part][pid] {
    }
    assert parts == db.parts[db.nextId := part];
  }

  lemma TheInsertWrites()
    ensures S.Insert(S.EMPTY, 2, 1, [None]) == S.Db(0, map[0 := FRESH], 1, 0)
  {
    InsertsOne(S.EMPTY, 2, 1);
    assert S.EMPTY.parts[0 := FRESH] == map[0 := FRESH];
  }

  lemma TheClaimWrites()
    ensures S.ClaimWrite(S.Db(0, map[0 := FRESH], 1, 0), 0, 2, 1, 0, None, 60) == S.Db(0, map[0 := HELD], 1, 1)
  {
    var db := S.Db(0, map[0 := FRESH], 1, 0);
    assert !S.SlotTaken(db.parts, 0);
    assert S.Claimed(db, FRESH, 0, None, 60) == HELD;
    assert db.parts[0 := HELD] == map[0 := HELD];
  }

  /** A lane claims it. */
  lemma IsClaimed(cfg: Config) returns (s: System)
    requires cfg.maxPasses > 1 && cfg.store.shardConcurrency.None?
    ensures Reaches(cfg, NEW, s)
    ensures s.state == TWO && 0 in s.coords && s.coords[0] == STALLED
    ensures s.db == S.Db(0, map[0 := HELD], 1, 1)
  {
    var planned := IsOvertaken(cfg);
    var claim := S.ClaimStep(0, 2, 1, 0, 0, 60);
    assert LaneStep(planned, claim);
    s := Then(cfg, NEW, planned, Lane(claim));
    assert s == NextLane(cfg, planned, claim);
    assert s.db == S.ClaimWrite(planned.db, 0, 2, 1, 0, None, 60);
    TheInsertWrites();
    TheClaimWrites();
  }

  const ONE_DOCUMENT := S.Progress(None, map["migrated" := 1], [], false)

  /** It counts one document. */
  lemma CountsOne(cfg: Config) returns (s: System)
    requires cfg.maxPasses > 1 && cfg.store.shardConcurrency.None?
    ensures Reaches(cfg, NEW, s)
    ensures s.state == TWO && 0 in s.coords && s.coords[0] == STALLED
    ensures s.db == S.Db(0, map[0 := S.Checkpointed(HELD, 0, ONE_DOCUMENT)], 1, 1)
  {
    var held := IsClaimed(cfg);
    s := Then(cfg, NEW, held, Lane(S.CheckpointStep(0, 0, ONE_DOCUMENT)));
    assert s == NextLane(cfg, held, S.CheckpointStep(0, 0, ONE_DOCUMENT));
    assert s.db == S.Checkpoint(held.db, 0, 0, ONE_DOCUMENT);
    assert s.db.parts == map[0 := S.Checkpointed(HELD, 0, ONE_DOCUMENT)];
  }

  /** Then the stalled coordinator's clean-up deletes the partition, and what it counted. */
  lemma ProgressCanFall(cfg: Config) returns (s: System)
    requires cfg.maxPasses > 1 && cfg.store.shardConcurrency.None?
    ensures Initial(NEW) && Reaches(cfg, NEW, s) && Enabled(cfg, s, DropForeign(0))
    ensures Progress(s, "migrated") == 1 && Progress(Next(cfg, s, DropForeign(0)), "migrated") == 0
  {
    s := CountsOne(cfg);
    var db' := S.DropForeignPlans(s.db, 0);
    assert db'.parts == map[] && Next(cfg, s, DropForeign(0)).db == db';
    assert TotalsOf(s.db.parts, 0, Above(1)) == map[];
    assert TotalsOf(db'.parts, 0, Above(1)) == map[];
  }
}
