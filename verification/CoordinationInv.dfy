/** What every step of coordinators, lanes and controls keeps, however stale a coordinator is. */
module CoordinationInv {
  import opened Wrappers
  import opened Totals
  import opened Coordination
  import S = Store
  import F = Fencing

  /** A generation is planned only once the one before it is rolled up. */
  ghost predicate DocInv(st: StateDoc) {
    && st.rolled <= st.generation <= st.rolled + 1
    && (st.phase == Partitioning ==> st.rolled == st.generation)
    && (st.plan.None? <==> st.generation == 0)
    && (st.generation == 0 ==> st.phase == Partitioning)
  }

  ghost predicate PlansInv(s: System) {
    && (forall g :: g in s.plans <==> 1 <= g <= s.state.generation)
    && (s.state.generation > 0 ==> s.state.plan == Some(s.plans[s.state.generation]))
    && (forall token <- s.origin :: token < s.nextPlan)
    && (forall g <- s.plans :: s.plans[g] in s.origin && s.origin[s.plans[g]].generation == g)
  }

  ghost predicate PartInv(s: System, pid: nat)
    requires pid in s.db.parts
  {
    var part := s.db.parts[pid];
    // Every partition of a plan comes from the one insert of that plan.
    && part.plan in s.origin && s.origin[part.plan].generation == part.generation
    && s.origin[part.plan].first <= pid < s.origin[part.plan].first + s.origin[part.plan].count
    // One that lost the race, or has not won it yet, was never claimed.
    && (!IsCommitted(s, part) ==> part.status == S.Status.Pending && part.lease.None? && part.counters == map[])
    && part.status != S.Status.Superseded
    // A rolled-up generation is closed.
    && (IsCommitted(s, part) && part.generation <= s.state.rolled ==> !S.Open(part))
  }

  ghost predicate PartsInv(s: System) {
    F.FenceInv(s.db) && forall pid <- s.db.parts :: PartInv(s, pid)
  }

  predicate Pending(pc: Pc) { pc.Inserted? || pc.Lost? }

  predicate Closing(pc: Pc) { pc.RolledUp? || pc.Counted? || pc.Closing? }

  ghost predicate CoordInv(s: System, me: Coord) {
    && DocInv(me.st) && me.st.generation <= s.state.generation && me.st.rolled <= s.state.rolled
    && (me.st.generation > 0 ==> me.st.generation in s.plans && me.st.plan == Some(s.plans[me.st.generation]))
    && (Pending(me.pc) ==> me.pc.token in s.origin && forall g <- s.plans :: s.plans[g] != me.pc.token)
    && (me.pc.Inserted? ==> s.origin[me.pc.token].generation == me.st.generation + 1 && me.st.phase == Partitioning)
    && (me.pc.Committed? ==> me.st.generation > 0)
    && (me.pc.Drained? || me.pc.Summed? ==>
          me.gen in s.plans && me.gen <= me.st.generation && NoneOpen(s.db, me.gen, s.plans[me.gen]))
    && (Closing(me.pc) ==> 1 <= me.gen <= me.st.rolled)
  }

  ghost predicate CoordsInv(s: System) {
    forall c <- s.coords :: CoordInv(s, s.coords[c])
  }

  /** No two coordinators hold the same plan that is not committed. */
  ghost predicate TokensInv(s: System) {
    forall c, d | c in s.coords && d in s.coords && c != d && Pending(s.coords[c].pc) && Pending(s.coords[d].pc) ::
      s.coords[c].pc.token != s.coords[d].pc.token
  }

  ghost predicate Inv(s: System) {
    DocInv(s.state) && PlansInv(s) && PartsInv(s) && CoordsInv(s) && TokensInv(s)
  }

  ghost predicate Initial(s: System) {
    && s.state.generation == 0 && s.state.rolled == 0 && s.state.plan.None? && s.state.phase == Partitioning
    && s.state.pass == 0 && s.state.totals == map[] && s.state.failedPartitions == 0 && s.state.status != Completed
    && s.db == S.EMPTY && s.coords == map[] && s.plans == map[] && s.origin == map[]
    && s.state.badIds == [] && s.landed == map[] && s.reported == {}
    && !s.retried && s.failedAt == map[] && s.zeroCounted == {} && s.completed.None?
  }

  // ---- What the parts of the invariant depend on

  lemma PartsFrame(s: System, s': System)
    requires PartsInv(s)
    requires s'.db == s.db && s'.plans == s.plans && s'.origin == s.origin && s'.state.rolled == s.state.rolled
    ensures PartsInv(s')
  {
    forall pid | pid in s'.db.parts ensures PartInv(s', pid) {
      assert PartInv(s, pid);
    }
  }

  lemma CoordFrame(s: System, s': System, me: Coord)
    requires CoordInv(s, me)
    requires s'.db == s.db && s'.plans == s.plans && s'.origin == s.origin
    requires s'.state.generation == s.state.generation && s'.state.rolled == s.state.rolled
    ensures CoordInv(s', me)
  {
  }

  // ---- Steps that leave the state document alone

  /** Partitions go or stay; none opens, and one that was never committed stays as it is. */
  ghost predicate Quiet(s: System, db: S.Db) {
    && F.FenceInv(db) && db.nextId >= s.db.nextId
    && forall pid <- db.parts ::
         && pid in s.db.parts
         && db.parts[pid].generation == s.db.parts[pid].generation && db.parts[pid].plan == s.db.parts[pid].plan
         && (S.Open(db.parts[pid]) ==> S.Open(s.db.parts[pid]))
         && (db.parts[pid].status == S.Status.Superseded ==> s.db.parts[pid].status == S.Status.Superseded)
         && (!IsCommitted(s, s.db.parts[pid]) ==> db.parts[pid] == s.db.parts[pid])
  }

  lemma QuietKeepsParts(s: System, db: S.Db)
    requires PartsInv(s) && Quiet(s, db)
    ensures PartsInv(s.(db := db))
  {
    forall pid | pid in db.parts ensures PartInv(s.(db := db), pid) {
      assert PartInv(s, pid);
    }
  }

  lemma QuietKeepsInv(s: System, db: S.Db)
    requires Inv(s) && Quiet(s, db)
    ensures Inv(s.(db := db))
  {
    var s' := s.(db := db);
    QuietKeepsParts(s, db);
    forall c | c in s.coords ensures CoordInv(s', s'.coords[c]) {
      assert CoordInv(s, s.coords[c]);
    }
  }

  lemma ClaimIsQuiet(cfg: Config, s: System, step: S.Step)
    requires Inv(s) && LaneStep(s, step) && step.ClaimStep?
    ensures Quiet(s, S.Apply(cfg.store, s.db, step))
  {
    F.ClaimMoves(cfg.store, s.db, step);
  }

  lemma RenewalsAreQuiet(cfg: Config, s: System, step: S.Step)
    requires PartsInv(s) && (step.RenewStep? || step.ReleaseStep?)
    ensures Quiet(s, S.Apply(cfg.store, s.db, step))
  {
    F.RenewalMoves(cfg.store, s.db, step);
    if step.pid in s.db.parts {
      assert PartInv(s, step.pid);
    }
  }

  lemma CheckpointsAreQuiet(cfg: Config, s: System, step: S.Step)
    requires PartsInv(s) && step.CheckpointStep?
    ensures Quiet(s, S.Apply(cfg.store, s.db, step))
  {
    F.CheckpointMoves(cfg.store, s.db, step);
    if step.pid in s.db.parts {
      assert PartInv(s, step.pid);
    }
  }

  lemma FailuresAreQuiet(cfg: Config, s: System, step: S.Step)
    requires PartsInv(s) && LaneStep(s, step) && (step.FailSliceStep? || step.FailPartitionStep?)
    ensures Quiet(s, S.Apply(cfg.store, s.db, step))
  {
    F.FailureMoves(cfg.store, s.db, step);
  }

  lemma UnleasingIsQuiet(cfg: Config, s: System, step: S.Step)
    requires PartsInv(s) && (step.Tick? || step.ReapStep? || step.UnlockStep?)
    ensures Quiet(s, S.Apply(cfg.store, s.db, step))
  {
    F.UnleasingMoves(cfg.store, s.db, step);
    forall pid | pid in s.db.parts ensures PartInv(s, pid) {
    }
  }

  lemma LaneIsQuiet(cfg: Config, s: System, step: S.Step)
    requires Inv(s) && LaneStep(s, step)
    ensures Quiet(s, S.Apply(cfg.store, s.db, step))
  {
    if step.ClaimStep? {
      ClaimIsQuiet(cfg, s, step);
    } else if step.RenewStep? || step.ReleaseStep? {
      RenewalsAreQuiet(cfg, s, step);
    } else if step.CheckpointStep? {
      CheckpointsAreQuiet(cfg, s, step);
    } else if step.FailSliceStep? || step.FailPartitionStep? {
      FailuresAreQuiet(cfg, s, step);
    } else {
      UnleasingIsQuiet(cfg, s, step);
    }
  }

  lemma DropPlanIsQuiet(s: System, token: nat)
    requires F.FenceInv(s.db)
    ensures Quiet(s, S.DropPlan(s.db, token))
  {
  }

  lemma DropForeignIsQuiet(s: System, token: nat)
    requires F.FenceInv(s.db)
    ensures Quiet(s, S.DropForeignPlans(s.db, token))
  {
  }

  lemma DropGenerationsIsQuiet(s: System, upTo: int)
    requires F.FenceInv(s.db)
    ensures Quiet(s, S.DropGenerations(s.db, upTo))
  {
  }

  lemma CancelIsQuiet(s: System, generation: nat)
    requires PlansInv(s) && F.FenceInv(s.db) && generation in s.plans
    ensures Quiet(s, S.CancelOpen(s.db, generation, s.plans[generation]))
  {
  }

  /** One coordinator moves on: what it knows still holds. */
  lemma CoordKeepsInv(s: System, c: nat, me: Coord)
    requires Inv(s) && CoordInv(s, me)
    requires Pending(me.pc) ==> c in s.coords && Pending(s.coords[c].pc) && s.coords[c].pc.token == me.pc.token
    ensures Inv(With(s, c, me))
  {
    var s' := With(s, c, me);
    PartsFrame(s, s');
    CoordFrame(s, s', me);
    forall d | d in s'.coords ensures CoordInv(s', s'.coords[d]) {
      if d != c {
        CoordFrame(s, s', s.coords[d]);
      }
    }
  }

  lemma WithoutKeepsInv(s: System, c: nat)
    requires Inv(s)
    ensures Inv(s.(coords := s.coords - {c}))
  {
    var s' := s.(coords := s.coords - {c});
    PartsFrame(s, s');
    forall d | d in s'.coords ensures CoordInv(s', s'.coords[d]) {
      CoordFrame(s, s', s.coords[d]);
    }
  }

  /** A change of status, phase or counts that keeps generation, plan and roll-up. */
  lemma StateKeepsInv(s: System, st: StateDoc)
    requires Inv(s) && DocInv(st)
    requires st.generation == s.state.generation && st.plan == s.state.plan && st.rolled == s.state.rolled
    ensures Inv(s.(state := st))
  {
    var s' := s.(state := st);
    PartsFrame(s, s');
    forall d | d in s'.coords ensures CoordInv(s', s'.coords[d]) {
      CoordFrame(s, s', s.coords[d]);
    }
  }

  /** Inv says nothing about the history that only the conservation laws use. */
  lemma HistoryKeepsInv(s: System, s': System)
    requires Inv(s)
    requires s'.state == s.state && s'.db == s.db && s'.coords == s.coords && s'.nextPlan == s.nextPlan
    requires s'.plans == s.plans && s'.origin == s.origin
    ensures Inv(s')
  {
    PartsFrame(s, s');
    forall d | d in s'.coords ensures CoordInv(s', s'.coords[d]) {
      CoordFrame(s, s', s.coords[d]);
    }
  }

  /** All but history, the state's status, phase and counts, and one coordinator is as it was. */
  ghost predicate SameButOne(s: System, s': System, c: nat) {
    && s'.db == s.db && s'.plans == s.plans && s'.origin == s.origin && s'.nextPlan == s.nextPlan
    && s'.state.generation == s.state.generation && s'.state.plan == s.state.plan && s'.state.rolled == s.state.rolled
    && forall d <- s'.coords :: d != c ==> d in s.coords && s'.coords[d] == s.coords[d]
  }

  lemma OthersStayAsTheyWere(s: System, s': System, c: nat)
    requires CoordsInv(s) && SameButOne(s, s', c) && (c in s'.coords ==> CoordInv(s, s'.coords[c]))
    ensures CoordsInv(s')
  {
    forall d | d in s'.coords ensures CoordInv(s', s'.coords[d]) {
      if d != c {
        assert d in s.coords;
      }
      CoordFrame(s, s', s'.coords[d]);
    }
  }

  lemma OthersKeepTheirTokens(s: System, s': System, c: nat)
    requires TokensInv(s) && SameButOne(s, s', c) && (c in s'.coords ==> !Pending(s'.coords[c].pc))
    ensures TokensInv(s')
  {
    forall d | d in s'.coords && d != c ensures d in s.coords && s'.coords[d] == s.coords[d] {
    }
  }

  lemma OneMovesOn(s: System, s': System, c: nat)
    requires Inv(s) && DocInv(s'.state) && SameButOne(s, s', c)
    requires c in s'.coords ==> CoordInv(s, s'.coords[c]) && !Pending(s'.coords[c].pc)
    ensures Inv(s')
  {
    PartsFrame(s, s');
    OthersStayAsTheyWere(s, s', c);
    OthersKeepTheirTokens(s, s', c);
  }

  /** Closing a pass, a coordinator's knowledge does not depend on how far it is. */
  lemma ClosingGoesOn(s: System, me: Coord, pc: Pc)
    requires CoordInv(s, me) && Closing(me.pc) && Closing(pc)
    ensures CoordInv(s, me.(pc := pc))
  {
  }

  // ---- Plans

  lemma InsertKeepsFences(db: S.Db, generation: nat, plan: nat, groups: seq<Option<string>>)
    requires F.FenceInv(db)
    ensures F.FenceInv(S.Insert(db, generation, plan, groups))
  {
  }

  lemma InsertKeepsPlans(s: System, c: nat, groups: seq<Option<string>>)
    requires PlansInv(s) && c in s.coords
    ensures PlansInv(NextInsert(s, c, groups))
  {
  }

  lemma InsertedPart(s: System, c: nat, groups: seq<Option<string>>, pid: nat)
    requires PlansInv(s) && c in s.coords && s.db.nextId <= pid < s.db.nextId + |groups|
    ensures pid in NextInsert(s, c, groups).db.parts && PartInv(NextInsert(s, c, groups), pid)
  {
    assert NextInsert(s, c, groups).db.parts[pid] == S.Planned(s.db, s.coords[c].st.generation + 1, s.nextPlan, groups, pid);
  }

  lemma UninsertedPart(s: System, c: nat, groups: seq<Option<string>>, pid: nat)
    requires PlansInv(s) && PartsInv(s) && c in s.coords && pid in s.db.parts
    ensures pid in NextInsert(s, c, groups).db.parts && PartInv(NextInsert(s, c, groups), pid)
  {
    assert PartInv(s, pid) && pid < s.db.nextId;
    assert NextInsert(s, c, groups).db.parts[pid] == s.db.parts[pid];
  }

  lemma InsertKeepsParts(s: System, c: nat, groups: seq<Option<string>>)
    requires PlansInv(s) && PartsInv(s) && c in s.coords
    ensures PartsInv(NextInsert(s, c, groups))
  {
    var s' := NextInsert(s, c, groups);
    assert F.FenceInv(s'.db) by {
      InsertKeepsFences(s.db, s.coords[c].st.generation + 1, s.nextPlan, groups);
    }
    forall pid | pid in s'.db.parts ensures PartInv(s', pid) {
      if pid in s.db.parts {
        UninsertedPart(s, c, groups, pid);
      } else {
        InsertedPart(s, c, groups, pid);
      }
    }
  }

  lemma InsertKeepsInv(s: System, c: nat, groups: seq<Option<string>>)
    requires Inv(s) && c in s.coords && s.coords[c].pc.Loaded? && s.coords[c].st.phase == Partitioning
    ensures Inv(NextInsert(s, c, groups))
  {
    var s' := NextInsert(s, c, groups);
    InsertKeepsPlans(s, c, groups);
    InsertKeepsParts(s, c, groups);
    forall d | d in s'.coords ensures CoordInv(s', s'.coords[d]) {
      InsertKeepsCoord(s, c, groups, d);
    }
    assert TokensInv(s') by {
      forall d | d in s.coords && Pending(s.coords[d].pc) ensures s.coords[d].pc.token < s.nextPlan {
        assert CoordInv(s, s.coords[d]);
      }
    }
  }

  lemma InsertKeepsCoord(s: System, c: nat, groups: seq<Option<string>>, d: nat)
    requires Inv(s) && c in s.coords && s.coords[c].pc.Loaded? && s.coords[c].st.phase == Partitioning && d in s.coords
    ensures CoordInv(NextInsert(s, c, groups), NextInsert(s, c, groups).coords[d])
  {
    assert CoordInv(s, s.coords[d]);
    if d != c && (s.coords[d].pc.Drained? || s.coords[d].pc.Summed?) {
      InsertOpensNothing(s, c, groups, s.coords[d].gen);
    }
  }

  lemma InsertOpensNothing(s: System, c: nat, groups: seq<Option<string>>, gen: nat)
    requires Inv(s) && c in s.coords && gen in s.plans && NoneOpen(s.db, gen, s.plans[gen])
    ensures NoneOpen(NextInsert(s, c, groups).db, gen, s.plans[gen])
  {
    assert s.plans[gen] in s.origin;
  }

  /** The compare-and-set went through: the plan inserted is the one committed. */
  ghost predicate Wins(s: System, c: nat)
    requires c in s.coords
  {
    s.state.generation == s.coords[c].st.generation && s.state.plan == s.coords[c].st.plan && Live(s.state.status)
  }

  lemma CommitKeepsParts(s: System, c: nat)
    requires Inv(s) && c in s.coords && s.coords[c].pc.Inserted? && Wins(s, c)
    ensures PartsInv(NextCommit(s, c)) && PlansInv(NextCommit(s, c)) && DocInv(NextCommit(s, c).state)
  {
    var s' := NextCommit(s, c);
    assert CoordInv(s, s.coords[c]);
    forall pid | pid in s'.db.parts ensures PartInv(s', pid) {
      assert PartInv(s, pid);
    }
  }

  lemma CommitKeepsCoords(s: System, c: nat, d: nat)
    requires Inv(s) && c in s.coords && s.coords[c].pc.Inserted? && Wins(s, c) && d in s.coords
    ensures CoordInv(NextCommit(s, c), NextCommit(s, c).coords[d])
  {
    CommitKeepsParts(s, c);
    assert CoordInv(s, s.coords[d]) && CoordInv(s, s.coords[c]);
  }

  lemma CommitKeepsInv(s: System, c: nat)
    requires Inv(s) && c in s.coords && s.coords[c].pc.Inserted?
    ensures Inv(NextCommit(s, c))
  {
    if Wins(s, c) {
      CommitKeepsParts(s, c);
      forall d | d in s.coords { CommitKeepsCoords(s, c, d); }
    } else {
      assert CoordInv(s, s.coords[c]);
      CoordKeepsInv(s, c, s.coords[c].(pc := Lost(s.coords[c].pc.token)));
    }
  }

  lemma RollUpKeepsInv(s: System, c: nat)
    requires Inv(s) && c in s.coords && s.coords[c].pc.Summed?
    ensures Inv(NextRollUp(s, c))
  {
    var s' := NextRollUp(s, c);
    var me := s.coords[c];
    assert CoordInv(s, me);
    forall pid | pid in s'.db.parts ensures PartInv(s', pid) {
      assert PartInv(s, pid);
    }
    forall d | d in s'.coords ensures CoordInv(s', s'.coords[d]) {
      assert CoordInv(s, s.coords[d]);
    }
  }

  lemma RetryKeepsParts(s: System)
    requires DocInv(s.state) && PlansInv(s) && PartsInv(s)
    ensures PartsInv(NextRetry(s))
  {
    var s' := NextRetry(s);
    forall pid | pid in s'.db.parts ensures PartInv(s', pid) {
      assert PartInv(s, pid);
    }
  }

  lemma RetryKeepsCoord(s: System, me: Coord)
    requires DocInv(s.state) && PlansInv(s) && CoordInv(s, me)
    requires ClosedPass(s.state) || !((me.pc.Drained? || me.pc.Summed?) && me.gen == s.state.generation)
    ensures CoordInv(NextRetry(s), me)
  {
  }

  lemma RetryKeepsInv(s: System)
    requires Inv(s) && (ClosedPass(s.state) || forall c <- s.coords :: !Closes(s, c))
    ensures Inv(NextRetry(s))
  {
    var s' := NextRetry(s);
    RetryKeepsParts(s);
    forall d | d in s'.coords ensures CoordInv(s', s'.coords[d]) {
      assert CoordInv(s, s.coords[d]) && (ClosedPass(s.state) || !Closes(s, d));
      RetryKeepsCoord(s, s.coords[d]);
    }
  }

  // ---- Every step, every run

  lemma StateAndCoordKeepInv(s: System, st: StateDoc, c: nat, me: Coord)
    requires Inv(s) && DocInv(st) && CoordInv(s.(state := st), me) && !Pending(me.pc)
    requires st.generation == s.state.generation && st.plan == s.state.plan && st.rolled == s.state.rolled
    ensures Inv(With(s.(state := st), c, me))
  {
    StateKeepsInv(s, st);
    CoordKeepsInv(s.(state := st), c, me);
  }

  lemma DropAndCoordKeepInv(s: System, db: S.Db, c: nat, me: Coord)
    requires Inv(s) && Quiet(s, db) && CoordInv(s, me) && !Pending(me.pc)
    requires !me.pc.Drained? && !me.pc.Summed?
    ensures Inv(With(s.(db := db), c, me))
  {
    QuietKeepsInv(s, db);
    CoordKeepsInv(s.(db := db), c, me);
  }

  lemma CountLeftIsAMove(s: System, c: nat)
    requires c in s.coords && s.coords[c].pc.RolledUp? && CoordInv(s, s.coords[c])
    ensures NextCountLeft(s, c).state == s.state && SameButOne(s, NextCountLeft(s, c), c)
    ensures
      var s' := NextCountLeft(s, c);
      c in s'.coords && CoordInv(s, s'.coords[c]) && !Pending(s'.coords[c].pc)
  {
    ClosingGoesOn(s, s.coords[c], NextCountLeft(s, c).coords[c].pc);
  }

  lemma CountLeftKeepsInv(s: System, c: nat)
    requires Inv(s) && c in s.coords && s.coords[c].pc.RolledUp?
    ensures Inv(NextCountLeft(s, c))
  {
    CountLeftIsAMove(s, c);
    OneMovesOn(s, NextCountLeft(s, c), c);
  }

  lemma CompleteIsAMove(s: System, c: nat)
    requires c in s.coords && DocInv(s.state) && s.state.generation > 0
    ensures DocInv(NextComplete(s, c).state) && SameButOne(s, NextComplete(s, c), c)
    ensures c in NextComplete(s, c).coords && NextComplete(s, c).coords[c] == s.coords[c].(pc := Pc.Closing)
  {
    var s' := NextComplete(s, c);
    assert s'.coords == s.coords[c := s.coords[c].(pc := Pc.Closing)];
    assert s'.state == s.state.(status := s'.state.status, phase := s'.state.phase);
  }

  lemma CompleteKeepsInv(s: System, c: nat)
    requires Inv(s) && c in s.coords && s.coords[c].pc.Counted?
    ensures Inv(NextComplete(s, c))
  {
    CompleteIsAMove(s, c);
    ClosingGoesOn(s, s.coords[c], Pc.Closing);
    OneMovesOn(s, NextComplete(s, c), c);
  }

  lemma NextPassKeepsInv(s: System, c: nat)
    requires Inv(s) && c in s.coords && s.coords[c].pc.Counted?
    ensures Inv(NextNextPass(s, c))
  {
    var s' := NextNextPass(s, c);
    assert CoordInv(s, s.coords[c]);
    assert DocInv(s'.state) && CoordInv(s.(state := s'.state), s'.coords[c]);
    StateAndCoordKeepInv(s, s'.state, c, s'.coords[c]);
  }

  lemma CloseKeepsInv(cfg: Config, s: System, step: Step)
    requires Inv(s) && Enabled(cfg, s, step) && (step.Complete? || step.NextPass? || step.CountLeft?)
    ensures Inv(Next(cfg, s, step))
  {
    if step.CountLeft? {
      CountLeftKeepsInv(s, step.c);
    } else if step.Complete? {
      CompleteKeepsInv(s, step.c);
    } else {
      NextPassKeepsInv(s, step.c);
    }
  }

  lemma LoadedAgain(s: System, c: nat)
    requires Inv(s) && c in s.coords
    ensures CoordInv(s, s.coords[c].(pc := Loaded))
  {
    assert CoordInv(s, s.coords[c]);
  }

  lemma DropOldKeepsInv(s: System, c: nat)
    requires Inv(s) && c in s.coords && s.coords[c].pc.Closing?
    ensures Inv(NextDropOld(s, c))
  {
    var db, me := S.DropGenerations(s.db, s.coords[c].gen - 1), s.coords[c].(pc := Loaded);
    assert NextDropOld(s, c) == With(s.(db := db), c, me);
    assert Inv(s.(db := db)) by {
      DropGenerationsIsQuiet(s, s.coords[c].gen - 1);
      QuietKeepsInv(s, db);
    }
    LoadedAgain(s.(db := db), c);
    CoordKeepsInv(s.(db := db), c, me);
  }

  lemma DropForeignKeepsInv(s: System, c: nat)
    requires Inv(s) && c in s.coords && s.coords[c].pc.Committed?
    ensures Inv(NextDropForeign(s, c))
  {
    var token := s.coords[c].st.plan.GetOr(0);
    LoadedAgain(s, c);
    DropForeignIsQuiet(s, token);
    DropAndCoordKeepInv(s, S.DropForeignPlans(s.db, token), c, s.coords[c].(pc := Loaded));
  }

  lemma DropLostKeepsInv(s: System, c: nat)
    requires Inv(s) && c in s.coords && s.coords[c].pc.Lost?
    ensures Inv(NextDropLost(s, c))
  {
    var db := S.DropPlan(s.db, s.coords[c].pc.token);
    DropPlanIsQuiet(s, s.coords[c].pc.token);
    QuietKeepsInv(s, db);
    WithoutKeepsInv(s.(db := db), c);
  }

  lemma DropKeepsInv(cfg: Config, s: System, step: Step)
    requires Inv(s) && Enabled(cfg, s, step) && (step.DropOld? || step.DropForeign? || step.DropLost?)
    ensures Inv(Next(cfg, s, step))
  {
    if step.DropOld? {
      DropOldKeepsInv(s, step.c);
    } else if step.DropForeign? {
      DropForeignKeepsInv(s, step.c);
    } else {
      DropLostKeepsInv(s, step.c);
    }
  }

  lemma CancelPlanKeepsInv(s: System, generation: nat)
    requires Inv(s) && generation in s.plans
    ensures Inv(NextCancelPlan(s, generation))
  {
    CancelIsQuiet(s, generation);
    QuietKeepsInv(s, NextCancelPlan(s, generation).db);
  }

  lemma ControlsMoveTheStatus(cfg: Config, s: System, step: Step) returns (status: Status)
    requires Enabled(cfg, s, step)
    requires step.FailState? || step.Start? || step.Pause? || step.Resume? || step.Cancel?
    ensures Next(cfg, s, step) == s.(state := s.state.(status := status))
    ensures status == Completed ==> s.state.status == Completed
  {
    status := Next(cfg, s, step).state.status;
  }

  lemma ControlKeepsInv(cfg: Config, s: System, step: Step)
    requires Inv(s) && Enabled(cfg, s, step)
    requires step.FailState? || step.Start? || step.Pause? || step.Resume? || step.Cancel?
    ensures Inv(Next(cfg, s, step))
  {
    var status := ControlsMoveTheStatus(cfg, s, step);
    StateKeepsInv(s, s.state.(status := status));
  }

  lemma ReadingIsAMove(cfg: Config, s: System, step: Step)
    requires Enabled(cfg, s, step) && (step.FindDrained? || step.AlreadyRolledUp? || step.SumTotals?)
    requires PlansInv(s) && CoordInv(s, s.coords[step.c])
    ensures step.c in Next(cfg, s, step).coords
    ensures
      var me := Next(cfg, s, step).coords[step.c];
      Next(cfg, s, step) == With(s, step.c, me) && CoordInv(s, me) && !Pending(me.pc)
  {
  }

  /** A coordinator that only reads. */
  lemma ReadingKeepsInv(cfg: Config, s: System, step: Step)
    requires Inv(s) && Enabled(cfg, s, step)
    requires step.FindDrained? || step.AlreadyRolledUp? || step.SumTotals?
    ensures Inv(Next(cfg, s, step))
  {
    ReadingIsAMove(cfg, s, step);
    CoordKeepsInv(s, step.c, Next(cfg, s, step).coords[step.c]);
  }

  /** One that starts over, gives up or crashes. */
  lemma LeavingKeepsInv(cfg: Config, s: System, step: Step)
    requires Inv(s) && Enabled(cfg, s, step) && (step.Load? || step.GiveUp? || step.Crash?)
    ensures Inv(Next(cfg, s, step))
  {
    if step.GiveUp? {
      StateKeepsInv(s, Fail(s.state));
      WithoutKeepsInv(s.(state := Fail(s.state)), step.c);
    } else if step.Crash? {
      WithoutKeepsInv(s, step.c);
    } else {
      CoordKeepsInv(s, step.c, Coord(s.state, 0, Loaded));
    }
  }

  lemma LaneKeepsInv(cfg: Config, s: System, step: S.Step)
    requires Inv(s) && LaneStep(s, step)
    ensures Inv(NextLane(cfg, s, step))
  {
    var db := S.Apply(cfg.store, s.db, step);
    LaneIsQuiet(cfg, s, step);
    QuietKeepsInv(s, db);
    assert NextLane(cfg, s, step).db == db;
    HistoryKeepsInv(s.(db := db), NextLane(cfg, s, step));
  }

  lemma PlanningKeepsInv(cfg: Config, s: System, step: Step)
    requires Inv(s) && Enabled(cfg, s, step) && (step.InsertPlan? || step.CommitPlan? || step.RollUp? || step.Retry?)
    ensures Inv(Next(cfg, s, step))
  {
    if step.InsertPlan? {
      assert CoordInv(s, s.coords[step.c]);
      InsertKeepsInv(s, step.c, step.groups);
    } else if step.CommitPlan? {
      CommitKeepsInv(s, step.c);
    } else if step.RollUp? {
      RollUpKeepsInv(s, step.c);
    } else {
      RetryKeepsInv(s);
    }
  }

  lemma StepKeepsInv(cfg: Config, s: System, step: Step)
    requires Inv(s) && Enabled(cfg, s, step)
    ensures Inv(Next(cfg, s, step))
  {
    if step.Lane? {
      LaneKeepsInv(cfg, s, step.step);
    } else if step.CancelPlan? {
      CancelPlanKeepsInv(s, step.generation);
    } else if step.Writes? {
      HistoryKeepsInv(s, s.(matching := step.matching));
    } else if step.InsertPlan? || step.CommitPlan? || step.RollUp? || step.Retry? {
      PlanningKeepsInv(cfg, s, step);
    } else if step.Complete? || step.NextPass? || step.CountLeft? {
      CloseKeepsInv(cfg, s, step);
    } else if step.DropOld? || step.DropForeign? || step.DropLost? {
      DropKeepsInv(cfg, s, step);
    } else if step.FailState? || step.Start? || step.Pause? || step.Resume? || step.Cancel? {
      ControlKeepsInv(cfg, s, step);
    } else if step.Load? || step.GiveUp? || step.Crash? {
      LeavingKeepsInv(cfg, s, step);
    } else {
      ReadingKeepsInv(cfg, s, step);
    }
  }

  ghost predicate Run(cfg: Config, s: System, steps: seq<Step>)
    decreases |steps|
  {
    steps == [] || (Enabled(cfg, s, steps[0]) && Run(cfg, Next(cfg, s, steps[0]), steps[1..]))
  }

  ghost function After(cfg: Config, s: System, steps: seq<Step>): System
    requires Run(cfg, s, steps)
    decreases |steps|
  {
    if steps == [] then s else After(cfg, Next(cfg, s, steps[0]), steps[1..])
  }

  lemma {:induction false} RunKeepsInv(cfg: Config, s: System, steps: seq<Step>)
    requires Inv(s) && Run(cfg, s, steps)
    ensures Inv(After(cfg, s, steps))
    decreases |steps|
  {
    if steps != [] {
      StepKeepsInv(cfg, s, steps[0]);
      RunKeepsInv(cfg, Next(cfg, s, steps[0]), steps[1..]);
    }
  }

  // ---- Building runs

  ghost predicate Reaches(cfg: Config, s0: System, s: System) {
    exists steps :: Run(cfg, s0, steps) && After(cfg, s0, steps) == s
  }

  lemma {:induction false} RunThen(cfg: Config, s0: System, steps: seq<Step>, step: Step)
    requires Run(cfg, s0, steps) && Enabled(cfg, After(cfg, s0, steps), step)
    ensures Run(cfg, s0, steps + [step])
    ensures After(cfg, s0, steps + [step]) == Next(cfg, After(cfg, s0, steps), step)
    decreases |steps|
  {
    if steps == [] {
      assert steps + [step] == [step] && [step][1..] == [];
      assert Run(cfg, Next(cfg, s0, step), []);
    } else {
      RunThen(cfg, Next(cfg, s0, steps[0]), steps[1..], step);
      assert (steps + [step])[1..] == steps[1..] + [step] && (steps + [step])[0] == steps[0];
    }
  }

  lemma RunOfTwo(cfg: Config, s0: System, first: Step, second: Step)
    requires Enabled(cfg, s0, first) && Enabled(cfg, Next(cfg, s0, first), second)
    ensures Run(cfg, s0, [first, second])
    ensures After(cfg, s0, [first, second]) == Next(cfg, Next(cfg, s0, first), second)
  {
    assert Run(cfg, s0, []) && After(cfg, s0, []) == s0;
    RunThen(cfg, s0, [], first);
    RunThen(cfg, s0, [] + [first], second);
    assert [] + [first] + [second] == [first, second];
  }

  lemma Then(cfg: Config, s0: System, s: System, step: Step) returns (s': System)
    requires Reaches(cfg, s0, s) && Enabled(cfg, s, step)
    ensures s' == Next(cfg, s, step) && Reaches(cfg, s0, s')
  {
    var steps :| Run(cfg, s0, steps) && After(cfg, s0, steps) == s;
    RunThen(cfg, s0, steps, step);
    s' := Next(cfg, s, step);
  }
}
