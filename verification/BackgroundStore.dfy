/**
 * The store as the object that lanes and coordinators call (src/core/background-store.js). Between any
 * two of its writes other processes may write too: `elsewhere` is the script of what they do. `log`
 * is history — every write so far — and ties the object to what is proved about runs of the store.
 */
module BackgroundStore {
  import opened Wrappers
  import opened Store
  import opened LaneCaps
  import F = Fencing

  datatype ClaimResult = Claim(pid: nat, token: nat) | Busy(retryAfterMs: nat) | Exhausted

  /** How one claim attempt ended: with a write, with nothing left to claim, or with the slot taken. */
  datatype Attempt = Won(pid: nat, k: nat) | NothingLeft | SlotLost

  /** How the attempt at one candidate's group slots ended. */
  datatype Try = Written(k: nat) | CandidateTaken | SlotTakenFirst | GroupFull

  datatype LockLost = LockLost

  /** What a plan's compare-and-set looks at in the state: its plan, and that it is pending or running. */
  datatype PlanRow = PlanRow(generation: nat, plan: Option<nat>, live: bool)

  /** What others do between two calls: writes to partitions, and perhaps to the state's plan. */
  datatype Others = Others(steps: seq<Step>, state: Option<PlanRow>)

  function Max(a: nat, b: nat): nat { if a > b then a else b }

  // ---- Picking a partition

  predicate Blocked(group: Option<string>, full: set<string>, ungroupedFull: bool) {
    if group.Some? then group.value in full else ungroupedFull
  }

  function Candidates(db: Db, generation: nat, plan: nat, full: set<string>, ungroupedFull: bool): set<nat> {
    set pid | pid in db.parts && Claimable(db.parts[pid], generation, plan) && !Blocked(db.parts[pid].group, full, ungroupedFull)
  }

  /** Partitions already started come first, then those planned first (the largest). */
  predicate NotAfter(p: Partition, q: Partition) {
    if p.status == q.status then p.order <= q.order else p.status == Running
  }

  predicate IsFirst(db: Db, among: set<nat>, pid: nat) {
    pid in among && among <= db.parts.Keys && forall q <- among :: NotAfter(db.parts[pid], db.parts[q])
  }

  lemma {:induction false} AFirstExists(db: Db, among: set<nat>)
    requires among != {} && among <= db.parts.Keys && forall pid <- among :: Open(db.parts[pid])
    ensures exists pid :: IsFirst(db, among, pid)
    decreases |among|
  {
    var p :| p in among;
    var rest := among - {p};
    if rest == {} {
      assert among == {p} && IsFirst(db, among, p);
    } else {
      AFirstExists(db, rest);
      var q :| IsFirst(db, rest, q);
      assert IsFirst(db, among, if NotAfter(db.parts[p], db.parts[q]) then p else q);
    }
  }

  /** A fresh plan starts with the partition planned first. */
  lemma AFreshPlanStartsWithItsFirst(db: Db, generation: nat, plan: nat, groups: seq<Option<string>>, among: set<nat>, pid: nat)
    requires F.FenceInv(db) && forall q <- db.parts :: db.parts[q].plan != plan
    requires among <= Candidates(Insert(db, generation, plan, groups), generation, plan, {}, false)
    requires db.nextId in among && IsFirst(Insert(db, generation, plan, groups), among, pid)
    ensures pid == db.nextId
  {
    var db' := Insert(db, generation, plan, groups);
    assert pid in db'.parts && db'.parts[pid].plan == plan;
    assert db'.parts[pid].order == pid - db.nextId && db'.parts[db.nextId].order == 0;
    assert NotAfter(db'.parts[pid], db'.parts[db.nextId]);
  }

  /** A partition whose lane is gone is taken up again before one that nobody has started. */
  lemma StartedOnesComeFirst(db: Db, among: set<nat>, pid: nat, q: nat)
    requires IsFirst(db, among, pid) && q in among && forall p <- among :: Open(db.parts[p])
    ensures db.parts[q].status == Running ==> db.parts[pid].status == Running
    ensures db.parts[q].status == db.parts[pid].status ==> db.parts[pid].order <= db.parts[q].order
  {
    assert NotAfter(db.parts[pid], db.parts[q]);
  }

  // ---- Full groups

  ghost predicate FullGroup(cfg: Config, db: Db, group: Option<string>) {
    cfg.shardConcurrency.Some? && |LanesOf(db, group)| >= cfg.shardConcurrency.value
  }

  /** The partitions a claim may take: claimable, and in a group that is not full. */
  ghost function Takeable(cfg: Config, db: Db, generation: nat, plan: nat): set<nat> {
    set pid | pid in db.parts && Claimable(db.parts[pid], generation, plan) && !FullGroup(cfg, db, db.parts[pid].group)
  }

  lemma FullIsAllTaken(cfg: Config, db: Db, group: Option<string>)
    requires SlotsInv(cfg, db) && cfg.shardConcurrency.Some? && group != Some("")
    ensures FullGroup(cfg, db, group) <==> AllSlotsTaken(db, group, cfg.shardConcurrency.value)
  {
    FullMeansFull(cfg, db, group);
    GroupsAreCapped(cfg, db, group);
  }

  /** Every group on the lists is full. */
  ghost predicate RuledOut(cfg: Config, db: Db, full: set<string>, ungroupedFull: bool) {
    (forall group <- full :: FullGroup(cfg, db, Some(group))) && (ungroupedFull ==> FullGroup(cfg, db, None))
  }

  /** Nothing takeable is left out by what was ruled out. */
  lemma TakeableAreCandidates(cfg: Config, db: Db, generation: nat, plan: nat, full: set<string>, ungroupedFull: bool)
    requires RuledOut(cfg, db, full, ungroupedFull)
    ensures Takeable(cfg, db, generation, plan) <= Candidates(db, generation, plan, full, ungroupedFull)
  {
  }

  /** The slots are free, and the groups full. */
  ghost predicate AllFree(cfg: Config, db: Db, free: seq<nat>, fullGroups: set<string>) {
    RuledOut(cfg, db, fullGroups, false) && forall s <- free :: !SlotTaken(db.parts, s)
  }

  // ---- Reading the leases one by one

  ghost predicate SlotsOf(db: Db, counted: set<nat>, occupied: set<nat>) {
    forall slot :: slot in occupied <==>
      exists pid :: pid in counted && pid in Lanes(db) && db.parts[pid].lease.value.slot == slot
  }

  ghost predicate CountsOf(db: Db, counted: set<nat>, perGroup: map<string, nat>) {
    && (forall group <- perGroup :: perGroup[group] == |LanesOf(db, Some(group)) * counted|)
    && (forall group: string | group !in perGroup :: LanesOf(db, Some(group)) * counted == {})
  }

  function OneMore(perGroup: map<string, nat>, group: Option<string>): map<string, nat> {
    if group.None? then perGroup
    else perGroup[group.value := (if group.value in perGroup then perGroup[group.value] else 0) + 1]
  }

  lemma AnotherSlot(db: Db, pid: nat, counted: set<nat>, occupied: set<nat>)
    requires pid in Lanes(db) && SlotsOf(db, counted, occupied)
    ensures SlotsOf(db, counted + {pid}, occupied + {db.parts[pid].lease.value.slot})
  {
    forall slot
      ensures slot in occupied + {db.parts[pid].lease.value.slot} <==>
              exists p :: p in counted + {pid} && p in Lanes(db) && db.parts[p].lease.value.slot == slot
    {
      if slot == db.parts[pid].lease.value.slot {
        assert pid in counted + {pid};
      } else if slot in occupied {
        var p :| p in counted && p in Lanes(db) && db.parts[p].lease.value.slot == slot;
        assert p in counted + {pid};
      }
    }
  }

  lemma CountedOneMore(db: Db, pid: nat, counted: set<nat>, group: Option<string>)
    requires pid in Lanes(db) && pid !in counted
    ensures db.parts[pid].group == group ==>
              |LanesOf(db, group) * (counted + {pid})| == |LanesOf(db, group) * counted| + 1
    ensures db.parts[pid].group != group ==> LanesOf(db, group) * (counted + {pid}) == LanesOf(db, group) * counted
  {
    if db.parts[pid].group == group {
      assert LanesOf(db, group) * (counted + {pid}) == LanesOf(db, group) * counted + {pid};
    }
  }

  lemma AnotherCount(db: Db, pid: nat, counted: set<nat>, perGroup: map<string, nat>)
    requires pid in Lanes(db) && pid !in counted && CountsOf(db, counted, perGroup)
    ensures CountsOf(db, counted + {pid}, OneMore(perGroup, db.parts[pid].group))
  {
    var perGroup' := OneMore(perGroup, db.parts[pid].group);
    forall group | group in perGroup' ensures perGroup'[group] == |LanesOf(db, Some(group)) * (counted + {pid})| {
      CountedOneMore(db, pid, counted, Some(group));
    }
    forall group: string | group !in perGroup' ensures LanesOf(db, Some(group)) * (counted + {pid}) == {} {
      CountedOneMore(db, pid, counted, Some(group));
    }
  }

  /** All the leases but those in `left` were read. */
  ghost predicate ReadBut(db: Db, left: set<nat>, occupied: set<nat>, perGroup: map<string, nat>) {
    left <= Lanes(db) && SlotsOf(db, Lanes(db) - left, occupied) && CountsOf(db, Lanes(db) - left, perGroup)
  }

  lemma OneLeaseMore(db: Db, left: set<nat>, pid: nat, occupied: set<nat>, perGroup: map<string, nat>)
    requires pid in left && ReadBut(db, left, occupied, perGroup)
    ensures ReadBut(db, left - {pid}, occupied + {db.parts[pid].lease.value.slot}, OneMore(perGroup, db.parts[pid].group))
  {
    AnotherSlot(db, pid, Lanes(db) - left, occupied);
    AnotherCount(db, pid, Lanes(db) - left, perGroup);
    assert Lanes(db) - (left - {pid}) == Lanes(db) - left + {pid};
  }

  lemma AllLeasesRead(db: Db, occupied: set<nat>, perGroup: map<string, nat>)
    requires ReadBut(db, {}, occupied, perGroup)
    ensures forall slot :: slot in occupied <==> SlotTaken(db.parts, slot)
    ensures CountsOf(db, Lanes(db), perGroup)
  {
    assert Lanes(db) - {} == Lanes(db);
  }

  lemma NoLeaseRead(db: Db)
    ensures ReadBut(db, Lanes(db), {}, map[])
  {
    assert Lanes(db) - Lanes(db) == {};
  }

  // ---- What a claim leaves

  ghost predicate Granted(cfg: Config, db: Db, db': Db, generation: nat, plan: nat, pid: nat, slot: nat, k: nat, ttl: nat) {
    && pid in db.parts && Claimable(db.parts[pid], generation, plan)
    && SlotsFree(db.parts, slot, GroupSlotFor(cfg, db, pid, k))
    && db' == ClaimWrite(db, pid, generation, plan, slot, GroupSlotFor(cfg, db, pid, k), ttl)
  }

  /** A claim granted at some moment of a call that started with `db`: no lease since has its token. */
  ghost predicate GrantedSince(cfg: Config, db: Db, before: Db, db': Db, generation: nat, plan: nat,
                               pid: nat, slot: nat, k: nat, ttl: nat) {
    Granted(cfg, before, db', generation, plan, pid, slot, k, ttl) && before.nextToken >= db.nextToken
  }

  /**
   * What a granted claim is worth: the partition goes on where it stood, running, under a lease of its own
   * that nobody else's slot or token collides with and that has just been renewed; nothing else changed.
   */
  lemma GrantedMeans(cfg: Config, db: Db, db': Db, generation: nat, plan: nat, pid: nat, slot: nat, k: nat, ttl: nat)
    requires F.FenceInv(db) && Granted(cfg, db, db', generation, plan, pid, slot, k, ttl)
    ensures db'.parts.Keys == db.parts.Keys && forall q <- db.parts :: q != pid ==> db'.parts[q] == db.parts[q]
    ensures
      var was := db.parts[pid];
      var now := db'.parts[pid];
      && OfPlan(now, generation, plan) && now.status == Running && was.lease.None? && HeldBy(now, db.nextToken)
      && now.cursor == was.cursor && now.counters == was.counters && now.failures == was.failures && now.claims == was.claims + 1
      && now.lease.value.slot == slot && now.lease.value.groupSlot == GroupSlotFor(cfg, db, pid, k) && !Expired(now, db'.now)
    ensures forall q | q in Lanes(db') && q != pid ::
              && db'.parts[q].lease.value.slot != slot && db'.parts[q].lease.value.token != db.nextToken
              && (GroupSlotFor(cfg, db, pid, k).Some? ==> db'.parts[q].lease.value.groupSlot != GroupSlotFor(cfg, db, pid, k))
  {
    forall q | q in Lanes(db') && q != pid
      ensures q in db.parts && db.parts[q] == db'.parts[q] && db.parts[q].lease.value.slot != slot
    {
    }
  }

  /** An attempt nobody interferes with takes the first takeable partition, or finds there is none. */
  ghost predicate Uninterrupted(cfg: Config, db: Db, db': Db, generation: nat, plan: nat, slot: nat, ttl: nat, a: Attempt) {
    match a
    case Won(pid, k) =>
      Granted(cfg, db, db', generation, plan, pid, slot, k, ttl) && IsFirst(db, Takeable(cfg, db, generation, plan), pid)
    case NothingLeft => db' == db && Takeable(cfg, db, generation, plan) == {}
    case SlotLost => db' == db && SlotTaken(db.parts, slot)
  }

  /** What a claim nobody interferes with answers, by what it finds once expired leases are reaped. */
  ghost predicate ClaimAnswers(cfg: Config, d: Db, db': Db, generation: nat, plan: nat, ttl: nat,
                               r: ClaimResult, got: Attempt, slot: nat) {
    && (r.Busy? <==> forall s: nat :: s < cfg.maxParallel ==> SlotTaken(d.parts, s))
    && (r.Busy? ==> db' == d && r.retryAfterMs == Max(1, ttl / 2))
    && (!r.Busy? ==> (r.Exhausted? <==> Takeable(cfg, d, generation, plan) == {}))
    && (r.Exhausted? ==> db' == d)
    && (r.Claim? ==>
          && got.Won? && r.pid == got.pid && r.token == d.nextToken && slot < cfg.maxParallel
          && Granted(cfg, d, db', generation, plan, r.pid, slot, got.k, ttl)
          && IsFirst(d, Takeable(cfg, d, generation, plan), r.pid))
  }

  lemma {:induction false} AfterThen(cfg: Config, db: Db, steps: seq<Step>, more: seq<Step>)
    ensures After(cfg, db, steps + more) == After(cfg, After(cfg, db, steps), more)
    decreases |steps|
  {
    if steps == [] {
      assert steps + more == more;
    } else {
      assert (steps + more)[1..] == steps[1..] + more;
      AfterThen(cfg, Apply(cfg, db, steps[0]), steps[1..], more);
    }
  }

  lemma {:induction false} GroupsStay(cfg: Config, db: Db, steps: seq<Step>, pid: nat)
    requires F.FenceInv(db) && pid in db.parts && pid in After(cfg, db, steps).parts
    ensures After(cfg, db, steps).parts[pid].group == db.parts[pid].group
    decreases |steps|
  {
    if steps != [] {
      var db' := Apply(cfg, db, steps[0]);
      F.EveryStepMoves(cfg, db, steps[0]);
      if pid !in db'.parts {
        F.GoneStaysGone(cfg, db', steps[1..], pid);
      }
      assert F.PartMoves(db, db', steps[0], pid);
      GroupsStay(cfg, db', steps[1..], pid);
    }
  }

  lemma InsertedThenDropped(db: Db, generation: nat, plan: nat, groups: seq<Option<string>>)
    requires F.FenceInv(db) && forall pid <- db.parts :: db.parts[pid].plan != plan
    ensures DropPlan(Insert(db, generation, plan, groups), plan).parts == db.parts
  {
  }

  class BackgroundStore {
    const cfg: Config
    var db: Db
    var state: PlanRow
    var elsewhere: seq<Others>
    ghost var log: seq<Step>

    /** The database is what the writes so far, all within the rules, made of an empty one. */
    ghost predicate Valid()
      reads this
    {
      && Run(cfg, log) && db == After(cfg, EMPTY, log)
      && forall others <- elsewhere :: Run(cfg, others.steps)
    }

    /** So the caps and the fences hold of it. */
    lemma ValidMeans()
      requires Valid()
      ensures SlotsInv(cfg, db) && F.FenceInv(db)
    {
      RunKeepsTheInv(cfg, EMPTY, log);
      F.RunKeepsFences(cfg, EMPTY, log);
    }

    constructor (cfg: Config, elsewhere: seq<Others>)
      requires forall others <- elsewhere :: Run(cfg, others.steps)
      ensures Valid() && this.cfg == cfg && db == EMPTY && this.elsewhere == elsewhere && log == []
      ensures state == PlanRow(0, None, true)
    {
      state := PlanRow(0, None, true);
      this.cfg := cfg;
      this.elsewhere := elsewhere;
      db := EMPTY;
      log := [];
    }

    /** One write of this process. */
    method Write(step: Step)
      requires Valid() && Permitted(cfg, step)
      modifies this
      ensures Valid() && db == Apply(cfg, old(db), step) && log == old(log) + [step]
      ensures elsewhere == old(elsewhere) && state == old(state)
    {
      AfterThen(cfg, EMPTY, log, [step]);
      assert After(cfg, db, [step]) == After(cfg, Apply(cfg, db, step), []);
      db := Apply(cfg, db, step);
      log := log + [step];
    }

    /** Time passes: the next entry of the script happens, if there is one. */
    method Meanwhile()
      requires Valid()
      modifies this
      ensures Valid()
      ensures old(elsewhere) == [] ==> db == old(db) && log == old(log) && elsewhere == [] && state == old(state)
      ensures old(elsewhere) != [] ==>
                && elsewhere == old(elsewhere)[1..] && log == old(log) + old(elsewhere)[0].steps
                && state == old(elsewhere)[0].state.GetOr(old(state))
      ensures forall pid | pid in old(db).parts && pid in db.parts :: db.parts[pid].group == old(db).parts[pid].group
      ensures db.nextToken >= old(db).nextToken
    {
      if elsewhere != [] {
        var steps := elsewhere[0].steps;
        state := elsewhere[0].state.GetOr(state);
        assert Run(cfg, steps);
        ghost var before := db;
        ValidMeans();
        AfterThen(cfg, EMPTY, log, steps);
        db := After(cfg, db, steps);
        log := log + steps;
        elsewhere := elsewhere[1..];
        F.RunKeepsFences(cfg, before, steps);
        forall pid | pid in before.parts && pid in db.parts ensures db.parts[pid].group == before.parts[pid].group {
          GroupsStay(cfg, before, steps, pid);
        }
      }
    }

    /** Frees exactly the leases nobody renewed within their own time, and counts that on their partitions. */
    method ReapExpired() returns (reaped: nat)
      requires Valid()
      modifies this
      ensures Valid() && elsewhere == old(elsewhere) && log == old(log) + [ReapStep] && db == Reap(old(db))
      ensures reaped == |set pid | pid in Lanes(old(db)) && Expired(old(db).parts[pid], old(db).now)|
      ensures db.parts.Keys == old(db).parts.Keys
      ensures forall pid | pid in db.parts ::
                var was := old(db).parts[pid];
                && db.parts[pid] == (if Expired(was, db.now) then was.(lease := None, reclaims := was.reclaims + 1) else was)
                && !Expired(db.parts[pid], db.now)
    {
      reaped := |set pid | pid in Lanes(db) && Expired(db.parts[pid], db.now)|;
      Write(ReapStep);
    }

    // ---- Claims

    /** One candidate: each of its group's slots is tried, until one is free or the candidate is gone. */
    method TryGroupSlots(generation: nat, plan: nat, pid: nat, group: Option<string>, slot: nat, ttl: nat) returns (t: Try)
      requires Valid() && cfg.shardConcurrency.Some? && slot < cfg.maxParallel
      requires pid in db.parts && db.parts[pid].group == group && Claimable(db.parts[pid], generation, plan)
      modifies this
      ensures Valid() && |elsewhere| <= |old(elsewhere)| && db.nextToken >= old(db).nextToken
      ensures t.Written? ==>
                t.k < cfg.shardConcurrency.value
                && exists before :: GrantedSince(cfg, old(db), before, db, generation, plan, pid, slot, t.k, ttl)
      ensures t.CandidateTaken? ==> |elsewhere| < |old(elsewhere)|
      ensures old(elsewhere) == [] && t.Written? ==> Granted(cfg, old(db), db, generation, plan, pid, slot, t.k, ttl)
      ensures old(elsewhere) == [] && !t.Written? ==> db == old(db)
      ensures old(elsewhere) == [] && t.GroupFull? ==> AllSlotsTaken(db, group, cfg.shardConcurrency.value)
      ensures old(elsewhere) == [] && t.SlotTakenFirst? ==> SlotTaken(db.parts, slot)
    {
      var k := 0;
      while k < cfg.shardConcurrency.value
        invariant Valid() && k <= cfg.shardConcurrency.value && |elsewhere| <= |old(elsewhere)|
        invariant |elsewhere| == |old(elsewhere)| ==> db == old(db) && elsewhere == old(elsewhere)
        invariant |elsewhere| == |old(elsewhere)| ==> k == 0 || old(elsewhere) == []
        invariant pid in db.parts && db.parts[pid].group == group
        invariant old(elsewhere) == [] ==> AllSlotsTaken(db, group, k)
        invariant db.nextToken >= old(db).nextToken
      {
        Meanwhile();
        if pid !in db.parts || !Claimable(db.parts[pid], generation, plan) { return CandidateTaken; }
        if SlotTaken(db.parts, slot) { return SlotTakenFirst; }
        if !GroupSlotTaken(db.parts, GroupSlot(group, k)) {
          ghost var before := db;
          Write(ClaimStep(pid, generation, plan, slot, k, ttl));
          assert GrantedSince(cfg, old(db), before, db, generation, plan, pid, slot, k, ttl);
          return Written(k);
        }
        k := k + 1;
      }
      return GroupFull;
    }

    /** One claim attempt, where claims are not sharded: one atomic pick-and-write. */
    method ClaimOnePlain(generation: nat, plan: nat, slot: nat, ttl: nat) returns (a: Attempt)
      requires Valid() && cfg.shardConcurrency.None? && slot < cfg.maxParallel
      modifies this
      ensures Valid() && |elsewhere| <= |old(elsewhere)| && db.nextToken >= old(db).nextToken
      ensures a.Won? ==>
                exists before :: GrantedSince(cfg, old(db), before, db, generation, plan, a.pid, slot, a.k, ttl)
      ensures old(elsewhere) == [] ==> Uninterrupted(cfg, old(db), db, generation, plan, slot, ttl, a)
      ensures a.SlotLost? && old(elsewhere) != [] ==> |elsewhere| < |old(elsewhere)|
    {
      Meanwhile();
      var candidates := Candidates(db, generation, plan, {}, false);
      TakeableAreCandidates(cfg, db, generation, plan, {}, false);
      if candidates == {} { return NothingLeft; }
      if SlotTaken(db.parts, slot) { return SlotLost; }
      AFirstExists(db, candidates);
      var pid :| IsFirst(db, candidates, pid);
      ghost var before := db;
      Write(ClaimStep(pid, generation, plan, slot, 0, ttl));
      assert GrantedSince(cfg, old(db), before, db, generation, plan, pid, slot, 0, ttl);
      return Won(pid, 0);
    }

    /** The first candidate outside the groups ruled out so far. */
    method Pick(generation: nat, plan: nat, full: set<string>, ungroupedFull: bool) returns (pid: Option<nat>)
      requires Valid()
      modifies this
      ensures Valid() && |elsewhere| <= |old(elsewhere)| && db.nextToken >= old(db).nextToken
      ensures |elsewhere| == |old(elsewhere)| ==> old(elsewhere) == [] && db == old(db)
      ensures pid.None? ==> Candidates(db, generation, plan, full, ungroupedFull) == {}
      ensures pid.Some? ==> IsFirst(db, Candidates(db, generation, plan, full, ungroupedFull), pid.value)
    {
      Meanwhile();
      var candidates := Candidates(db, generation, plan, full, ungroupedFull);
      if candidates == {} { return None; }
      AFirstExists(db, candidates);
      var first :| IsFirst(db, candidates, first);
      return Some(first);
    }

    /**
     * One claim attempt under sharded claims: the candidate is picked first; each round claims it,
     * finds it taken, or rules out its group.
     */
    method ClaimOneSharded(generation: nat, plan: nat, slot: nat, ttl: nat, fullGroups: set<string>) returns (a: Attempt)
      requires Valid() && cfg.shardConcurrency.Some? && slot < cfg.maxParallel
      modifies this
      ensures Valid() && |elsewhere| <= |old(elsewhere)| && db.nextToken >= old(db).nextToken
      ensures a.Won? ==>
                exists before :: GrantedSince(cfg, old(db), before, db, generation, plan, a.pid, slot, a.k, ttl)
      ensures old(elsewhere) == [] && RuledOut(cfg, old(db), fullGroups, false) ==>
                Uninterrupted(cfg, old(db), db, generation, plan, slot, ttl, a)
      ensures a.SlotLost? && old(elsewhere) != [] ==> |elsewhere| < |old(elsewhere)|
    {
      var full, ungroupedFull := fullGroups, false;
      ghost var alone := old(elsewhere) == [] && RuledOut(cfg, db, fullGroups, false);
      while true
        invariant Valid() && |elsewhere| <= |old(elsewhere)| && db.nextToken >= old(db).nextToken
        invariant old(elsewhere) == [] ==> db == old(db)
        invariant alone ==> RuledOut(cfg, db, full, ungroupedFull)
        decreases |elsewhere|, Candidates(db, generation, plan, full, ungroupedFull)
      {
        var pid := Pick(generation, plan, full, ungroupedFull);
        ValidMeans();
        if alone {
          TakeableAreCandidates(cfg, db, generation, plan, full, ungroupedFull);
        }
        if pid.None? { return NothingLeft; }
        var group := db.parts[pid.value].group;
        FullIsAllTaken(cfg, db, group);
        ghost var at := db;
        var t := TryGroupSlots(generation, plan, pid.value, group, slot, ttl);
        if t.Written? {
          ghost var before :| GrantedSince(cfg, at, before, db, generation, plan, pid.value, slot, t.k, ttl);
          assert GrantedSince(cfg, old(db), before, db, generation, plan, pid.value, slot, t.k, ttl);
          return Won(pid.value, t.k);
        }
        if t.SlotTakenFirst? { return SlotLost; }
        if t.GroupFull? {
          if group.None? { ungroupedFull := true; } else { full := full + {group.value}; }
        }
      }
    }

    /** Which slots are held, and how many partitions each named group has leased. */
    method LeasesHeld() returns (occupied: set<nat>, perGroup: map<string, nat>)
      ensures forall slot :: slot in occupied <==> SlotTaken(db.parts, slot)
      ensures CountsOf(db, Lanes(db), perGroup)
    {
      occupied, perGroup := {}, map[];
      var leased := Lanes(db);
      NoLeaseRead(db);
      while leased != {}
        invariant ReadBut(db, leased, occupied, perGroup)
        decreases |leased|
      {
        var pid :| pid in leased;
        OneLeaseMore(db, leased, pid, occupied, perGroup);
        occupied, perGroup := occupied + {db.parts[pid].lease.value.slot}, OneMore(perGroup, db.parts[pid].group);
        leased := leased - {pid};
      }
      AllLeasesRead(db, occupied, perGroup);
    }

    /** The slots nobody holds, and the groups with every slot held. */
    method FreeSlots() returns (free: seq<nat>, fullGroups: set<string>)
      requires Valid()
      ensures forall slot: nat :: slot in free <==> slot < cfg.maxParallel && !SlotTaken(db.parts, slot)
      ensures RuledOut(cfg, db, fullGroups, false)
    {
      var occupied, perGroup := LeasesHeld();
      fullGroups := {};
      if cfg.shardConcurrency.Some? {
        fullGroups := set group | group in perGroup && perGroup[group] >= cfg.shardConcurrency.value;
        forall group: string ensures LanesOf(db, Some(group)) * Lanes(db) == LanesOf(db, Some(group)) {
        }
      }
      free := [];
      for slot := 0 to cfg.maxParallel
        invariant forall s: nat :: s in free <==> s < slot && s !in occupied
      {
        if slot !in occupied { free := free + [slot]; }
      }
    }

    /** The free slots are tried one after the other, from a given offset on. */
    method TrySlots(generation: nat, plan: nat, ttl: nat, offset: nat, free: seq<nat>, fullGroups: set<string>)
      returns (r: ClaimResult, ghost got: Attempt, ghost slot: nat)
      requires Valid() && free != [] && forall s <- free :: s < cfg.maxParallel
      modifies this
      ensures Valid() && |elsewhere| <= |old(elsewhere)|
      ensures r.Claim? ==> got.Won? && r.pid == got.pid && slot < cfg.maxParallel
      ensures r.Claim? ==>
                && r.token + 1 == db.nextToken
                && exists before :: GrantedSince(cfg, old(db), before, db, generation, plan, r.pid, slot, got.k, ttl)
      ensures r.Busy? ==> r.retryAfterMs == Max(1, ttl / 4)
      ensures old(elsewhere) == [] && AllFree(cfg, old(db), free, fullGroups) ==>
                && !r.Busy? && slot in free && (r.Claim? <==> got.Won?)
                && Uninterrupted(cfg, old(db), db, generation, plan, slot, ttl, got)
    {
      got, slot := NothingLeft, 0;
      var i := 0;
      while i < |free|
        invariant Valid() && i <= |free| && |elsewhere| <= |old(elsewhere)| && db.nextToken >= old(db).nextToken
        invariant old(elsewhere) == [] && AllFree(cfg, old(db), free, fullGroups) ==>
                    i == 0 && elsewhere == [] && db == old(db)
      {
        var at := free[(offset + i) % |free|];
        assert at in free;
        ghost var start := db;
        var a: Attempt;
        if cfg.shardConcurrency.None? {
          a := ClaimOnePlain(generation, plan, at, ttl);
        } else {
          a := ClaimOneSharded(generation, plan, at, ttl, fullGroups);
        }
        if a.NothingLeft? { return Exhausted, a, at; }
        if a.Won? {
          ghost var before :| GrantedSince(cfg, start, before, db, generation, plan, a.pid, at, a.k, ttl);
          assert GrantedSince(cfg, old(db), before, db, generation, plan, a.pid, at, a.k, ttl);
          return Claim(a.pid, db.nextToken - 1), a, at;
        }
        i := i + 1;
      }
      return Busy(Max(1, ttl / 4)), NothingLeft, 0;
    }

    /**
     * Claim a partition of the plan and a slot with it. Whatever others do in between, the call ends and
     * keeps the store's invariants, and a claim it returns is one write that was granted. With nobody in
     * between: expired leases are reaped; it is busy exactly when every slot is held, exhausted exactly
     * when a slot is free but no open, unleased partition of the plan is outside a full group; and
     * otherwise it holds the first of those, on a slot that was free.
     */
    method ClaimPartition(generation: nat, plan: nat, ttl: nat, offset: nat)
      returns (r: ClaimResult, ghost got: Attempt, ghost slot: nat)
      requires Valid()
      modifies this
      ensures Valid() && |elsewhere| <= |old(elsewhere)|
      ensures r.Claim? ==> got.Won? && r.pid == got.pid && slot < cfg.maxParallel
      ensures r.Claim? ==>
                && r.token + 1 == db.nextToken
                && exists before :: GrantedSince(cfg, old(db), before, db, generation, plan, r.pid, slot, got.k, ttl)
      ensures r.Busy? ==> r.retryAfterMs == Max(1, ttl / 2) || r.retryAfterMs == Max(1, ttl / 4)
      ensures old(elsewhere) == [] ==> ClaimAnswers(cfg, Reap(old(db)), db, generation, plan, ttl, r, got, slot)
    {
      Meanwhile();
      var reaped := ReapExpired();
      Meanwhile();
      ghost var d := db;
      var free, fullGroups := FreeSlots();
      if free == [] { return Busy(Max(1, ttl / 2)), NothingLeft, 0; }
      assert free[0] in free;
      r, got, slot := TrySlots(generation, plan, ttl, offset, free, fullGroups);
      if r.Claim? {
        ghost var before :| GrantedSince(cfg, d, before, db, generation, plan, r.pid, slot, got.k, ttl);
        assert GrantedSince(cfg, old(db), before, db, generation, plan, r.pid, slot, got.k, ttl);
      }
    }

    // ---- Plans

    /**
     * Commit a new plan under a fresh token: its partitions first, then one compare-and-set on the generation
     * and the plan it was planned against. Won, the state is at the new plan; lost, none of its partitions is
     * left. Undisturbed it is won exactly if the state is as it was planned against, and lost without a trace.
     */
    method CommitPlan(generation: nat, previous: Option<nat>, token: nat, groups: seq<Option<string>>) returns (won: bool)
      requires Valid() && Some("") !in groups && forall pid <- db.parts :: db.parts[pid].plan != token
      modifies this
      ensures Valid()
      ensures won ==> state == PlanRow(generation + 1, Some(token), true)
      ensures !won ==> forall pid <- db.parts :: db.parts[pid].plan != token
      ensures old(elsewhere) != [] ==>
                (won <==> old(elsewhere)[0].state.GetOr(old(state)) == PlanRow(generation, previous, true))
      ensures old(elsewhere) == [] ==>
                && (won <==> old(state) == PlanRow(generation, previous, true))
                && (won ==> db == Insert(old(db), generation + 1, token, groups))
                && (!won ==> state == old(state) && db.parts == old(db).parts)
    {
      ghost var alone := elsewhere == [];
      ValidMeans();
      Write(InsertStep(generation + 1, token, groups));
      Meanwhile();
      if state == PlanRow(generation, previous, true) {
        state := PlanRow(generation + 1, Some(token), true);
        return true;
      }
      Meanwhile();
      Write(DropPlanStep(token));
      if alone {
        InsertedThenDropped(old(db), generation + 1, token, groups);
      }
      return false;
    }

    // ---- A holder's writes

    /**
     * The fenced checkpoint: it lands exactly for the holder of the lease on a partition still running —
     * cursor moved, counters added, failures forgotten, lease renewed or, when done, given up with the
     * partition closed — and is an error that changes nothing for anybody else.
     */
    method Checkpoint(pid: nat, token: nat, progress: Progress) returns (r: Result<(), LockLost>)
      requires Valid()
      modifies this
      ensures Valid() && elsewhere == old(elsewhere)
      ensures r.Success? <==> Lands(old(db), pid, token)
      ensures r.Failure? ==> db == old(db)
      ensures r.Success? ==>
                && pid in db.parts && db == Update(old(db), pid, db.parts[pid])
                && var was := old(db).parts[pid]; var now := db.parts[pid];
                   && now == was.(cursor := now.cursor, counters := now.counters, badIds := now.badIds, failures := 0,
                                  status := now.status, lease := now.lease)
                   && now.cursor == progress.cursor.GetOr(was.cursor)
                   && (forall key :: Get(now.counters, key) == Get(was.counters, key) + Get(progress.counters, key))
                   && (forall id <- now.badIds :: id in was.badIds || id in progress.badIds)
                   && (progress.badIds == [] ==> now.badIds == was.badIds)
                   && (progress.badIds != [] ==>
                         |now.badIds| == Least(|SetOf(was.badIds + progress.badIds)|, MAX_BAD_IDS + 1))
                   && (|SetOf(was.badIds + progress.badIds)| <= MAX_BAD_IDS + 1 ==>
                         SetOf(now.badIds) == SetOf(was.badIds + progress.badIds))
                   && (progress.done ==> now.status == Done && now.lease.None?)
                   && (!progress.done ==> now.status == Running && now.lease == Some(was.lease.value.(renewedAt := db.now)))
    {
      var lands := Lands(db, pid, token);
      Write(CheckpointStep(pid, token, progress));
      return if lands then Success(()) else Failure(LockLost);
    }

    /** Releasing a lease, or renewing it, is only ever done to one's own. */
    method Release(pid: nat, token: nat)
      requires Valid()
      modifies this
      ensures Valid() && !(pid in db.parts && HeldBy(db.parts[pid], token))
      ensures pid in old(db).parts && HeldBy(old(db).parts[pid], token) ==>
                db == Update(old(db), pid, old(db).parts[pid].(lease := None))
      ensures !(pid in old(db).parts && HeldBy(old(db).parts[pid], token)) ==> db == old(db)
    {
      Write(ReleaseStep(pid, token));
    }

    method RenewLease(pid: nat, token: nat) returns (held: bool)
      requires Valid()
      modifies this
      ensures Valid() && (held <==> pid in old(db).parts && HeldBy(old(db).parts[pid], token))
      ensures held ==> pid in db.parts && HeldBy(db.parts[pid], token) && !Expired(db.parts[pid], db.now)
      ensures held ==>
                var was := old(db).parts[pid];
                db == Update(old(db), pid, was.(lease := Some(was.lease.value.(renewedAt := db.now))))
      ensures !held ==> db == old(db)
    {
      held := pid in db.parts && HeldBy(db.parts[pid], token);
      Write(RenewStep(pid, token));
    }

    /** A failed slice counts once, for its holder or once the lease is gone; at the limit the partition fails. */
    method FailSlice(pid: nat, token: nat, maxSliceFailures: nat) returns (failed: bool)
      requires Valid()
      modifies this
      ensures Valid()
      ensures failed <==>
                && pid in old(db).parts && MayFail(old(db).parts[pid], token)
                && old(db).parts[pid].failures + 1 >= maxSliceFailures
      ensures pid in old(db).parts && MayFail(old(db).parts[pid], token) ==>
                var was := old(db).parts[pid];
                db == Update(old(db), pid, was.(lease := None, failures := was.failures + 1,
                                                status := if failed then Failed else was.status))
      ensures !(pid in old(db).parts && MayFail(old(db).parts[pid], token)) ==> db == old(db)
    {
      failed := pid in db.parts && MayFail(db.parts[pid], token) && db.parts[pid].failures + 1 >= maxSliceFailures;
      Write(FailSliceStep(pid, token, maxSliceFailures));
    }

    /** A partition fails at once — the error budget is spent — for its holder or once the lease is gone. */
    method FailPartition(pid: nat, token: nat)
      requires Valid()
      modifies this
      ensures Valid()
      ensures pid in old(db).parts && MayFail(old(db).parts[pid], token) ==>
                db == Update(old(db), pid, old(db).parts[pid].(lease := None, status := Failed))
      ensures !(pid in old(db).parts && MayFail(old(db).parts[pid], token)) ==> db == old(db)
    {
      Write(FailPartitionStep(pid, token));
    }

    /** Dropping every lease: all holders are fenced off at once. */
    method UnlockEverything() returns (dropped: nat)
      requires Valid()
      modifies this
      ensures Valid() && dropped == |Lanes(old(db))| && Lanes(db) == {} && db.parts.Keys == old(db).parts.Keys
      ensures forall pid | pid in old(db).parts :: pid in db.parts && db.parts[pid] == old(db).parts[pid].(lease := None)
    {
      dropped := |Lanes(db)|;
      Write(UnlockStep);
    }
  }

  // ---- What every history of the object guarantees

  /** However calls and other processes interleave, the lanes' caps hold of the object. */
  lemma CapsHoldAlways(store: BackgroundStore, group: Option<string>)
    requires store.Valid()
    ensures |Lanes(store.db)| <= store.cfg.maxParallel
    ensures store.cfg.shardConcurrency.Some? ==> |LanesOf(store.db, group)| <= store.cfg.shardConcurrency.value
  {
    LaneCapsHold(store.cfg, store.log, group);
  }
}
