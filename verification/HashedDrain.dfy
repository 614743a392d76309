/**
 * The draining scan of a partition on a hashed shard key (src/core/background-shard.js): with no
 * keyset to resume from, every batch starts at the range's start; rewritten documents leave the
 * match by themselves and the others are stepped over by id, up to MAX_STUCK of them.
 *
 * The application does not write, but other lanes may: `others` are documents they rewrote (or
 * this lane did, in a batch it crashed before checkpointing).
 */
module HashedDrain {
  import opened Wrappers

  const MAX_STUCK := 100

  /** The regions of the version index a source version is read in: missing or null, then 0. */
  function Regions(source: nat): nat {
    if source == 0 then 2 else 1
  }

  datatype Cursor = Cursor(region: nat, stuck: seq<nat>)

  function NextRegion(cursor: Cursor, regions: nat): Option<Cursor> {
    if cursor.region + 1 < regions then Some(Cursor(cursor.region + 1, [])) else None
  }

  /** The cursor just past a batch that left `left` behind; `None` ends the partition. */
  function Past(cursor: Cursor, left: seq<nat>, regions: nat): Option<Cursor> {
    var stuck := cursor.stuck + left;
    if |stuck| > MAX_STUCK then NextRegion(cursor, regions) else Some(Cursor(cursor.region, stuck))
  }

  function Advance(cursor: Cursor, docs: seq<nat>, limit: nat, left: seq<nat>, regions: nat): Option<Cursor> {
    if |docs| < limit then NextRegion(cursor, regions) else Past(cursor, left, regions)
  }

  datatype Config = Config(source: nat, limit: nat, region: nat -> nat)

  /** One batch: the documents read, those read and not rewritten, and what others rewrote meanwhile. */
  datatype Batch = Batch(docs: seq<nat>, left: seq<nat>, others: set<nat>)

  /** `stepped` and `overflowed` are history: every id ever left, every region cut short by MAX_STUCK. */
  datatype State = State(matching: set<nat>, cursor: Option<Cursor>, stepped: set<nat>, overflowed: set<nat>)

  ghost predicate ValidConfig(cfg: Config) {
    cfg.limit >= 1 && forall id :: cfg.region(id) < Regions(cfg.source)
  }

  function Start(matching: set<nat>): State {
    State(matching, Some(Cursor(0, [])), {}, {})
  }

  function SetOf(ids: seq<nat>): set<nat> {
    set id | id in ids
  }

  predicate NoneTwice(ids: seq<nat>) {
    forall i, j | 0 <= i < j < |ids| :: ids[i] != ids[j]
  }

  /** What a batch query can return: matching documents of the cursor's region, not stepped over. */
  function Unread(cfg: Config, s: State): set<nat>
    requires s.cursor.Some?
  {
    set id | id in s.matching && cfg.region(id) == s.cursor.value.region && id !in s.cursor.value.stuck
  }

  ghost predicate Enabled(cfg: Config, s: State, batch: Batch) {
    && s.cursor.Some?
    && SetOf(batch.docs) <= Unread(cfg, s)
    && |batch.docs| <= cfg.limit
    && (|batch.docs| < cfg.limit ==> SetOf(batch.docs) == Unread(cfg, s))
    && SetOf(batch.left) <= SetOf(batch.docs)
    && NoneTwice(batch.docs) && NoneTwice(batch.left)
  }

  function Overflows(cfg: Config, s: State, batch: Batch): bool
    requires s.cursor.Some?
  {
    |batch.docs| >= cfg.limit && |s.cursor.value.stuck + batch.left| > MAX_STUCK
  }

  function Next(cfg: Config, s: State, batch: Batch): State
    requires s.cursor.Some?
  {
    State(s.matching - (SetOf(batch.docs) - SetOf(batch.left)) - batch.others,
          Advance(s.cursor.value, batch.docs, cfg.limit, batch.left, Regions(cfg.source)),
          s.stepped + SetOf(batch.left),
          if Overflows(cfg, s, batch) then s.overflowed + {s.cursor.value.region} else s.overflowed)
  }

  ghost predicate Run(cfg: Config, s: State, batches: seq<Batch>)
    decreases |batches|
  {
    batches == [] || (Enabled(cfg, s, batches[0]) && Run(cfg, Next(cfg, s, batches[0]), batches[1..]))
  }

  ghost function After(cfg: Config, s: State, batches: seq<Batch>): State
    requires Run(cfg, s, batches)
    decreases |batches|
  {
    if batches == [] then s else After(cfg, Next(cfg, s, batches[0]), batches[1..])
  }

  // ---- Every batch makes progress

  ghost predicate Inv(cfg: Config, s: State) {
    && (s.cursor.Some? ==>
          && s.cursor.value.region < Regions(cfg.source)
          && (forall id <- s.cursor.value.stuck :: cfg.region(id) == s.cursor.value.region && id in s.stepped))
    && (forall id <- s.matching ::
          (s.cursor.Some? ==> cfg.region(id) < s.cursor.value.region)
          ==> id in s.stepped || cfg.region(id) in s.overflowed)
  }

  /** Matching and not stepped over, in the region being read or one still to come. */
  ghost function ToRead(cfg: Config, s: State): set<nat>
    requires s.cursor.Some?
  {
    set id | id in s.matching && cfg.region(id) >= s.cursor.value.region && id !in s.cursor.value.stuck
  }

  ghost function Measure(cfg: Config, s: State): int {
    if s.cursor.None? then 0
    else |ToRead(cfg, s)| + Regions(cfg.source) - s.cursor.value.region
  }

  /**
   * A full batch moves every document it read out of the match or onto the stuck list, so what is
   * left to read strictly shrinks; any other batch ends a region.
   */
  lemma BatchMakesProgress(cfg: Config, s: State, batch: Batch)
    requires ValidConfig(cfg) && Inv(cfg, s) && Enabled(cfg, s, batch)
    ensures Inv(cfg, Next(cfg, s, batch))
    ensures Measure(cfg, Next(cfg, s, batch)) < Measure(cfg, s)
    ensures |batch.docs| == cfg.limit && !Overflows(cfg, s, batch) ==>
              Unread(cfg, Next(cfg, s, batch)) == Unread(cfg, s) - SetOf(batch.docs) - batch.others
  {
    var s' := Next(cfg, s, batch);
    var cursor := s.cursor.value;
    BatchKeepsInv(cfg, s, batch);
    if |batch.docs| == cfg.limit && !Overflows(cfg, s, batch) {
      assert batch.docs[0] in SetOf(batch.docs);
      assert batch.docs[0] in ToRead(cfg, s) && batch.docs[0] !in ToRead(cfg, s');
      Smaller(ToRead(cfg, s'), ToRead(cfg, s), batch.docs[0]);
    } else if s'.cursor.Some? {
      Subset(ToRead(cfg, s'), ToRead(cfg, s));
    }
  }

  lemma BatchKeepsInv(cfg: Config, s: State, batch: Batch)
    requires ValidConfig(cfg) && Inv(cfg, s) && Enabled(cfg, s, batch)
    ensures Inv(cfg, Next(cfg, s, batch))
  {
    var s' := Next(cfg, s, batch);
    var cursor := s.cursor.value;
    forall id | id in s'.matching && cfg.region(id) == cursor.region && |batch.docs| < cfg.limit
      ensures id in s'.stepped
    {
      assert id in cursor.stuck || id in Unread(cfg, s);
    }
    forall id | id in batch.left ensures cfg.region(id) == cursor.region && id in s'.stepped {
      assert id in SetOf(batch.left) && id in SetOf(batch.docs) && id in Unread(cfg, s);
    }
  }

  lemma Subset(a: set<nat>, b: set<nat>)
    requires a <= b
    ensures |a| <= |b|
  {
    assert b == a + (b - a);
  }

  lemma Smaller(a: set<nat>, b: set<nat>, x: nat)
    requires a <= b && x in b && x !in a
    ensures |a| < |b|
  {
    Subset(a, b - {x});
  }

  /** The scan of a partition ends, within as many batches as documents plus version regions. */
  lemma {:induction false} TheScanEnds(cfg: Config, s: State, batches: seq<Batch>)
    requires ValidConfig(cfg) && Inv(cfg, s) && Run(cfg, s, batches)
    ensures |batches| <= Measure(cfg, s)
    ensures Inv(cfg, After(cfg, s, batches))
    decreases |batches|
  {
    if batches != [] {
      BatchMakesProgress(cfg, s, batches[0]);
      TheScanEnds(cfg, Next(cfg, s, batches[0]), batches[1..]);
    }
  }

  lemma TheScanEndsWithin(cfg: Config, matching: set<nat>, batches: seq<Batch>)
    requires ValidConfig(cfg) && Run(cfg, Start(matching), batches)
    ensures |batches| <= |matching| + Regions(cfg.source)
  {
    TheScanEnds(cfg, Start(matching), batches);
    assert ToRead(cfg, Start(matching)) == matching;
  }

  /**
   * When the scan ends, every document of the range that still matches was stepped over — read,
   * and not rewritten — or lies in a region that MAX_STUCK cut short. So a scan that never
   * overflowed leaves only stepped-over documents, in both version regions.
   */
  lemma ADoneScanCovers(cfg: Config, matching: set<nat>, batches: seq<Batch>)
    requires ValidConfig(cfg) && Run(cfg, Start(matching), batches)
    requires After(cfg, Start(matching), batches).cursor.None?
    ensures
      var end := After(cfg, Start(matching), batches);
      && (forall id <- end.matching :: id in end.stepped || cfg.region(id) in end.overflowed)
      && (end.overflowed == {} ==> end.matching <= end.stepped)
  {
    TheScanEnds(cfg, Start(matching), batches);
  }

  // ---- What it takes to cut a region short

  /** The stuck list holds each id once, and a region was only ever cut short by more than MAX_STUCK of them. */
  ghost predicate StuckInv(s: State) {
    && (s.cursor.Some? ==> NoneTwice(s.cursor.value.stuck) && SetOf(s.cursor.value.stuck) <= s.stepped)
    && (s.overflowed != {} ==> |s.stepped| > MAX_STUCK)
  }

  lemma {:induction false} AsManyAsListed(ids: seq<nat>)
    requires NoneTwice(ids)
    ensures |SetOf(ids)| == |ids|
    decreases |ids|
  {
    if ids != [] {
      var init, last := ids[..|ids| - 1], ids[|ids| - 1];
      AsManyAsListed(init);
      assert SetOf(ids) == SetOf(init) + {last} && last !in SetOf(init);
    }
  }

  lemma BothNoneTwice(ids: seq<nat>, more: seq<nat>)
    requires NoneTwice(ids) && NoneTwice(more) && forall id <- more :: id !in ids
    ensures NoneTwice(ids + more)
  {
    forall i, j | 0 <= i < j < |ids + more| ensures (ids + more)[i] != (ids + more)[j] {
      if i < |ids| <= j {
        assert more[j - |ids|] in more;
      }
    }
  }

  lemma BatchKeepsStuckInv(cfg: Config, s: State, batch: Batch)
    requires StuckInv(s) && Enabled(cfg, s, batch)
    ensures StuckInv(Next(cfg, s, batch))
  {
    var s' := Next(cfg, s, batch);
    var stuck := s.cursor.value.stuck + batch.left;
    forall id | id in batch.left ensures id !in s.cursor.value.stuck {
      assert id in SetOf(batch.left) && id in SetOf(batch.docs);
    }
    BothNoneTwice(s.cursor.value.stuck, batch.left);
    assert SetOf(stuck) == SetOf(s.cursor.value.stuck) + SetOf(batch.left);
    AsManyAsListed(stuck);
    Subset(SetOf(stuck), s'.stepped);
    Subset(s.stepped, s'.stepped);
  }

  lemma {:induction false} ScansKeepStuckInv(cfg: Config, s: State, batches: seq<Batch>)
    requires StuckInv(s) && Run(cfg, s, batches)
    ensures StuckInv(After(cfg, s, batches))
    decreases |batches|
  {
    if batches != [] {
      BatchKeepsStuckInv(cfg, s, batches[0]);
      ScansKeepStuckInv(cfg, Next(cfg, s, batches[0]), batches[1..]);
    }
  }

  /** A range in which at most a hundred documents are ever stepped over is drained but for those. */
  lemma FewStuckDrain(cfg: Config, matching: set<nat>, batches: seq<Batch>)
    requires ValidConfig(cfg) && Run(cfg, Start(matching), batches)
    requires After(cfg, Start(matching), batches).cursor.None?
    requires |After(cfg, Start(matching), batches).stepped| <= 100
    ensures After(cfg, Start(matching), batches).matching <= After(cfg, Start(matching), batches).stepped
  {
    ScansKeepStuckInv(cfg, Start(matching), batches);
    ADoneScanCovers(cfg, matching, batches);
  }
}
