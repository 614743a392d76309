/**
 * Lanes rewriting a collection that the application keeps writing (src/core/background-engine.js).
 *
 * Every lane's batch is a set of prepared writes: a document read, what the user's code made of
 * it, and the guarded operator update. Between any two steps the application may write, and a
 * prepared write may land late, twice, or never — so a crashed, replayed, retried or fenced-off
 * lane is covered, as are any number of lanes, migrating and reverting at once. `high` records the highest revision a document id
 * ever had: it expresses the assumption that application writes bump the revision and that the
 * revisions of one id never repeat.
 */
module LaneWrites {
  import opened Wrappers
  import opened Documents

  /** Where a lane takes a document from and to. */
  datatype Way = Way(source: nat, target: nat)

  /** `transform`: what the user's code may make of a document on a way. */
  datatype Config = Config(names: Names, transform: (Way, Fields, Transformed) -> bool)

  ghost predicate ValidConfig(cfg: Config) {
    ValidNames(cfg.names) && cfg.names.revisionField.Some?
  }

  type Collection = map<Value, Fields>

  datatype Prepared = Prepared(id: Value, snapshot: Fields, next: Transformed, way: Way)

  datatype State = State(coll: Collection, high: map<Value, nat>, prepared: seq<Prepared>)

  datatype Step =
    | AppPut(id: Value, doc: Fields)
    | AppDelete(id: Value)
    | Prepare(id: Value, next: Transformed, way: Way)
    | Land(k: nat)

  ghost predicate StoredAt(cfg: Config, doc: Fields, id: Value) {
    "_id" in doc && doc["_id"] == id && RevisionOf(doc, cfg.names).Some?
  }

  ghost predicate Initial(cfg: Config, s: State) {
    && s.prepared == []
    && s.high.Keys == s.coll.Keys
    && forall id <- s.coll :: StoredAt(cfg, s.coll[id], id) && s.high[id] == RevisionOf(s.coll[id], cfg.names).value
  }

  ghost predicate Enabled(cfg: Config, s: State, step: Step) {
    match step
    case AppPut(id, doc) =>
      StoredAt(cfg, doc, id) && (id in s.high ==> s.high[id] < RevisionOf(doc, cfg.names).value)
    case AppDelete(id) => true
    case Prepare(id, next, way) =>
      && way.source != way.target
      && id in s.coll && "_id" in s.coll[id]
      && VersionOf(s.coll[id], cfg.names) == Some(way.source)
      && cfg.transform(way, s.coll[id], next)
      && StampedDiff(s.coll[id], next, cfg.names, way.target).Success?
    case Land(k) => k < |s.prepared|
  }

  /** The document a guarded update leaves behind, if it matches and the server takes it. */
  function Written(cfg: Config, coll: Collection, write: Prepared): Option<Fields> {
    if write.id in coll && "_id" in write.snapshot
       && OccMatches(coll[write.id], write.snapshot, cfg.names, write.way.source) then
      match StampedDiff(write.snapshot, write.next, cfg.names, write.way.target)
      case Success(update) => ApplyUpdate(coll[write.id], update)
      case Failure(_) => None
    else None
  }

  ghost function Next(cfg: Config, s: State, step: Step): State
    requires Enabled(cfg, s, step)
  {
    match step
    case AppPut(id, doc) => s.(coll := s.coll[id := doc], high := s.high[id := RevisionOf(doc, cfg.names).value])
    case AppDelete(id) => s.(coll := s.coll - {id})
    case Prepare(id, next, way) => s.(prepared := s.prepared + [Prepared(id, s.coll[id], next, way)])
    case Land(k) =>
      var write := s.prepared[k];
      match Written(cfg, s.coll, write)
      case None => s
      case Some(doc) =>
        s.(coll := s.coll[write.id := doc],
           high := if RevisionOf(doc, cfg.names).Some?
                   then s.high[write.id := RevisionOf(doc, cfg.names).value] else s.high)
  }

  // ---- Every reachable state

  ghost predicate PreparedInv(cfg: Config, s: State, write: Prepared) {
    && StoredAt(cfg, write.snapshot, write.id)
    && write.way.source != write.way.target
    && VersionOf(write.snapshot, cfg.names) == Some(write.way.source)
    && cfg.transform(write.way, write.snapshot, write.next)
    && StampedDiff(write.snapshot, write.next, cfg.names, write.way.target).Success?
    && write.id in s.high
    && RevisionOf(write.snapshot, cfg.names).value <= s.high[write.id]
    // The revision identifies the content.
    && (write.id in s.coll && RevisionOf(s.coll[write.id], cfg.names) == RevisionOf(write.snapshot, cfg.names)
        ==> s.coll[write.id] == write.snapshot)
  }

  ghost predicate Inv(cfg: Config, s: State) {
    && (forall id <- s.coll :: id in s.high && StoredAt(cfg, s.coll[id], id)
                               && s.high[id] == RevisionOf(s.coll[id], cfg.names).value)
    && (forall write <- s.prepared :: PreparedInv(cfg, s, write))
  }

  /**
   * A lane's write lands only on the exact document its transformation was computed from, and
   * stores that transformation's result, stamped.
   */
  lemma WriteLandsOnItsSnapshot(cfg: Config, s: State, k: nat)
    requires ValidConfig(cfg) && Inv(cfg, s) && k < |s.prepared|
    requires Written(cfg, s.coll, s.prepared[k]).Some?
    ensures
      var write := s.prepared[k];
      && PreparedInv(cfg, s, write)
      && write.id in s.coll && s.coll[write.id] == write.snapshot
      && Written(cfg, s.coll, write) == Some(Stamp(write.snapshot, write.next, cfg.names, write.way.target))
  {
    var write := s.prepared[k];
    OccMatchesMeaning(s.coll[write.id], write.snapshot, cfg.names, write.way.source);
    DiffStoresTheStampedDocument(write.snapshot, write.next, cfg.names, write.way.target);
  }

  /** And it lands there exactly if that document is still what it was, with a revision `$inc` takes. */
  lemma AWriteLandsIff(cfg: Config, s: State, k: nat)
    requires ValidConfig(cfg) && Inv(cfg, s) && k < |s.prepared|
    ensures
      var write := s.prepared[k];
      Written(cfg, s.coll, write).Some? <==>
        write.id in s.coll && s.coll[write.id] == write.snapshot && Incrementable(write.snapshot, cfg.names)
  {
    var write := s.prepared[k];
    assert PreparedInv(cfg, s, write);
    DiffStoresTheStampedDocument(write.snapshot, write.next, cfg.names, write.way.target);
    if write.id in s.coll {
      OccMatchesMeaning(s.coll[write.id], write.snapshot, cfg.names, write.way.source);
    }
  }

  lemma StepKeepsInv(cfg: Config, s: State, step: Step)
    requires ValidConfig(cfg) && Inv(cfg, s) && Enabled(cfg, s, step)
    ensures Inv(cfg, Next(cfg, s, step))
  {
    var s' := Next(cfg, s, step);
    if step.Land? && Written(cfg, s.coll, s.prepared[step.k]).Some? {
      var landed := s.prepared[step.k];
      WriteLandsOnItsSnapshot(cfg, s, step.k);
      StampIsAtTheTarget(landed.snapshot, landed.next, cfg.names, landed.way.target);
    }
    forall write <- s'.prepared ensures PreparedInv(cfg, s', write) {
      if write in s.prepared {
        assert PreparedInv(cfg, s, write);
      }
    }
  }

  // ---- Runs, and the serial history each of them stands for

  ghost predicate Run(cfg: Config, s0: State, steps: seq<Step>)
    decreases |steps|, 0
  {
    if steps == [] then Initial(cfg, s0)
    else
      var before := steps[..|steps| - 1];
      Run(cfg, s0, before) && Enabled(cfg, After(cfg, s0, before), steps[|steps| - 1])
  }

  ghost function After(cfg: Config, s0: State, steps: seq<Step>): State
    requires Run(cfg, s0, steps)
    decreases |steps|, 1
  {
    if steps == [] then s0
    else Next(cfg, After(cfg, s0, steps[..|steps| - 1]), steps[|steps| - 1])
  }

  /** In a serial history a migration reads, transforms and writes one document in one event. */
  datatype Event = App(id: Value, doc: Option<Fields>) | Migrate(id: Value, next: Transformed, way: Way)

  ghost predicate EventFits(cfg: Config, coll: Collection, event: Event) {
    event.Migrate? ==>
      && event.way.source != event.way.target
      && event.id in coll && StoredAt(cfg, coll[event.id], event.id)
      && VersionOf(coll[event.id], cfg.names) == Some(event.way.source)
      && event.next.Some? && cfg.transform(event.way, coll[event.id], event.next)
  }

  ghost function Serially(cfg: Config, coll: Collection, event: Event): Collection
    requires EventFits(cfg, coll, event)
  {
    match event
    case App(id, doc) => if doc.Some? then coll[id := doc.value] else coll - {id}
    case Migrate(id, next, way) => coll[id := Stamp(coll[id], next, cfg.names, way.target)]
  }

  ghost predicate SerialHistory(cfg: Config, coll0: Collection, history: seq<Event>)
    decreases |history|, 0
  {
    history == [] ||
    var before := history[..|history| - 1];
    SerialHistory(cfg, coll0, before) && EventFits(cfg, Replay(cfg, coll0, before), history[|history| - 1])
  }

  ghost function Replay(cfg: Config, coll0: Collection, history: seq<Event>): Collection
    requires SerialHistory(cfg, coll0, history)
    decreases |history|, 1
  {
    if history == [] then coll0
    else Serially(cfg, Replay(cfg, coll0, history[..|history| - 1]), history[|history| - 1])
  }

  ghost function EventsOf(cfg: Config, s: State, step: Step): seq<Event>
    requires Enabled(cfg, s, step)
  {
    match step
    case AppPut(id, doc) => [App(id, Some(doc))]
    case AppDelete(id) => [App(id, None)]
    case Prepare(_, _, _) => []
    case Land(k) =>
      var write := s.prepared[k];
      if Written(cfg, s.coll, write).Some? then [Migrate(write.id, write.next, write.way)] else []
  }

  ghost function HistoryOf(cfg: Config, s0: State, steps: seq<Step>): seq<Event>
    requires Run(cfg, s0, steps)
  {
    if steps == [] then []
    else
      var before := steps[..|steps| - 1];
      HistoryOf(cfg, s0, before) + EventsOf(cfg, After(cfg, s0, before), steps[|steps| - 1])
  }

  lemma {:induction false} RunsKeepInv(cfg: Config, s0: State, steps: seq<Step>)
    requires ValidConfig(cfg) && Run(cfg, s0, steps)
    ensures Inv(cfg, After(cfg, s0, steps))
  {
    if steps != [] {
      var before := steps[..|steps| - 1];
      RunsKeepInv(cfg, s0, before);
      StepKeepsInv(cfg, After(cfg, s0, before), steps[|steps| - 1]);
    }
  }

  /**
   * No lost update: whatever the interleaving, the collection is the one its serial history
   * leaves — every application write in its order, every migration one atomic
   * read-transform-write of a document still at the source version.
   */
  lemma {:induction false} EveryRunIsSerial(cfg: Config, s0: State, steps: seq<Step>)
    requires ValidConfig(cfg) && Run(cfg, s0, steps)
    ensures SerialHistory(cfg, s0.coll, HistoryOf(cfg, s0, steps))
    ensures Replay(cfg, s0.coll, HistoryOf(cfg, s0, steps)) == After(cfg, s0, steps).coll
  {
    if steps != [] {
      var before, last := steps[..|steps| - 1], steps[|steps| - 1];
      var s := After(cfg, s0, before);
      EveryRunIsSerial(cfg, s0, before);
      RunsKeepInv(cfg, s0, before);
      var history := HistoryOf(cfg, s0, before);
      StepIsSerial(cfg, s, last);
      ExtendHistory(cfg, s0.coll, history, EventsOf(cfg, s, last));
    }
  }

  /** One step of the machine is the event it stands for, or none. */
  lemma StepIsSerial(cfg: Config, s: State, step: Step)
    requires ValidConfig(cfg) && Inv(cfg, s) && Enabled(cfg, s, step)
    ensures
      var events := EventsOf(cfg, s, step);
      && |events| <= 1
      && (events == [] ==> Next(cfg, s, step).coll == s.coll)
      && (events != [] ==> EventFits(cfg, s.coll, events[0])
                           && Next(cfg, s, step).coll == Serially(cfg, s.coll, events[0]))
  {
    if step.Land? && Written(cfg, s.coll, s.prepared[step.k]).Some? {
      WriteLandsOnItsSnapshot(cfg, s, step.k);
    }
  }

  lemma ExtendHistory(cfg: Config, coll0: Collection, history: seq<Event>, events: seq<Event>)
    requires SerialHistory(cfg, coll0, history) && |events| <= 1
    requires events != [] ==> EventFits(cfg, Replay(cfg, coll0, history), events[0])
    ensures SerialHistory(cfg, coll0, history + events)
    ensures Replay(cfg, coll0, history + events) ==
            if events == [] then Replay(cfg, coll0, history)
            else Serially(cfg, Replay(cfg, coll0, history), events[0])
  {
    if events == [] {
      assert history + events == history;
    } else {
      assert (history + events)[..|history + events| - 1] == history;
    }
  }

  function AppWritesOfHistory(history: seq<Event>): seq<(Value, Option<Fields>)> {
    if history == [] then []
    else
      var last := history[|history| - 1];
      AppWritesOfHistory(history[..|history| - 1]) + if last.App? then [(last.id, last.doc)] else []
  }

  function AppWritesOfRun(steps: seq<Step>): seq<(Value, Option<Fields>)> {
    if steps == [] then []
    else
      AppWritesOfRun(steps[..|steps| - 1]) +
      match steps[|steps| - 1]
      case AppPut(id, doc) => [(id, Some(doc))]
      case AppDelete(id) => [(id, None)]
      case _ => []
  }

  /** The serial history holds every application write, once, in the order they were made. */
  lemma {:induction false} NoApplicationWriteIsLost(cfg: Config, s0: State, steps: seq<Step>)
    requires Run(cfg, s0, steps)
    ensures AppWritesOfHistory(HistoryOf(cfg, s0, steps)) == AppWritesOfRun(steps)
  {
    if steps != [] {
      var before, last := steps[..|steps| - 1], steps[|steps| - 1];
      NoApplicationWriteIsLost(cfg, s0, before);
      var history, events := HistoryOf(cfg, s0, before), EventsOf(cfg, After(cfg, s0, before), last);
      if events == [] {
        assert history + events == history;
      } else {
        assert (history + events)[..|history + events| - 1] == history;
      }
    }
  }

  /** An event that leaves the document at a version: an application write, or a migration to it. */
  ghost predicate PutsBack(cfg: Config, event: Event, id: Value, version: nat) {
    && event.id == id
    && match event
       case App(_, doc) => doc.Some? && VersionOf(doc.value, cfg.names) == Some(version)
       case Migrate(_, _, way) => way.target == version
  }

  lemma {:induction false} PrefixIsSerial(cfg: Config, coll0: Collection, history: seq<Event>, n: nat)
    requires SerialHistory(cfg, coll0, history) && n <= |history|
    ensures SerialHistory(cfg, coll0, history[..n])
  {
    if n < |history| {
      PrefixIsSerial(cfg, coll0, history[..|history| - 1], n);
      assert history[..|history| - 1][..n] == history[..n];
    } else {
      assert history[..n] == history;
    }
  }

  /**
   * A document crosses from a version at most once, crash replays and late writes included: between
   * two migrations of one id from the same version something stored that version again — the
   * application, or a migration the other way.
   */
  lemma {:induction false} CrossesOnce(cfg: Config, coll0: Collection, history: seq<Event>, i: nat, j: nat)
    requires ValidConfig(cfg) && SerialHistory(cfg, coll0, history)
    requires i < j < |history| && history[i].Migrate? && history[j].Migrate? && history[i].id == history[j].id
    requires history[i].way.source == history[j].way.source
    ensures exists k :: i < k < j && PutsBack(cfg, history[k], history[i].id, history[i].way.source)
  {
    PrefixIsSerial(cfg, coll0, history, j + 1);
    var upToJ := history[..j + 1];
    assert upToJ[..|upToJ| - 1] == history[..j];
    assert EventFits(cfg, Replay(cfg, coll0, history[..j]), history[j]);
    SourceMeansPutBack(cfg, coll0, history, i, j);
  }

  lemma {:induction false} SourceMeansPutBack(cfg: Config, coll0: Collection, history: seq<Event>, i: nat, j: nat)
    requires ValidConfig(cfg) && SerialHistory(cfg, coll0, history)
    requires i < j <= |history| && history[i].Migrate? && SerialHistory(cfg, coll0, history[..j])
    requires
      var coll := Replay(cfg, coll0, history[..j]);
      history[i].id in coll && VersionOf(coll[history[i].id], cfg.names) == Some(history[i].way.source)
    ensures exists k :: i < k < j && PutsBack(cfg, history[k], history[i].id, history[i].way.source)
    decreases j
  {
    var id := history[i].id;
    var upTo := history[..j];
    assert upTo[..|upTo| - 1] == history[..j - 1] && upTo[|upTo| - 1] == history[j - 1];
    var coll := Replay(cfg, coll0, history[..j - 1]);
    var last := history[j - 1];
    if last.Migrate? {
      StampIsAtTheTarget(coll[last.id], last.next, cfg.names, last.way.target);
    }
    if i + 1 == j {
      assert false;
    } else if !PutsBack(cfg, last, id, history[i].way.source) {
      SourceMeansPutBack(cfg, coll0, history, i, j - 1);
    }
  }
}
