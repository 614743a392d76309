/**
 * The accounting of one batch (src/core/background-engine.js, applyBatch outside a transaction):
 * transform, write, see what became of the documents whose write matched nothing, and retry those
 * still in the old shape, up to `maxConflictRetries` times. What the server answers in each round
 * is a parameter, so the claims hold whatever the application does in between.
 */
module ApplyBatch {
  import opened Wrappers
  import opened Documents

  datatype Config = Config(source: nat, target: nat, revisions: bool, maxConflictRetries: nat)

  /** A document as the accounting sees it: its id, and the revision it was read at. */
  datatype Doc = Doc(id: nat, revision: Option<nat>)

  /** Version and revision of a document read again; `None` is a value that is not a count. */
  datatype Seen = Seen(version: Option<nat>, revision: Option<nat>)

  /**
   * One round's answers: the ids refused before the write (the transformation threw, changed the
   * shard key, returned a bad shape), the ids whose write failed, how many writes matched, what a
   * read by id finds, and — by id — the documents that still match the migration's filter.
   */
  datatype Round = Round(refused: set<nat>, failed: set<nat>, matched: nat,
                         current: map<nat, Seen>, matching: map<nat, Option<nat>>)

  datatype Counts = Counts(migrated: nat, skipped: nat, conflicts: nat, retried: nat, errors: seq<nat>, left: seq<nat>)

  // ---- What the batch is meant to conclude about each document

  datatype Verdict = Refused | Failed | Rewritten | Moved | NoLongerMatching | InTheWay

  /** The revision the batch's own write leaves. */
  function NextRevision(doc: Doc): nat {
    (if doc.revision.Some? then doc.revision.value else 0) + 1
  }

  function VerdictOf(cfg: Config, doc: Doc, r: Round): Verdict {
    if doc.id in r.refused then Refused
    else if doc.id in r.failed then Failed
    else if doc.id !in r.current then Moved
    else if r.current[doc.id].version == Some(cfg.target) then
      if !cfg.revisions || r.current[doc.id].revision == Some(NextRevision(doc)) then Rewritten else Moved
    else if r.current[doc.id].version == Some(cfg.source) then
      if doc.id in r.matching then InTheWay else NoLongerMatching
    else Moved
  }

  /** A round's read by id found this — or, `None`, nothing — where the document was. */
  predicate Sees(r: Round, id: nat, stored: Option<Fields>, names: Names) {
    if stored.None? then id !in r.current
    else id in r.current && r.current[id] == Seen(VersionOf(stored.value, names), RevisionOf(stored.value, names))
  }

  /**
   * What a verdict says of the document stored now, for a batch that read `prev` and sent its guarded
   * update to `next`:
   * - the batch's own write, still in place, counts as rewritten, if the revision read was a count;
   * - a document the update would still apply to is never taken for done: it is in the way or no
   *   longer of the migration's;
   * - what counts as rewritten is at the target version, at the revision the batch's write has, and
   *   out of that write's reach for good;
   * - what is tried again is at the source version, and its old update applies only at the revision
   *   first read.
   */
  lemma VerdictMeaning(cfg: Config, names: Names, prev: Fields, next: Transformed, stored: Option<Fields>, id: nat, r: Round)
    requires ValidNames(names) && cfg.revisions == names.revisionField.Some? && cfg.source != cfg.target
    requires "_id" in prev && StampedDiff(prev, next, names, cfg.target).Success?
    requires id !in r.refused && id !in r.failed && Sees(r, id, stored, names)
    ensures
      var verdict := VerdictOf(cfg, Doc(id, RevisionOf(prev, names)), r);
      && (stored.Some? && stored == ApplyUpdate(prev, StampedDiff(prev, next, names, cfg.target).value) ==>
            (verdict == Rewritten <==> RevisionOf(prev, names).Some?))
      && (stored.Some? && OccMatches(stored.value, prev, names, cfg.source) ==>
            verdict == InTheWay || verdict == NoLongerMatching)
      && (verdict == Rewritten ==>
            && stored.Some? && VersionOf(stored.value, names) == Some(cfg.target)
            && (RevisionOf(prev, names).Some? && cfg.revisions ==>
                  RevisionOf(stored.value, names) == RevisionOf(Stamp(prev, next, names, cfg.target), names))
            && !OccMatches(stored.value, prev, names, cfg.source))
      && (verdict == InTheWay ==>
            && stored.Some? && VersionOf(stored.value, names) == Some(cfg.source)
            && (OccMatches(stored.value, prev, names, cfg.source) <==> SameRevision(stored.value, prev, names)))
  {
    DiffStoresTheStampedDocument(prev, next, names, cfg.target);
    StampIsAtTheTarget(prev, next, names, cfg.target);
    if stored.Some? {
      OccMatchesMeaning(stored.value, prev, names, cfg.source);
    }
  }

  /** The ids of the documents with one verdict, in batch order. */
  function With(cfg: Config, docs: seq<Doc>, r: Round, verdict: Verdict): seq<nat> {
    if docs == [] then []
    else
      var before, last := With(cfg, docs[..|docs| - 1], r, verdict), docs[|docs| - 1];
      if VerdictOf(cfg, last, r) == verdict then before + [last.id] else before
  }

  /** The documents whose write was neither refused nor failed. */
  function Candidates(docs: seq<Doc>, r: Round): seq<Doc> {
    if docs == [] then []
    else
      var before, last := Candidates(docs[..|docs| - 1], r), docs[|docs| - 1];
      if last.id in r.refused || last.id in r.failed then before else before + [last]
  }

  function Ids(docs: seq<Doc>): (ids: seq<nat>)
    ensures |ids| == |docs|
  {
    if docs == [] then [] else Ids(docs[..|docs| - 1]) + [docs[|docs| - 1].id]
  }

  /** Every document of a batch, by what became of it in the end. */
  datatype Account = Account(migrated: seq<nat>, skipped: seq<nat>, conflicts: seq<nat>, errors: seq<nat>) {
    function Plus(more: Account): Account {
      Account(migrated + more.migrated, skipped + more.skipped, conflicts + more.conflicts, errors + more.errors)
    }

    function Size(): nat {
      |migrated| + |skipped| + |conflicts| + |errors|
    }

    predicate Has(id: nat) {
      id in migrated || id in skipped || id in conflicts || id in errors
    }
  }

  /** Every write that did not fail matched: nothing moved under the batch. */
  predicate Clean(docs: seq<Doc>, r: Round) {
    r.matched == |Candidates(docs, r)|
  }

  /** What one round is done with: everything but the documents still in the way. */
  function Concluded(cfg: Config, docs: seq<Doc>, r: Round): Account {
    var errors := With(cfg, docs, r, Refused) + With(cfg, docs, r, Failed);
    if Clean(docs, r) then Account(Ids(Candidates(docs, r)), [], [], errors)
    else Account(With(cfg, docs, r, Rewritten),
                 With(cfg, docs, r, Moved) + With(cfg, docs, r, NoLongerMatching), [], errors)
  }

  /** The documents still in the way, as read again. */
  function Again(cfg: Config, docs: seq<Doc>, r: Round): seq<Doc> {
    if Clean(docs, r) then [] else Reread(With(cfg, docs, r, InTheWay), r)
  }

  function Reread(ids: seq<nat>, r: Round): (again: seq<Doc>)
    ensures Ids(again) == ids
  {
    if ids == [] then []
    else
      var id := ids[|ids| - 1];
      Reread(ids[..|ids| - 1], r) + [Doc(id, if id in r.matching then r.matching[id] else None)]
  }

  const NOTHING := Account([], [], [], [])

  function Settle(cfg: Config, docs: seq<Doc>, env: nat -> Round, round: nat): Account
    decreases cfg.maxConflictRetries + 1 - round
  {
    if docs == [] || round > cfg.maxConflictRetries then NOTHING
    else
      var again := Again(cfg, docs, env(round));
      Concluded(cfg, docs, env(round)).Plus(
        if round == cfg.maxConflictRetries then NOTHING.(conflicts := Ids(again))
        else Settle(cfg, again, env, round + 1))
  }

  // ---- Every document is accounted for exactly once

  lemma {:induction false} VerdictsSplitTheBatch(cfg: Config, docs: seq<Doc>, r: Round)
    ensures |With(cfg, docs, r, Refused)| + |With(cfg, docs, r, Failed)| + |Candidates(docs, r)| == |docs|
    ensures |With(cfg, docs, r, Rewritten)| + |With(cfg, docs, r, Moved)| + |With(cfg, docs, r, NoLongerMatching)|
            + |With(cfg, docs, r, InTheWay)| == |Candidates(docs, r)|
  {
    if docs != [] {
      VerdictsSplitTheBatch(cfg, docs[..|docs| - 1], r);
    }
  }

  lemma {:induction false} WithMeaning(cfg: Config, docs: seq<Doc>, r: Round, verdict: Verdict)
    ensures forall id :: id in With(cfg, docs, r, verdict) <==>
                         exists doc <- docs :: doc.id == id && VerdictOf(cfg, doc, r) == verdict
  {
    if docs != [] {
      WithMeaning(cfg, docs[..|docs| - 1], r, verdict);
      assert docs == docs[..|docs| - 1] + [docs[|docs| - 1]];
    }
  }

  lemma {:induction false} CandidatesMeaning(cfg: Config, docs: seq<Doc>, r: Round)
    ensures forall doc :: doc in Candidates(docs, r) <==>
                          doc in docs && VerdictOf(cfg, doc, r) != Refused && VerdictOf(cfg, doc, r) != Failed
  {
    if docs != [] {
      CandidatesMeaning(cfg, docs[..|docs| - 1], r);
      assert docs == docs[..|docs| - 1] + [docs[|docs| - 1]];
    }
  }

  lemma {:induction false} IdsMeaning(docs: seq<Doc>)
    ensures forall id :: id in Ids(docs) <==> exists doc <- docs :: doc.id == id
  {
    if docs != [] {
      IdsMeaning(docs[..|docs| - 1]);
      assert docs == docs[..|docs| - 1] + [docs[|docs| - 1]];
    }
  }

  lemma OneRoundCounts(cfg: Config, docs: seq<Doc>, r: Round)
    ensures Concluded(cfg, docs, r).Size() + |Again(cfg, docs, r)| == |docs|
  {
    VerdictsSplitTheBatch(cfg, docs, r);
  }

  lemma OneRoundAccounts(cfg: Config, docs: seq<Doc>, r: Round, id: nat)
    ensures id in Ids(docs) <==> Concluded(cfg, docs, r).Has(id) || id in Ids(Again(cfg, docs, r))
  {
    IdsMeaning(docs);
    forall verdict: Verdict { WithMeaning(cfg, docs, r, verdict); }
    CandidatesMeaning(cfg, docs, r);
    IdsMeaning(Candidates(docs, r));
  }

  /** What a round settles itself: in the last one, what is still in the way as well. */
  function SettledHere(cfg: Config, docs: seq<Doc>, r: Round, last: bool): Account {
    if last then Concluded(cfg, docs, r).(conflicts := Ids(Again(cfg, docs, r))) else Concluded(cfg, docs, r)
  }

  function HandedOn(cfg: Config, docs: seq<Doc>, r: Round, last: bool): seq<Doc> {
    if last then [] else Again(cfg, docs, r)
  }

  /** The documents handed on to another round, over all rounds. */
  function Retries(cfg: Config, docs: seq<Doc>, env: nat -> Round, round: nat): nat
    decreases cfg.maxConflictRetries + 1 - round
  {
    if docs == [] || round >= cfg.maxConflictRetries then 0
    else |Again(cfg, docs, env(round))| + Retries(cfg, Again(cfg, docs, env(round)), env, round + 1)
  }

  lemma RoundSettles(cfg: Config, docs: seq<Doc>, env: nat -> Round, round: nat)
    requires docs != [] && round <= cfg.maxConflictRetries
    ensures
      var last := round == cfg.maxConflictRetries;
      Settle(cfg, docs, env, round) ==
        SettledHere(cfg, docs, env(round), last).Plus(Settle(cfg, HandedOn(cfg, docs, env(round), last), env, round + 1))
  {
  }

  /** The four counts of a batch add up to the documents given to it. */
  lemma {:induction false} EveryDocumentIsCounted(cfg: Config, docs: seq<Doc>, env: nat -> Round, round: nat)
    requires round <= cfg.maxConflictRetries
    ensures Settle(cfg, docs, env, round).Size() == |docs|
    decreases cfg.maxConflictRetries - round
  {
    OneRoundCounts(cfg, docs, env(round));
    if docs != [] && round < cfg.maxConflictRetries {
      EveryDocumentIsCounted(cfg, Again(cfg, docs, env(round)), env, round + 1);
    }
  }

  /** And they hold each of its documents, and nothing else. */
  lemma {:induction false} EveryDocumentIsAccountedFor(cfg: Config, docs: seq<Doc>, env: nat -> Round, round: nat, id: nat)
    requires round <= cfg.maxConflictRetries
    ensures id in Ids(docs) <==> Settle(cfg, docs, env, round).Has(id)
    decreases cfg.maxConflictRetries - round
  {
    OneRoundAccounts(cfg, docs, env(round), id);
    if docs != [] && round < cfg.maxConflictRetries {
      EveryDocumentIsAccountedFor(cfg, Again(cfg, docs, env(round)), env, round + 1, id);
    }
  }

  lemma {:induction false} InTheWayMeaning(cfg: Config, docs: seq<Doc>, r: Round, id: nat)
    requires id in With(cfg, docs, r, InTheWay)
    ensures id in r.current && r.current[id].version == Some(cfg.source) && id in r.matching
  {
    if docs != [] && VerdictOf(cfg, docs[|docs| - 1], r) != InTheWay {
      InTheWayMeaning(cfg, docs[..|docs| - 1], r, id);
    } else if docs != [] && docs[|docs| - 1].id != id {
      InTheWayMeaning(cfg, docs[..|docs| - 1], r, id);
    }
  }

  lemma ConflictsWereInTheWay(cfg: Config, docs: seq<Doc>, env: nat -> Round, round: nat, id: nat)
    requires round <= cfg.maxConflictRetries && id in Settle(cfg, docs, env, round).conflicts
    ensures id in With(cfg, docs, env(round), InTheWay)
    ensures round < cfg.maxConflictRetries ==>
              id in Settle(cfg, Again(cfg, docs, env(round)), env, round + 1).conflicts
  {
    if round < cfg.maxConflictRetries {
      EveryDocumentIsAccountedFor(cfg, Again(cfg, docs, env(round)), env, round + 1, id);
    }
  }

  /**
   * A conflict is a document that every round found again at the source version, still matching —
   * nothing else is left to the next pass.
   */
  lemma {:induction false} ConflictsAreStillInTheWay(cfg: Config, docs: seq<Doc>, env: nat -> Round, round: nat, id: nat, k: nat)
    requires round <= k <= cfg.maxConflictRetries && id in Settle(cfg, docs, env, round).conflicts
    ensures id in env(k).current && env(k).current[id].version == Some(cfg.source) && id in env(k).matching
    decreases k - round
  {
    ConflictsWereInTheWay(cfg, docs, env, round, id);
    if round < k {
      ConflictsAreStillInTheWay(cfg, Again(cfg, docs, env(round)), env, round + 1, id, k);
    } else {
      InTheWayMeaning(cfg, docs, env(round), id);
    }
  }

  // ---- What the counts say of the documents

  /** The documents of round k: what the rounds before it handed on. */
  function PendingAt(cfg: Config, docs: seq<Doc>, env: nat -> Round, round: nat, k: nat): seq<Doc>
    requires round <= k
    decreases k - round
  {
    if k == round then docs else PendingAt(cfg, Again(cfg, docs, env(round)), env, round + 1, k)
  }

  /** The documents of rounds `round` to k, a document once for each. */
  function Tries(cfg: Config, docs: seq<Doc>, env: nat -> Round, round: nat, k: nat): nat
    requires round <= k
    decreases k - round
  {
    |PendingAt(cfg, docs, env, round, k)| + if k == round then 0 else Tries(cfg, docs, env, round, k - 1)
  }

  lemma {:induction false} TriesFromTheNext(cfg: Config, docs: seq<Doc>, env: nat -> Round, round: nat, k: nat)
    requires round < k
    ensures Tries(cfg, docs, env, round, k) == |docs| + Tries(cfg, Again(cfg, docs, env(round)), env, round + 1, k)
    decreases k
  {
    if k > round + 1 {
      TriesFromTheNext(cfg, docs, env, round, k - 1);
    } else {
      assert Tries(cfg, docs, env, round, round) == |docs|;
    }
  }

  lemma NoneAgain(cfg: Config, r: Round)
    ensures Again(cfg, [], r) == []
  {
  }

  lemma OneRoundRetried(cfg: Config, docs: seq<Doc>, env: nat -> Round, round: nat)
    requires round < cfg.maxConflictRetries
    ensures Retries(cfg, docs, env, round) ==
            |Again(cfg, docs, env(round))| + Retries(cfg, Again(cfg, docs, env(round)), env, round + 1)
  {
    NoneAgain(cfg, env(round));
  }

  /** What counts as retried is every try of a document after its first. */
  lemma {:induction false} RetriesAreLaterTries(cfg: Config, docs: seq<Doc>, env: nat -> Round, round: nat)
    requires round <= cfg.maxConflictRetries
    ensures Tries(cfg, docs, env, round, cfg.maxConflictRetries) == |docs| + Retries(cfg, docs, env, round)
    decreases cfg.maxConflictRetries - round
  {
    if round < cfg.maxConflictRetries {
      TriesFromTheNext(cfg, docs, env, round, cfg.maxConflictRetries);
      RetriesAreLaterTries(cfg, Again(cfg, docs, env(round)), env, round + 1);
      OneRoundRetried(cfg, docs, env, round);
    } else {
      assert PendingAt(cfg, docs, env, round, round) == docs;
    }
  }

  predicate Attempted(r: Round, id: nat) {
    id !in r.refused && id !in r.failed
  }

  /** Read again, the document is at the target, at the revision its write leaves. */
  predicate FoundRewritten(cfg: Config, r: Round, doc: Doc) {
    && doc.id in r.current && r.current[doc.id].version == Some(cfg.target)
    && (cfg.revisions ==> r.current[doc.id].revision == Some(NextRevision(doc)))
  }

  /** Gone; at a version that is neither; at the target by another write; or out of the migration's filter. */
  predicate FoundOutOfTheWay(cfg: Config, r: Round, doc: Doc) {
    || doc.id !in r.current
    || (r.current[doc.id].version != Some(cfg.target) && r.current[doc.id].version != Some(cfg.source))
    || (r.current[doc.id].version == Some(cfg.target) && cfg.revisions && r.current[doc.id].revision != Some(NextRevision(doc)))
    || (r.current[doc.id].version == Some(cfg.source) && doc.id !in r.matching)
  }

  /** Still in the old shape, and still the migration's. */
  predicate FoundInTheWay(cfg: Config, r: Round, id: nat) {
    id in r.current && r.current[id].version == Some(cfg.source) && id in r.matching
  }

  lemma MigratedHere(cfg: Config, docs: seq<Doc>, r: Round, id: nat) returns (doc: Doc)
    requires id in Concluded(cfg, docs, r).migrated
    ensures doc in docs && doc.id == id && Attempted(r, id) && (Clean(docs, r) || FoundRewritten(cfg, r, doc))
  {
    if Clean(docs, r) {
      IdsMeaning(Candidates(docs, r));
      CandidatesMeaning(cfg, docs, r);
      doc :| doc in Candidates(docs, r) && doc.id == id;
    } else {
      WithMeaning(cfg, docs, r, Rewritten);
      doc :| doc in docs && doc.id == id && VerdictOf(cfg, doc, r) == Rewritten;
    }
  }

  /**
   * A document counted as migrated was written in some round: one in which every write that did not fail
   * matched, or one after which it was found at the target version, at the revision its write leaves.
   */
  lemma {:induction false} MigratedMeaning(cfg: Config, docs: seq<Doc>, env: nat -> Round, round: nat, id: nat)
    returns (k: nat, doc: Doc)
    requires round <= cfg.maxConflictRetries && id in Settle(cfg, docs, env, round).migrated
    ensures round <= k <= cfg.maxConflictRetries
    ensures doc in PendingAt(cfg, docs, env, round, k) && doc.id == id && Attempted(env(k), id)
    ensures Clean(PendingAt(cfg, docs, env, round, k), env(k)) || FoundRewritten(cfg, env(k), doc)
    decreases cfg.maxConflictRetries - round
  {
    if id in Concluded(cfg, docs, env(round)).migrated {
      k := round;
      doc := MigratedHere(cfg, docs, env(round), id);
    } else {
      k, doc := MigratedMeaning(cfg, Again(cfg, docs, env(round)), env, round + 1, id);
    }
  }

  /**
   * One counted as skipped was found, after a round whose writes did not all match, gone, at a version
   * that is neither the source nor the target, at the target by somebody else's write, or no longer in
   * the migration's filter.
   */
  lemma {:induction false} SkippedMeaning(cfg: Config, docs: seq<Doc>, env: nat -> Round, round: nat, id: nat)
    returns (k: nat, doc: Doc)
    requires round <= cfg.maxConflictRetries && id in Settle(cfg, docs, env, round).skipped
    ensures round <= k <= cfg.maxConflictRetries
    ensures doc in PendingAt(cfg, docs, env, round, k) && doc.id == id && Attempted(env(k), id)
    ensures !Clean(PendingAt(cfg, docs, env, round, k), env(k)) && FoundOutOfTheWay(cfg, env(k), doc)
    decreases cfg.maxConflictRetries - round
  {
    if id in Concluded(cfg, docs, env(round)).skipped {
      k := round;
      var verdict := if id in With(cfg, docs, env(k), Moved) then Moved else NoLongerMatching;
      WithMeaning(cfg, docs, env(k), verdict);
      doc :| doc in docs && doc.id == id && VerdictOf(cfg, doc, env(k)) == verdict;
    } else {
      k, doc := SkippedMeaning(cfg, Again(cfg, docs, env(round)), env, round + 1, id);
    }
  }

  /** A round whose writes did not all match leaves a document that is still in the way to the next. */
  ghost predicate HandsOn(cfg: Config, docs: seq<Doc>, r: Round, id: nat) {
    id in Ids(docs) && !Clean(docs, r) && Attempted(r, id) && FoundInTheWay(cfg, r, id)
  }

  lemma {:induction false} RereadHas(ids: seq<nat>, r: Round, doc: Doc)
    ensures doc in Reread(ids, r) <==>
            doc.id in ids && doc.revision == if doc.id in r.matching then r.matching[doc.id] else None
  {
    if ids != [] {
      var n := |ids| - 1;
      RereadHas(ids[..n], r, doc);
      assert ids == ids[..n] + [ids[n]];
    }
  }

  /** Handed on are exactly the documents still in the way, each at the revision it is read at now. */
  lemma AgainMeaning(cfg: Config, docs: seq<Doc>, r: Round, doc: Doc)
    requires cfg.source != cfg.target
    ensures doc in Again(cfg, docs, r) <==> HandsOn(cfg, docs, r, doc.id) && doc.revision == r.matching[doc.id]
  {
    IdsMeaning(docs);
    WithMeaning(cfg, docs, r, InTheWay);
    RereadHas(With(cfg, docs, r, InTheWay), r, doc);
    if HandsOn(cfg, docs, r, doc.id) {
      var was :| was in docs && was.id == doc.id;
      assert VerdictOf(cfg, was, r) == InTheWay;
    }
  }

  lemma AgainIds(cfg: Config, docs: seq<Doc>, r: Round, id: nat)
    requires cfg.source != cfg.target
    ensures id in Ids(Again(cfg, docs, r)) <==> HandsOn(cfg, docs, r, id)
  {
    IdsMeaning(Again(cfg, docs, r));
    if HandsOn(cfg, docs, r, id) {
      AgainMeaning(cfg, docs, r, Doc(id, r.matching[id]));
      assert Doc(id, r.matching[id]) in Again(cfg, docs, r);
    }
    forall doc | doc in Again(cfg, docs, r) && doc.id == id ensures HandsOn(cfg, docs, r, id) {
      AgainMeaning(cfg, docs, r, doc);
    }
  }

  /** Every round from this one on hands it on. */
  ghost predicate AlwaysHandedOn(cfg: Config, docs: seq<Doc>, env: nat -> Round, round: nat, id: nat)
    decreases cfg.maxConflictRetries + 1 - round
  {
    round <= cfg.maxConflictRetries ==>
      HandsOn(cfg, docs, env(round), id) && AlwaysHandedOn(cfg, Again(cfg, docs, env(round)), env, round + 1, id)
  }

  /**
   * Retried as long as it is in the way, and no longer: a document is a conflict in the end exactly if
   * every round attempted it, had writes that did not match, and found it still in the old shape.
   */
  lemma {:induction false} ConflictsIff(cfg: Config, docs: seq<Doc>, env: nat -> Round, round: nat, id: nat)
    requires round <= cfg.maxConflictRetries && cfg.source != cfg.target
    ensures id in Settle(cfg, docs, env, round).conflicts <==> AlwaysHandedOn(cfg, docs, env, round, id)
    decreases cfg.maxConflictRetries - round
  {
    AgainIds(cfg, docs, env(round), id);
    if docs != [] && round < cfg.maxConflictRetries {
      ConflictsIff(cfg, Again(cfg, docs, env(round)), env, round + 1, id);
    }
  }

  /** Some round refused it before the write, or its write failed there. */
  ghost predicate SomeRoundFailsIt(cfg: Config, docs: seq<Doc>, env: nat -> Round, round: nat, id: nat)
    decreases cfg.maxConflictRetries + 1 - round
  {
    round <= cfg.maxConflictRetries &&
    (|| (id in Ids(docs) && !Attempted(env(round), id))
     || SomeRoundFailsIt(cfg, Again(cfg, docs, env(round)), env, round + 1, id))
  }

  lemma {:induction false} ErrorsIff(cfg: Config, docs: seq<Doc>, env: nat -> Round, round: nat, id: nat)
    requires round <= cfg.maxConflictRetries
    ensures id in Settle(cfg, docs, env, round).errors <==> SomeRoundFailsIt(cfg, docs, env, round, id)
    decreases cfg.maxConflictRetries - round
  {
    ErrorsHere(cfg, docs, env(round), id);
    if docs == [] || round == cfg.maxConflictRetries {
      NothingFailsLater(cfg, Again(cfg, docs, env(round)), env, round + 1, id);
    } else {
      ErrorsIff(cfg, Again(cfg, docs, env(round)), env, round + 1, id);
    }
  }

  lemma ErrorsHere(cfg: Config, docs: seq<Doc>, r: Round, id: nat)
    ensures id in Concluded(cfg, docs, r).errors <==> id in Ids(docs) && !Attempted(r, id)
    ensures docs == [] ==> Again(cfg, docs, r) == []
  {
    IdsMeaning(docs);
    WithMeaning(cfg, docs, r, Refused);
    WithMeaning(cfg, docs, r, Failed);
    if id in Ids(docs) && !Attempted(r, id) {
      var doc :| doc in docs && doc.id == id;
      assert VerdictOf(cfg, doc, r) == Refused || VerdictOf(cfg, doc, r) == Failed;
    }
  }

  lemma {:induction false} NothingFailsLater(cfg: Config, docs: seq<Doc>, env: nat -> Round, round: nat, id: nat)
    requires round > cfg.maxConflictRetries || docs == []
    ensures !SomeRoundFailsIt(cfg, docs, env, round, id)
    decreases cfg.maxConflictRetries + 1 - round
  {
    if round <= cfg.maxConflictRetries {
      ErrorsHere(cfg, docs, env(round), id);
      NothingFailsLater(cfg, Again(cfg, docs, env(round)), env, round + 1, id);
    }
  }

  // ---- The batch itself

  lemma {:induction false} WithOfCandidates(cfg: Config, docs: seq<Doc>, r: Round, verdict: Verdict)
    requires verdict != Refused && verdict != Failed
    ensures With(cfg, Candidates(docs, r), r, verdict) == With(cfg, docs, r, verdict)
  {
    if docs != [] {
      var init, last, kept := docs[..|docs| - 1], docs[|docs| - 1], Candidates(docs, r);
      WithOfCandidates(cfg, init, r, verdict);
      if last.id !in r.refused && last.id !in r.failed {
        assert kept[..|kept| - 1] == Candidates(init, r);
      }
    }
  }

  /** The operations of one round, and the errors: refused before the write, or failed by it. */
  method WriteRound(cfg: Config, docs: seq<Doc>, r: Round)
    returns (candidates: seq<Doc>, errors: seq<nat>)
    ensures candidates == Candidates(docs, r)
    ensures errors == With(cfg, docs, r, Refused) + With(cfg, docs, r, Failed)
  {
    var refused: seq<nat>, failed: seq<nat> := [], [];
    candidates := [];
    for i := 0 to |docs|
      invariant refused == With(cfg, docs[..i], r, Refused) && failed == With(cfg, docs[..i], r, Failed)
      invariant candidates == Candidates(docs[..i], r)
    {
      var doc := docs[i];
      assert docs[..i + 1][..i] == docs[..i];
      if doc.id in r.refused {
        refused := refused + [doc.id];
      } else if doc.id in r.failed {
        failed := failed + [doc.id];
      } else {
        candidates := candidates + [doc];
      }
    }
    assert docs[..|docs|] == docs;
    errors := refused + failed;
  }

  /** Tallies of what a round's unmatched writes turned out to be. */
  ghost predicate Judged(cfg: Config, docs: seq<Doc>, r: Round, migrated: nat, skipped: nat, ids: seq<nat>) {
    && migrated == |With(cfg, docs, r, Rewritten)|
    && skipped == |With(cfg, docs, r, Moved)| + |With(cfg, docs, r, NoLongerMatching)|
    && ids == With(cfg, docs, r, InTheWay)
  }

  lemma JudgedMore(cfg: Config, docs: seq<Doc>, r: Round, i: nat, migrated: nat, skipped: nat, ids: seq<nat>)
    requires i < |docs| && Judged(cfg, docs[..i], r, migrated, skipped, ids)
    requires docs[i].id !in r.refused && docs[i].id !in r.failed
    ensures
      var verdict := VerdictOf(cfg, docs[i], r);
      && (verdict == Rewritten ==> Judged(cfg, docs[..i + 1], r, migrated + 1, skipped, ids))
      && (verdict == Moved || verdict == NoLongerMatching ==> Judged(cfg, docs[..i + 1], r, migrated, skipped + 1, ids))
      && (verdict == InTheWay ==> Judged(cfg, docs[..i + 1], r, migrated, skipped, ids + [docs[i].id]))
  {
    assert docs[..i + 1][..i] == docs[..i];
  }

  /** What a document whose write matched nothing is now. */
  method Judge(cfg: Config, doc: Doc, r: Round) returns (verdict: Verdict)
    requires doc.id !in r.refused && doc.id !in r.failed
    ensures verdict == VerdictOf(cfg, doc, r) && verdict != Refused && verdict != Failed
  {
    if doc.id !in r.current { return Moved; }
    if r.current[doc.id].version == Some(cfg.target) {
      return if !cfg.revisions || r.current[doc.id].revision == Some(NextRevision(doc)) then Rewritten else Moved;
    }
    if r.current[doc.id].version == Some(cfg.source) {
      return if doc.id in r.matching then InTheWay else NoLongerMatching;
    }
    return Moved;
  }

  /** Some writes matched nothing: what the documents behind them are now. */
  method JudgeRound(cfg: Config, candidates: seq<Doc>, r: Round)
    returns (migrated: nat, skipped: nat, again: seq<Doc>)
    requires forall doc <- candidates :: doc.id !in r.refused && doc.id !in r.failed
    ensures migrated == |With(cfg, candidates, r, Rewritten)|
    ensures skipped == |With(cfg, candidates, r, Moved)| + |With(cfg, candidates, r, NoLongerMatching)|
    ensures again == Reread(With(cfg, candidates, r, InTheWay), r)
  {
    migrated, skipped, again := 0, 0, [];
    ghost var ids: seq<nat> := [];
    for i := 0 to |candidates|
      invariant Judged(cfg, candidates[..i], r, migrated, skipped, ids) && again == Reread(ids, r)
    {
      var doc := candidates[i];
      var verdict := Judge(cfg, doc, r);
      JudgedMore(cfg, candidates, r, i, migrated, skipped, ids);
      if verdict == Rewritten {
        migrated := migrated + 1;
      } else if verdict == InTheWay {
        assert (ids + [doc.id])[..|ids|] == ids;
        ids := ids + [doc.id];
        again := again + [Doc(doc.id, r.matching[doc.id])];
      } else {
        skipped := skipped + 1;
      }
    }
    assert candidates[..|candidates|] == candidates;
  }

  lemma JudgedCandidates(cfg: Config, docs: seq<Doc>, r: Round)
    requires !Clean(docs, r)
    ensures
      var candidates, done := Candidates(docs, r), Concluded(cfg, docs, r);
      && |With(cfg, candidates, r, Rewritten)| == |done.migrated|
      && |With(cfg, candidates, r, Moved)| + |With(cfg, candidates, r, NoLongerMatching)| == |done.skipped|
      && Reread(With(cfg, candidates, r, InTheWay), r) == Again(cfg, docs, r)
  {
    WithOfCandidates(cfg, docs, r, Rewritten);
    WithOfCandidates(cfg, docs, r, Moved);
    WithOfCandidates(cfg, docs, r, NoLongerMatching);
    WithOfCandidates(cfg, docs, r, InTheWay);
  }

  /** The counters hold an account of the documents done with. */
  ghost predicate Counted(counts: Counts, done: Account) {
    && counts.migrated == |done.migrated| && counts.skipped == |done.skipped|
    && counts.conflicts == |done.conflicts|
    && counts.errors == done.errors && counts.left == done.conflicts
  }

  lemma PlusIsAssociative(a: Account, b: Account, c: Account)
    ensures a.Plus(b).Plus(c) == a.Plus(b.Plus(c))
  {
  }

  lemma CountedMore(counts: Counts, done: Account, counts': Counts, more: Account)
    requires Counted(counts, done) && CountsMore(counts, counts', more)
    ensures Counted(counts', done.Plus(more))
  {
  }

  /** Between two rounds: what is done and what is pending make the whole account, and all its retries. */
  ghost predicate Underway(cfg: Config, all: Account, retries: nat, env: nat -> Round, pending: seq<Doc>, round: nat,
                           counts: Counts, done: Account) {
    && all == done.Plus(Settle(cfg, pending, env, round)) && Counted(counts, done)
    && counts.retried + Retries(cfg, pending, env, round) == retries
  }

  lemma RetriesHere(cfg: Config, docs: seq<Doc>, env: nat -> Round, round: nat)
    requires docs != [] && round <= cfg.maxConflictRetries
    ensures
      var again := HandedOn(cfg, docs, env(round), round == cfg.maxConflictRetries);
      Retries(cfg, docs, env, round) == |again| + Retries(cfg, again, env, round + 1)
  {
  }

  /** A round more: what it counted is added to what was done, and the rest is still to settle. */
  lemma OneRoundMore(cfg: Config, all: Account, retries: nat, env: nat -> Round, docs: seq<Doc>, round: nat,
                     before: Counts, done: Account, counts: Counts, concluded: Account)
    requires docs != [] && round <= cfg.maxConflictRetries && Underway(cfg, all, retries, env, docs, round, before, done)
    requires
      var again := HandedOn(cfg, docs, env(round), round == cfg.maxConflictRetries);
      && Settle(cfg, docs, env, round) == concluded.Plus(Settle(cfg, again, env, round + 1))
      && CountsMore(before, counts, concluded) && counts.retried == before.retried + |again|
    ensures
      var again := HandedOn(cfg, docs, env(round), round == cfg.maxConflictRetries);
      Underway(cfg, all, retries, env, again, round + 1, counts, done.Plus(concluded))
  {
    var again := HandedOn(cfg, docs, env(round), round == cfg.maxConflictRetries);
    RetriesHere(cfg, docs, env, round);
    CountedMore(before, done, counts, concluded);
    PlusIsAssociative(done, concluded, Settle(cfg, again, env, round + 1));
  }

  ghost predicate CountsMore(before: Counts, counts: Counts, concluded: Account) {
    && counts.migrated == before.migrated + |concluded.migrated|
    && counts.skipped == before.skipped + |concluded.skipped|
    && counts.conflicts == before.conflicts + |concluded.conflicts|
    && counts.errors == before.errors + concluded.errors && counts.left == before.left + concluded.conflicts
  }

  /** One round of the loop: the documents concluded are counted, the others come back `again`. */
  method ApplyRound(cfg: Config, docs: seq<Doc>, env: nat -> Round, round: nat, before: Counts)
    returns (counts: Counts, again: seq<Doc>, ghost concluded: Account)
    requires docs != [] && round <= cfg.maxConflictRetries
    ensures Settle(cfg, docs, env, round) == concluded.Plus(Settle(cfg, again, env, round + 1))
    ensures again == HandedOn(cfg, docs, env(round), round == cfg.maxConflictRetries)
    ensures CountsMore(before, counts, concluded) && counts.retried == before.retried + |again|
  {
    var r := env(round);
    var candidates, errors := WriteRound(cfg, docs, r);
    RoundSettles(cfg, docs, env, round);
    var last := round >= cfg.maxConflictRetries;
    concluded := SettledHere(cfg, docs, r, last);
    if r.matched == |candidates| {
      assert concluded.conflicts == [] && Again(cfg, docs, r) == [];
      counts := before.(errors := before.errors + errors, migrated := before.migrated + |candidates|);
      again := [];
      return;
    }
    CandidatesMeaning(cfg, docs, r);
    JudgedCandidates(cfg, docs, r);
    var migrated, skipped;
    migrated, skipped, again := JudgeRound(cfg, candidates, r);
    counts := before.(errors := before.errors + errors, migrated := before.migrated + migrated,
                      skipped := before.skipped + skipped);
    if last {
      counts := counts.(conflicts := counts.conflicts + |again|, left := counts.left + Ids(again));
      again := [];
    } else {
      counts := counts.(retried := counts.retried + |again|);
    }
  }

  /**
   * Whatever the server answers, the batch ends within `maxConflictRetries + 1` rounds with
   * migrated + skipped + conflicts + errors equal to the documents given, and `left` holding
   * exactly the conflicting ids.
   */
  method ApplyBatch(cfg: Config, docs: seq<Doc>, env: nat -> Round) returns (counts: Counts, rounds: nat)
    ensures Counted(counts, Settle(cfg, docs, env, 0))
    ensures counts.migrated + counts.skipped + counts.conflicts + |counts.errors| == |docs|
    ensures counts.retried == Retries(cfg, docs, env, 0)
    ensures rounds <= cfg.maxConflictRetries + 1
  {
    counts, rounds := Counts(0, 0, 0, 0, [], []), 0;
    var pending := docs;
    ghost var done, all, retries := NOTHING, Settle(cfg, docs, env, 0), Retries(cfg, docs, env, 0);
    NothingIsNeutral(all);
    while pending != []
      invariant rounds <= cfg.maxConflictRetries + 1 && (pending != [] ==> rounds <= cfg.maxConflictRetries)
      invariant Underway(cfg, all, retries, env, pending, rounds, counts, done)
      decreases cfg.maxConflictRetries + 1 - rounds
    {
      ghost var before, docs', concluded := counts, pending, NOTHING;
      counts, pending, concluded := ApplyRound(cfg, pending, env, rounds, counts);
      OneRoundMore(cfg, all, retries, env, docs', rounds, before, done, counts, concluded);
      rounds := rounds + 1;
      done := done.Plus(concluded);
    }
    NothingIsNeutral(done);
    EveryDocumentIsCounted(cfg, docs, env, 0);
  }

  lemma NothingIsNeutral(a: Account)
    ensures NOTHING.Plus(a) == a && a.Plus(NOTHING) == a
  {
  }
}
