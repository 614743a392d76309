/**
 * The contract of one versioned document (src/versioning/document.js): how its version and
 * revision are read, the optimistic filter of a rewrite, and the operator update (`$set`,
 * `$unset`, `$inc`) that turns the document read into the transformed one.
 */
module Documents {
  import opened Wrappers

  /** `Unjudged` stands for the values whose equality the code cannot tell. */
  datatype Value = Null | Num(n: int) | Text(s: string) | Unjudged(tag: nat)

  type Fields = map<string, Value>

  /** What a transformation returns: a document (a field may be `undefined`), or something else. */
  type Transformed = Option<map<string, Option<Value>>>

  datatype Names = Names(field: string, revisionField: Option<string>)

  ghost predicate ValidNames(names: Names) {
    && names.field != "_id"
    && names.revisionField != Some("_id")
    && names.revisionField != Some(names.field)
  }

  /** A count field: missing or null reads as 0, anything but a count as `None`. */
  function CountOf(doc: Fields, field: string): Option<nat> {
    if field !in doc || doc[field].Null? then Some(0)
    else if doc[field].Num? && doc[field].n >= 0 then Some(doc[field].n)
    else None
  }

  function VersionOf(doc: Fields, names: Names): Option<nat> {
    CountOf(doc, names.field)
  }

  /** The revision, where the collection keeps one; without revisions every document is at 0. */
  function RevisionOf(doc: Fields, names: Names): Option<nat> {
    if names.revisionField.None? then Some(0) else CountOf(doc, names.revisionField.value)
  }

  predicate CountMatches(doc: Fields, field: string, count: nat) {
    if count == 0 then field !in doc || doc[field] == Null || doc[field] == Num(0)
    else field in doc && doc[field] == Num(count)
  }

  /** The optimistic filter for rewriting `prev`, read at version `source`. */
  predicate OccMatches(stored: Fields, prev: Fields, names: Names, source: nat) {
    && CountMatches(stored, names.field, source)
    && (names.revisionField.Some? ==>
          var field := names.revisionField.value;
          match CountOf(prev, field)
          case Some(revision) => CountMatches(stored, field, revision)
          case None => field in prev && field in stored && stored[field] == prev[field])
  }

  /** The same revision: the same count, or the very value where it is not a count. */
  predicate SameRevision(stored: Fields, prev: Fields, names: Names) {
    if RevisionOf(prev, names).Some? then RevisionOf(stored, names) == RevisionOf(prev, names)
    else
      var field := names.revisionField.value;
      field in stored && field in prev && stored[field] == prev[field]
  }

  /** What the filter means: the same version and the same revision. */
  lemma OccMatchesMeaning(stored: Fields, prev: Fields, names: Names, source: nat)
    ensures OccMatches(stored, prev, names, source) <==>
            VersionOf(stored, names) == Some(source) && SameRevision(stored, prev, names)
  {
    if names.revisionField.Some? {
      var field := names.revisionField.value;
      if CountOf(prev, field).Some? {
        assert CountMatches(stored, field, CountOf(prev, field).value) <==> CountOf(stored, field) == CountOf(prev, field);
      }
    }
  }

  /** Never true of different values; not always true of equal ones. */
  predicate SameValue(a: Value, b: Value) {
    a == b && !a.Unjudged?
  }

  datatype Update = Update(set_: Fields, unset: set<string>, inc: Option<string>)

  datatype ShapeError = NotADocument | IdChanged | UnwritableField

  predicate SystemField(names: Names, key: string) {
    key == "_id" || key == names.field || Some(key) == names.revisionField
  }

  predicate Unwritable(key: string) {
    |key| == 0 || key[0] == '$' || '.' in key || '\0' in key
  }

  function StampedDiff(prev: Fields, next: Transformed, names: Names, to: nat): Result<Update, ShapeError>
    requires "_id" in prev
  {
    if next.None? then Failure(NotADocument)
    else
      var fields := next.value;
      if "_id" in fields && !(fields["_id"].Some? && SameValue(prev["_id"], fields["_id"].value)) then
        Failure(IdChanged)
      else if exists key :: key in fields && !SystemField(names, key) && Unwritable(key) then
        Failure(UnwritableField)
      else
        var changed := map key | key in fields && !SystemField(names, key) && fields[key].Some?
                                 && !(key in prev && SameValue(prev[key], fields[key].value))
                         :: fields[key].value;
        var gone := set key | key in prev && !SystemField(names, key) && (key !in fields || fields[key].None?);
        Success(Update(
          if to == 0 then changed else changed[names.field := Num(to)],
          if to == 0 then gone + {names.field} else gone,
          names.revisionField))
  }

  /** What the code can tell to be equal: null, numbers and text that are. */
  lemma WhatIsSame(a: Value, b: Value)
    ensures SameValue(a, b) ==> a == b
    ensures a == b && (a.Null? || a.Num? || a.Text?) ==> SameValue(a, b)
  {
  }

  /** A field the update would have to write under a name `$set` cannot take. */
  predicate HasAnUnwritableField(fields: map<string, Option<Value>>, names: Names) {
    exists key :: key in fields && key != "_id" && key != names.field && Some(key) != names.revisionField
                  && (key == "" || key[0] == '$' || '.' in key || '\0' in key)
  }

  /** A transformation is refused for these three reasons, and for no other. */
  lemma RefusedIff(prev: Fields, next: Transformed, names: Names, to: nat)
    requires "_id" in prev
    ensures
      var diff := StampedDiff(prev, next, names, to);
      && (diff == Failure(NotADocument) <==> next.None?)
      && (diff == Failure(IdChanged) <==>
            && next.Some? && "_id" in next.value
            && (next.value["_id"].None? || !SameValue(prev["_id"], next.value["_id"].value)))
      && (diff.Success? <==>
            && next.Some? && !HasAnUnwritableField(next.value, names)
            && ("_id" in next.value ==> next.value["_id"].Some? && SameValue(prev["_id"], next.value["_id"].value)))
  {
    if next.Some? && HasAnUnwritableField(next.value, names) {
      var key :| key in next.value && key != "_id" && key != names.field && Some(key) != names.revisionField
                 && (key == "" || key[0] == '$' || '.' in key || '\0' in key);
      assert !SystemField(names, key) && Unwritable(key);
    }
  }

  /** What the server stores: `None` where `$inc` meets a value that is not a number. */
  function ApplyUpdate(doc: Fields, update: Update): Option<Fields> {
    var written := (doc - update.unset) + update.set_;
    match update.inc
    case None => Some(written)
    case Some(field) =>
      if field !in doc then Some(written[field := Num(1)])
      else if doc[field].Num? then Some(written[field := Num(doc[field].n + 1)])
      else None
  }

  /** One more than the number stored, 1 where there is none. */
  function OneOn(prev: Fields, field: string): int {
    if field in prev && prev[field].Num? then prev[field].n + 1 else 1
  }

  /** The document a rewrite is meant to leave: `next`'s own fields, the target version, one revision on. */
  function Stamp(prev: Fields, next: Transformed, names: Names, to: nat): Fields
    requires "_id" in prev && next.Some?
  {
    var fields := next.value;
    var body := map key | key in fields && !SystemField(names, key) && fields[key].Some? :: fields[key].value;
    var identified := body["_id" := prev["_id"]];
    var versioned := if to == 0 then identified else identified[names.field := Num(to)];
    if names.revisionField.None? then versioned
    else versioned[names.revisionField.value := Num(OneOn(prev, names.revisionField.value))]
  }

  /** `$inc` takes a missing field or a number, and nothing else. */
  predicate Incrementable(prev: Fields, names: Names) {
    names.revisionField.Some? && names.revisionField.value in prev ==> prev[names.revisionField.value].Num?
  }

  /**
   * The operator update has exactly the effect of the whole-document rewrite: applied to the
   * document it was computed from, it stores `next` stamped with the target version and the next
   * revision — unless the revision stored is no number (null, say), which `$inc` refuses.
   */
  lemma DiffStoresTheStampedDocument(prev: Fields, next: Transformed, names: Names, to: nat)
    requires ValidNames(names) && "_id" in prev
    requires StampedDiff(prev, next, names, to).Success?
    ensures
      var stored := ApplyUpdate(prev, StampedDiff(prev, next, names, to).value);
      stored == if Incrementable(prev, names) then Some(Stamp(prev, next, names, to)) else None
  {
    var update := StampedDiff(prev, next, names, to).value;
    var stored := ApplyUpdate(prev, update);
    if stored.Some? {
      var want := Stamp(prev, next, names, to);
      forall key
        ensures key in stored.value <==> key in want
        ensures key in want && key in stored.value ==> stored.value[key] == want[key]
      {
        if key == "_id" {
          assert !(key in update.unset) && !(key in update.set_);
        }
      }
      assert stored.value == want;
    }
  }

  /** A field the transformation left alone is in no operator, so it keeps its stored type. */
  lemma UntouchedFieldsAreNotWritten(prev: Fields, next: Transformed, names: Names, to: nat, key: string)
    requires ValidNames(names) && "_id" in prev && StampedDiff(prev, next, names, to).Success?
    requires !SystemField(names, key) && key in prev && key in next.value
    requires next.value[key] == Some(prev[key]) && (prev[key].Null? || prev[key].Num? || prev[key].Text?)
    ensures var update := StampedDiff(prev, next, names, to).value;
            key !in update.set_ && key !in update.unset && update.inc != Some(key)
  {
  }

  lemma StampIsAtTheTarget(prev: Fields, next: Transformed, names: Names, to: nat)
    requires ValidNames(names) && "_id" in prev && next.Some?
    ensures VersionOf(Stamp(prev, next, names, to), names) == Some(to)
    ensures names.revisionField.Some? && RevisionOf(prev, names).Some? ==>
              RevisionOf(Stamp(prev, next, names, to), names) == Some(RevisionOf(prev, names).value + 1)
    ensures "_id" in Stamp(prev, next, names, to) && Stamp(prev, next, names, to)["_id"] == prev["_id"]
  {
  }
}
