/**
 * Shard-key values and tuples in the server's order, and ranges of tuples that follow one another
 * (src/core/background-shard.js). A value belongs to a comparison class; values are ordered by class
 * first, and MinKey and MaxKey lie outside all of them.
 */
module ShardKeys {
  import opened Wrappers

  datatype Key = MinKey | V(cls: nat, val: int) | MaxKey

  type Tuple = seq<Key>

  predicate KeyLess(a: Key, b: Key) {
    match a
    case MinKey => !b.MinKey?
    case MaxKey => false
    case V(cls, val) => b.MaxKey? || (b.V? && (cls < b.cls || (cls == b.cls && val < b.val)))
  }

  predicate Less(a: Tuple, b: Tuple) {
    a != [] && b != [] && (KeyLess(a[0], b[0]) || (a[0] == b[0] && Less(a[1..], b[1..])))
  }

  predicate AtMost(a: Tuple, b: Tuple) {
    a == b || Less(a, b)
  }

  lemma {:induction false} LessIsTransitive(a: Tuple, b: Tuple, c: Tuple)
    requires Less(a, b) && Less(b, c)
    ensures Less(a, c)
    decreases |a|
  {
    if a[0] == b[0] == c[0] {
      LessIsTransitive(a[1..], b[1..], c[1..]);
    }
  }

  lemma {:induction false} LessIsIrreflexive(a: Tuple)
    ensures !Less(a, a)
    decreases |a|
  {
    if a != [] {
      LessIsIrreflexive(a[1..]);
    }
  }

  lemma {:induction false} LessIsTotal(a: Tuple, b: Tuple)
    requires |a| == |b|
    ensures Less(a, b) || a == b || Less(b, a)
    decreases |a|
  {
    if a != [] {
      LessIsTotal(a[1..], b[1..]);
      assert a == [a[0]] + a[1..] && b == [b[0]] + b[1..];
    }
  }

  /** A key range, `min` inclusive, `max` exclusive; `chunks` many chunks of a shard, or of several. */
  datatype Run = Run(min: Tuple, max: Tuple, shard: Option<string>, chunks: nat)

  predicate Holds(run: Run, t: Tuple) {
    AtMost(run.min, t) && Less(t, run.max)
  }

  /** End to end from `min` to `max`, none of them empty. */
  ghost predicate Linked(runs: seq<Run>, width: nat, min: Tuple, max: Tuple) {
    && runs != [] && runs[0].min == min && runs[|runs| - 1].max == max
    && (forall i | 0 <= i < |runs| :: |runs[i].min| == |runs[i].max| == width && Less(runs[i].min, runs[i].max))
    && (forall i | 0 <= i < |runs| - 1 :: runs[i].max == runs[i + 1].min)
  }

  /** How many of the ranges hold a tuple. */
  function HolderCount(runs: seq<Run>, t: Tuple): nat {
    if runs == [] then 0 else (if Holds(runs[0], t) then 1 else 0) + HolderCount(runs[1..], t)
  }

  lemma {:induction false} HolderCountOfBoth(a: seq<Run>, b: seq<Run>, t: Tuple)
    ensures HolderCount(a + b, t) == HolderCount(a, t) + HolderCount(b, t)
  {
    if a == [] {
      assert a + b == b;
    } else {
      assert (a + b)[1..] == a[1..] + b;
      HolderCountOfBoth(a[1..], b, t);
    }
  }

  /** Ranges end to end hold every tuple of their span once, and nothing else. */
  lemma {:induction false} LinkedHoldOnce(runs: seq<Run>, width: nat, min: Tuple, max: Tuple, t: Tuple)
    requires Linked(runs, width, min, max) && |t| == width
    ensures Less(min, max)
    ensures HolderCount(runs, t) == if AtMost(min, t) && Less(t, max) then 1 else 0
    decreases |runs|
  {
    if |runs| == 1 {
      assert runs[1..] == [];
      assert HolderCount(runs[1..], t) == 0;
    } else {
      var mid := runs[0].max;
      assert Linked(runs[1..], width, mid, max);
      LinkedHoldOnce(runs[1..], width, mid, max, t);
      LessIsTransitive(min, mid, max);
      LessIsTotal(mid, t);
      LessIsIrreflexive(t);
      if Less(t, mid) {
        LessIsTransitive(t, mid, max);
        if Less(mid, t) { LessIsTransitive(t, mid, t); }
      } else if Less(mid, t) {
        LessIsTransitive(min, mid, t);
      }
    }
  }

  lemma LinkedJoin(a: seq<Run>, b: seq<Run>, width: nat, min: Tuple, mid: Tuple, max: Tuple)
    requires Linked(a, width, min, mid) && Linked(b, width, mid, max)
    ensures Linked(a + b, width, min, max)
  {
  }
}
