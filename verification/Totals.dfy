/** Sums of partition counters over generations — what a roll-up reads, and what progress shows. */
module Totals {
  import opened Wrappers
  import opened Store

  datatype Generations = Exactly(generation: nat) | Above(floor: nat)

  predicate Counts(gens: Generations, generation: nat) {
    match gens
    case Exactly(g) => generation == g
    case Above(floor) => generation > floor
  }

  function Share(parts: map<nat, Partition>, pid: nat, gens: Generations): Counters {
    if pid in parts && Counts(gens, parts[pid].generation) then parts[pid].counters else map[]
  }

  /** The counters of the partitions with an id below n, of these generations, summed. */
  function TotalsOf(parts: map<nat, Partition>, n: nat, gens: Generations): Counters {
    if n == 0 then map[] else Plus(TotalsOf(parts, n - 1, gens), Share(parts, n - 1, gens))
  }

  lemma {:induction false} SameShares(
    parts: map<nat, Partition>, parts': map<nat, Partition>, n: nat, gens: Generations, gens': Generations, key: string)
    requires forall pid | 0 <= pid < n :: Get(Share(parts, pid, gens), key) == Get(Share(parts', pid, gens'), key)
    ensures Get(TotalsOf(parts, n, gens), key) == Get(TotalsOf(parts', n, gens'), key)
  {
    if n > 0 {
      SameShares(parts, parts', n - 1, gens, gens', key);
    }
  }

  /** Every share but one is the same: the totals differ by as much as it does. */
  lemma {:induction false} OneShareMoves(
    parts: map<nat, Partition>, parts': map<nat, Partition>, n: nat, gens: Generations, key: string, moved: nat)
    requires moved < n
    requires forall pid | 0 <= pid < n && pid != moved ::
               Get(Share(parts, pid, gens), key) == Get(Share(parts', pid, gens), key)
    ensures Get(TotalsOf(parts', n, gens), key) + Get(Share(parts, moved, gens), key) ==
            Get(TotalsOf(parts, n, gens), key) + Get(Share(parts', moved, gens), key)
  {
    if moved == n - 1 {
      SameShares(parts, parts', n - 1, gens, gens, key);
    } else {
      OneShareMoves(parts, parts', n - 1, gens, key, moved);
    }
  }

  lemma {:induction false} NewcomersAddNothing(parts: map<nat, Partition>, n: nat, n': nat, gens: Generations, key: string)
    requires n <= n' && forall pid | n <= pid < n' :: Get(Share(parts, pid, gens), key) == 0
    ensures Get(TotalsOf(parts, n', gens), key) == Get(TotalsOf(parts, n, gens), key)
    decreases n'
  {
    if n < n' {
      NewcomersAddNothing(parts, n, n' - 1, gens, key);
    }
  }

  lemma {:induction false} NothingToCount(parts: map<nat, Partition>, n: nat, gens: Generations, key: string)
    requires forall pid | 0 <= pid < n :: Get(Share(parts, pid, gens), key) == 0
    ensures Get(TotalsOf(parts, n, gens), key) == 0
  {
    NewcomersAddNothing(parts, 0, n, gens, key);
  }
}
