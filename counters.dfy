/**
 * `collections.defaultdict(int)` counters as used by the statistics loops:
 * a map from key to count, where `d[k] += 1` inserts a missing key with 1.
 * `Tally` is the counter a loop builds from a sequence of keys; `Total` is the
 * sum of all counts, so `Total(Tally(keys)) == |keys|` says that the buckets
 * partition what was counted.
 */
module Counters {
  import opened Common

  /** `[key(x) for x in xs]`: the key each record is counted under, in order. */
  function KeysOf<T, K>(xs: seq<T>, key: T -> K): (r: seq<K>)
    ensures |r| == |xs| && forall i :: 0 <= i < |xs| ==> r[i] == key(xs[i])
  {
    seq(|xs|, i requires 0 <= i < |xs| => key(xs[i]))
  }

  /** `d[k] += 1` on a defaultdict(int). */
  function Inc<K>(d: map<K, nat>, k: K): map<K, nat> {
    d[k := (if k in d then d[k] else 0) + 1]
  }

  /** The counter obtained by incrementing once per key, in order. */
  function Tally<K>(keys: seq<K>): map<K, nat> {
    if keys == [] then map[] else Inc(Tally(keys[..|keys| - 1]), keys[|keys| - 1])
  }

  /** The number of occurrences of `k` in `keys`. */
  function Occurrences<K(==)>(keys: seq<K>, k: K): nat {
    if keys == [] then 0
    else Occurrences(keys[..|keys| - 1], k) + (if keys[|keys| - 1] == k then 1 else 0)
  }

  /** Sum of all counts of a counter. */
  ghost function Total<K>(d: map<K, nat>): nat
    decreases |d|
  {
    if d == map[] then 0
    else
      var k :| k in d;
      d[k] + Total(d - {k})
  }

  lemma {:induction false} TotalRemove<K>(d: map<K, nat>, k: K)
    requires k in d
    ensures Total(d) == d[k] + Total(d - {k})
    decreases |d|
  {
    var j :| j in d && Total(d) == d[j] + Total(d - {j});
    if j != k {
      var dj, dk := d - {j}, d - {k};
      assert k in dj && j in dk;
      TotalRemove(dj, k);
      TotalRemove(dk, j);
      assert dj - {k} == dk - {j};
    }
  }

  lemma TotalInc<K>(d: map<K, nat>, k: K)
    ensures Total(Inc(d, k)) == Total(d) + 1
  {
    var r := Inc(d, k);
    TotalRemove(r, k);
    if k in d {
      TotalRemove(d, k);
      assert r - {k} == d - {k};
    } else {
      assert r - {k} == d;
    }
  }

  /** The counts of a tally add up to the number of keys counted. */
  lemma {:induction false} TallyTotal<K>(keys: seq<K>)
    ensures Total(Tally(keys)) == |keys|
  {
    if keys != [] {
      TallyTotal(keys[..|keys| - 1]);
      TotalInc(Tally(keys[..|keys| - 1]), keys[|keys| - 1]);
    }
  }

  /** A tally has a bucket exactly for the keys that occur, holding their number of occurrences. */
  lemma {:induction false} TallyCounts<K>(keys: seq<K>, k: K)
    ensures k in Tally(keys) <==> k in keys
    ensures k in Tally(keys) ==> Tally(keys)[k] == Occurrences(keys, k)
    ensures k !in Tally(keys) ==> Occurrences(keys, k) == 0
  {
    if keys != [] {
      var init := keys[..|keys| - 1];
      TallyCounts(init, k);
      assert keys == init + [keys[|keys| - 1]];
    }
  }

  lemma TallySnoc<K>(keys: seq<K>, k: K)
    ensures Tally(keys + [k]) == Inc(Tally(keys), k)
  {
    assert (keys + [k])[..|keys|] == keys;
  }

  /** Counting further keys on a counter that already holds counts. */
  function TallyFrom<K>(d: map<K, nat>, keys: seq<K>): map<K, nat> {
    if keys == [] then d else Inc(TallyFrom(d, keys[..|keys| - 1]), keys[|keys| - 1])
  }

  lemma TallyFromSnoc<K>(d: map<K, nat>, keys: seq<K>, k: K)
    ensures TallyFrom(d, keys + [k]) == Inc(TallyFrom(d, keys), k)
  {
    assert (keys + [k])[..|keys|] == keys;
  }

  /** A tally is a count that starts from the empty counter. */
  lemma {:induction false} TallyFromEmpty<K>(keys: seq<K>)
    ensures Tally(keys) == TallyFrom(map[], keys)
  {
    if keys != [] {
      TallyFromEmpty(keys[..|keys| - 1]);
    }
  }

  /** Counting `a` and then `b` on the same counter is counting `a + b`. */
  lemma {:induction false} TallyAppend<K>(a: seq<K>, b: seq<K>)
    ensures Tally(a + b) == TallyFrom(Tally(a), b)
  {
    if b == [] {
      assert a + b == a;
    } else {
      var init := b[..|b| - 1];
      TallyAppend(a, init);
      assert (a + b)[..|a + b| - 1] == a + init;
    }
  }

  // ---------------------------------------------------------------------
  // `sum(1 for x in xs if p(x))`
  // ---------------------------------------------------------------------

  function CountIf<T>(xs: seq<T>, p: T -> bool): (n: nat)
    ensures n <= |xs|
  {
    if xs == [] then 0
    else CountIf(xs[..|xs| - 1], p) + (if p(xs[|xs| - 1]) then 1 else 0)
  }

  lemma CountIfSnoc<T>(xs: seq<T>, x: T, p: T -> bool)
    ensures CountIf(xs + [x], p) == CountIf(xs, p) + (if p(x) then 1 else 0)
  {
    assert (xs + [x])[..|xs|] == xs;
  }

  /** Counting the elements that satisfy `p` is taking the length of their selection. */
  lemma {:induction false} CountIfFilter<T>(xs: seq<T>, p: T -> bool)
    ensures CountIf(xs, p) == |Filter(xs, p)|
  {
    if xs != [] {
      CountIfFilter(xs[..|xs| - 1], p);
    }
  }

  /** Counting by a predicate implied by another never counts fewer. */
  lemma {:induction false} CountIfMonotone<T>(xs: seq<T>, p: T -> bool, q: T -> bool)
    requires forall x :: x in xs && p(x) ==> q(x)
    ensures CountIf(xs, p) <= CountIf(xs, q)
  {
    if xs != [] {
      CountIfMonotone(xs[..|xs| - 1], p, q);
    }
  }

  /** Two predicates that never hold together count at most |xs| together. */
  lemma {:induction false} CountIfDisjoint<T>(xs: seq<T>, p: T -> bool, q: T -> bool)
    requires forall x :: x in xs ==> !(p(x) && q(x))
    ensures CountIf(xs, p) + CountIf(xs, q) <= |xs|
  {
    if xs != [] {
      CountIfDisjoint(xs[..|xs| - 1], p, q);
    }
  }

  /** A predicate and its negation split the sequence. */
  lemma {:induction false} CountIfComplement<T>(xs: seq<T>, p: T -> bool, q: T -> bool)
    requires forall x :: x in xs ==> (q(x) <==> !p(x))
    ensures CountIf(xs, p) + CountIf(xs, q) == |xs|
  {
    if xs != [] {
      CountIfComplement(xs[..|xs| - 1], p, q);
    }
  }

  // ---------------------------------------------------------------------
  // `total += f(x)` over the elements that satisfy `p`
  // ---------------------------------------------------------------------

  function SumIf<T>(xs: seq<T>, p: T -> bool, f: T -> int): int {
    if xs == [] then 0
    else SumIf(xs[..|xs| - 1], p, f) + (if p(xs[|xs| - 1]) then f(xs[|xs| - 1]) else 0)
  }

  lemma SumIfSnoc<T>(xs: seq<T>, x: T, p: T -> bool, f: T -> int)
    ensures SumIf(xs + [x], p, f) == SumIf(xs, p, f) + (if p(x) then f(x) else 0)
  {
    assert (xs + [x])[..|xs|] == xs;
  }

  /** Summing over `p` is summing over `q` and over `r` when `p` splits into the two disjoint predicates. */
  lemma {:induction false} SumIfSplit<T>(xs: seq<T>, p: T -> bool, q: T -> bool, r: T -> bool, f: T -> int)
    requires forall x :: x in xs ==> (p(x) <==> q(x) || r(x)) && !(q(x) && r(x))
    ensures SumIf(xs, p, f) == SumIf(xs, q, f) + SumIf(xs, r, f)
  {
    if xs != [] {
      SumIfSplit(xs[..|xs| - 1], p, q, r, f);
    }
  }

  /** With non-negative terms, summing over fewer elements gives no more. */
  lemma {:induction false} SumIfMonotone<T>(xs: seq<T>, p: T -> bool, q: T -> bool, f: T -> int)
    requires forall x :: x in xs && q(x) ==> p(x)
    requires forall x :: x in xs && p(x) ==> f(x) >= 0
    ensures SumIf(xs, q, f) <= SumIf(xs, p, f)
  {
    if xs != [] {
      SumIfMonotone(xs[..|xs| - 1], p, q, f);
    }
  }
}
