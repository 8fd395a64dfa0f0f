/** Passes over a map in an order the program does not fix: deleting while iterating,
    and stopping at the first entry found. */
module Passes {
  import opened Common

  /** A pass that deletes what `drop` selects, before the keys `todo` were visited: what is left, and what is gone. */
  ghost function PassKept<K, V>(m: map<K, V>, todo: set<K>, drop: V -> bool): map<K, V> {
    m - (set k | k in m && k !in todo && drop(m[k]))
  }
  ghost function PassGone<K, V>(m: map<K, V>, todo: set<K>, drop: V -> bool): map<K, V> {
    m - (set k | k in m && (k in todo || !drop(m[k])))
  }

  /** The keys a pass has deleted. */
  ghost function PassDropped<K, V>(m: map<K, V>, todo: set<K>, drop: V -> bool): set<K> {
    set k | k in m && k !in todo && drop(m[k])
  }

  lemma PassDroppedStep<K, V>(m: map<K, V>, todo: set<K>, drop: V -> bool, k: K)
    requires k in todo && k in m
    ensures k !in PassDropped(m, todo, drop)
    ensures PassDropped(m, todo - {k}, drop) == if drop(m[k]) then PassDropped(m, todo, drop) + {k}
      else PassDropped(m, todo, drop)
  {
  }

  lemma PassStep<K, V>(m: map<K, V>, todo: set<K>, drop: V -> bool, k: K)
    requires k in todo && k in m
    ensures k in PassKept(m, todo, drop) && PassKept(m, todo, drop)[k] == m[k] && k !in PassGone(m, todo, drop)
    ensures PassKept(m, todo - {k}, drop) == if drop(m[k]) then PassKept(m, todo, drop) - {k}
      else PassKept(m, todo, drop)
    ensures PassGone(m, todo - {k}, drop) == if drop(m[k]) then PassGone(m, todo, drop)[k := m[k]]
      else PassGone(m, todo, drop)
  {
  }

  lemma PassStartEnd<K, V>(m: map<K, V>, drop: V -> bool)
    ensures PassKept(m, m.Keys, drop) == m && PassGone(m, m.Keys, drop).Keys == {}
    ensures PassKept(m, {}, drop) == Keep(m, drop) && PassGone(m, {}, drop) == Taken(m, drop)
  {
  }

  /** The pass over a map that deletes what `drop` selects while iterating. */
  method Purge<K, V>(m: map<K, V>, drop: V -> bool) returns (kept: map<K, V>, gone: map<K, V>)
    ensures kept == Keep(m, drop) && gone == Taken(m, drop)
  {
    kept, gone := m, map[];
    var todo := m.Keys;
    PassStartEnd(m, drop);
    assert gone == PassGone(m, todo, drop);
    while todo != {}
      invariant todo <= m.Keys && kept == PassKept(m, todo, drop) && gone == PassGone(m, todo, drop)
    {
      var k :| k in todo;
      PassStep(m, todo, drop, k);
      todo := todo - {k};
      if drop(m[k]) {
        kept := kept - {k};
        gone := gone[k := m[k]];
      }
    }
  }

  /** The pass over a map that stops at the first entry found. */
  method Find<K, V>(m: map<K, V>, good: V -> bool) returns (found: Option<K>)
    ensures found.Some? ==> found.value in m && good(m[found.value])
    ensures found.None? ==> forall k :: k in m ==> !good(m[k])
  {
    var todo := m.Keys;
    while todo != {}
      invariant todo <= m.Keys
      invariant forall k :: k in m && k !in todo ==> !good(m[k])
    {
      var k :| k in todo;
      todo := todo - {k};
      if good(m[k]) { return Some(k); }
    }
    return None;
  }
}
