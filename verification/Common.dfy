/** Helpers shared by the component models: options, restriction of maps, and
    multisets gathered from the entries of a map. */
module Common {

  datatype Option<+T> = None | Some(value: T)

  /** The entries of `m` that `drop` does not select. */
  function Keep<K, V>(m: map<K, V>, drop: V -> bool): map<K, V> {
    m - (set k | k in m && drop(m[k]))
  }

  /** The entries of `m` that `drop` selects. */
  function Taken<K, V>(m: map<K, V>, drop: V -> bool): map<K, V> {
    m - (set k | k in m && !drop(m[k]))
  }

  ghost predicate Sub<K, V>(small: map<K, V>, big: map<K, V>) {
    forall k :: k in small ==> k in big && small[k] == big[k]
  }

  /** The multiset sum of `f(m[k])` over all keys of `m`. */
  ghost function Gather<K, V, T>(m: map<K, V>, f: V -> multiset<T>): multiset<T>
    decreases |m|
  {
    if m == map[] then multiset{} else
      var k :| k in m;
      f(m[k]) + Gather(m - {k}, f)
  }

  /** The sum does not depend on the order in which keys are visited. */
  lemma {:induction false} GatherPick<K, V, T>(m: map<K, V>, f: V -> multiset<T>, k: K)
    requires k in m
    ensures Gather(m, f) == f(m[k]) + Gather(m - {k}, f)
    decreases |m|
  {
    var j :| j in m && Gather(m, f) == f(m[j]) + Gather(m - {j}, f);
    if j != k {
      GatherPick(m - {j}, f, k);
      GatherPick(m - {k}, f, j);
      assert (m - {j}) - {k} == (m - {k}) - {j};
    }
  }

  lemma GatherPut<K, V, T>(m: map<K, V>, f: V -> multiset<T>, k: K, v: V)
    requires k !in m
    ensures Gather(m[k := v], f) == f(v) + Gather(m, f)
  {
    GatherPick(m[k := v], f, k);
    assert m[k := v] - {k} == m;
  }

  /** Replacing one value changes the sum by what the value changes. */
  lemma GatherReplace<K, V, T>(m: map<K, V>, f: V -> multiset<T>, k: K, v: V, more: multiset<T>, less: multiset<T>)
    requires k in m && f(v) + less == f(m[k]) + more
    ensures Gather(m[k := v], f) + less == Gather(m, f) + more
  {
    GatherPick(m, f, k);
    GatherPick(m[k := v], f, k);
    var rest := Gather(m - {k}, f);
    assert m[k := v] - {k} == m - {k};
    assert f(v) + rest + less == f(v) + less + rest;
  }

  /** `a` and `b` together hold exactly the entries of `m`, each once. */
  ghost predicate Splits<K, V>(m: map<K, V>, a: map<K, V>, b: map<K, V>) {
    && Sub(a, m)
    && Sub(b, m)
    && forall k :: k in m ==> (k in a <==> k !in b)
  }

  lemma SplitsMinus<K, V>(m: map<K, V>, a: map<K, V>, b: map<K, V>, k: K)
    requires Splits(m, a, b) && k in a
    ensures Splits(m - {k}, a - {k}, b)
  {
  }

  /** Splitting a map splits the gathered multiset. */
  lemma {:induction false} GatherSplits<K, V, T>(m: map<K, V>, a: map<K, V>, b: map<K, V>, f: V -> multiset<T>)
    requires Splits(m, a, b)
    ensures Gather(m, f) == Gather(a, f) + Gather(b, f)
    decreases |a|
  {
    if a.Keys == {} {
      assert m == b;
    } else {
      var k :| k in a;
      SplitsMinus(m, a, b, k);
      GatherPick(m, f, k);
      GatherPick(a, f, k);
      GatherSplits(m - {k}, a - {k}, b, f);
    }
  }

  lemma {:induction false} SubsetSize<T>(small: set<T>, big: set<T>)
    requires small <= big
    ensures |small| <= |big|
    decreases |small|
  {
    if small != {} {
      var x :| x in small;
      SubsetSize(small - {x}, big - {x});
    }
  }
}
