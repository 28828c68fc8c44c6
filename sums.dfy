/**
 * Sums over the members of a keyed collection. The summary code adds up one
 * number per member of a JSON object in `for...in` order; `SumOver` is the same
 * sum defined on the set of keys alone, so it cannot depend on any order.
 */
module KeyedSums {

  /** The sum of `f` over the members of `m` whose keys are in `keys`. */
  ghost function SumOver<V>(m: map<string, V>, keys: set<string>, f: V -> real): real
    requires keys <= m.Keys
    decreases keys
  {
    if keys == {} then 0.0
    else
      var k :| k in keys;
      f(m[k]) + SumOver(m, keys - {k}, f)
  }

  /** Any member can be taken out of the sum first: the sum does not depend on the order of its terms. */
  lemma {:induction false} SumOverRemove<V>(m: map<string, V>, keys: set<string>, f: V -> real, k: string)
    requires keys <= m.Keys && k in keys
    ensures SumOver(m, keys, f) == f(m[k]) + SumOver(m, keys - {k}, f)
    decreases keys
  {
    var j :| j in keys && SumOver(m, keys, f) == f(m[j]) + SumOver(m, keys - {j}, f);
    if j != k {
      SumOverRemove(m, keys - {j}, f, k);
      SumOverRemove(m, keys - {k}, f, j);
      assert keys - {j} - {k} == keys - {k} - {j};
    }
  }

  /** Adding one more member to the summed keys adds its term. */
  lemma SumOverAdd<V>(m: map<string, V>, keys: set<string>, f: V -> real, k: string)
    requires keys <= m.Keys && k in m && k !in keys
    ensures SumOver(m, keys + {k}, f) == SumOver(m, keys, f) + f(m[k])
  {
    SumOverRemove(m, keys + {k}, f, k);
    assert keys + {k} - {k} == keys;
  }

  /** No key occurs twice. */
  predicate Distinct(ks: seq<string>) {
    forall i, j | 0 <= i < j < |ks| :: ks[i] != ks[j]
  }

  /** A left-to-right accumulation over the keys in the order given, as a `for...in` loop or `reduce` does it. */
  function FoldKeys<V>(m: map<string, V>, ks: seq<string>, f: V -> real): real
    requires forall i | 0 <= i < |ks| :: ks[i] in m
  {
    if ks == [] then 0.0 else FoldKeys(m, ks[..|ks| - 1], f) + f(m[ks[|ks| - 1]])
  }

  /** Accumulating in any enumeration order of a set of keys yields the order-free sum. */
  lemma {:induction false} FoldKeysAnyOrder<V>(m: map<string, V>, ks: seq<string>, f: V -> real)
    requires forall i | 0 <= i < |ks| :: ks[i] in m
    requires Distinct(ks)
    ensures (set k | k in ks) <= m.Keys
    ensures FoldKeys(m, ks, f) == SumOver(m, (set k | k in ks), f)
  {
    if ks == [] {
      assert (set k | k in ks) == {};
    } else {
      var front, last := ks[..|ks| - 1], ks[|ks| - 1];
      FoldKeysAnyOrder(m, front, f);
      assert (set k | k in ks) == (set k | k in front) + {last};
      assert last !in (set k | k in front);
      SumOverAdd(m, (set k | k in front), f, last);
    }
  }

  /** Termwise no larger means no larger in sum. */
  lemma {:induction false} SumOverMonotone<V>(m: map<string, V>, keys: set<string>, f: V -> real, g: V -> real)
    requires keys <= m.Keys
    requires forall k | k in keys :: f(m[k]) <= g(m[k])
    ensures SumOver(m, keys, f) <= SumOver(m, keys, g)
    decreases keys
  {
    if keys != {} {
      var k :| k in keys;
      SumOverRemove(m, keys, f, k);
      SumOverRemove(m, keys, g, k);
      SumOverMonotone(m, keys - {k}, f, g);
    }
  }

  /** A sum of non-negative terms is non-negative. */
  lemma {:induction false} SumOverNonNegative<V>(m: map<string, V>, keys: set<string>, f: V -> real)
    requires keys <= m.Keys
    requires forall k | k in keys :: 0.0 <= f(m[k])
    ensures 0.0 <= SumOver(m, keys, f)
    decreases keys
  {
    if keys != {} {
      var k :| k in keys;
      SumOverRemove(m, keys, f, k);
      SumOverNonNegative(m, keys - {k}, f);
    }
  }
}
