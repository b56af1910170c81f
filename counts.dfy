/**
 * Label-to-count maps as the exporter uses them: Go's `map[string]float64`
 * read with the zero default, bumped with `+=`, and summed over all labels.
 * Counts are query counts (`count(id)` in SQL), hence `nat`.
 */
module Counts {

  /** `m[k]` in Go: the stored count, or 0 for a label never written. */
  function Get<K>(m: map<K, nat>, k: K): nat
  {
    if k in m then m[k] else 0
  }

  /** `m[k] += n`: creates the entry on first use, starting from 0. */
  function Add<K>(m: map<K, nat>, k: K, n: nat): (r: map<K, nat>)
    ensures r.Keys == m.Keys + {k}
    ensures r[k] == Get(m, k) + n
    ensures forall j :: j in m && j != k ==> r[j] == m[j]
  {
    m[k := Get(m, k) + n]
  }

  /** Label-wise sum of two count maps: what adding every entry of `d` to `c` yields. */
  function AddCounts<K(!new)>(c: map<K, nat>, d: map<K, nat>): (r: map<K, nat>)
    ensures r.Keys == c.Keys + d.Keys
    ensures forall k :: Get(r, k) == Get(c, k) + Get(d, k)
  {
    map k | k in c.Keys + d.Keys :: Get(c, k) + Get(d, k)
  }

  /** The entries of `m` whose label lies in `ks`. */
  function Restrict<K, V>(m: map<K, V>, ks: set<K>): (r: map<K, V>)
    ensures r.Keys == m.Keys * ks
    ensures forall k :: k in r ==> r[k] == m[k]
  {
    map k | k in m && k in ks :: m[k]
  }

  /** Adding a map with one more entry is adding that entry once more. */
  lemma AddCountsInsert<K(!new)>(c: map<K, nat>, e: map<K, nat>, k: K, v: nat)
    requires k !in e
    ensures AddCounts(c, e[k := v]) == Add(AddCounts(c, e), k, v)
  {
    var lhs, rhs := AddCounts(c, e[k := v]), Add(AddCounts(c, e), k, v);
    assert lhs.Keys == rhs.Keys;
    forall j | j in lhs
      ensures lhs[j] == rhs[j]
    {
      assert Get(lhs, j) == Get(c, j) + Get(e[k := v], j);
    }
  }

  /** Adding the empty map changes nothing. */
  lemma AddCountsEmpty<K(!new)>(c: map<K, nat>)
    ensures AddCounts(c, map[]) == c
  {
    var r := AddCounts(c, map[]);
    assert r.Keys == c.Keys;
    forall j | j in r
      ensures r[j] == c[j]
    {
      assert Get(r, j) == Get(c, j);
    }
  }

  /** One more label of `d` handled: the restriction grows by exactly that entry. */
  lemma RestrictStep<K, V>(d: map<K, V>, done: set<K>, k: K)
    requires k in d && k !in done
    ensures k !in Restrict(d, done)
    ensures Restrict(d, done + {k}) == Restrict(d, done)[k := d[k]]
  {
  }

  /** The loop step of adding `d` entry by entry: one more label of `d` handled. */
  lemma AddCountsStep<K(!new)>(c: map<K, nat>, d: map<K, nat>, done: set<K>, k: K)
    requires k in d && k !in done
    ensures AddCounts(c, Restrict(d, done + {k})) == Add(AddCounts(c, Restrict(d, done)), k, d[k])
  {
    RestrictStep(d, done, k);
    AddCountsInsert(c, Restrict(d, done), k, d[k]);
  }

  /** Restricting to every label is the identity. */
  lemma RestrictAll<K, V>(d: map<K, V>)
    ensures Restrict(d, d.Keys) == d
  {
  }

  /** Two count maps with the same labels and the same count at every label are equal. */
  lemma CountsExt<K>(a: map<K, nat>, b: map<K, nat>)
    requires forall k :: k in a <==> k in b
    requires forall k :: Get(a, k) == Get(b, k)
    ensures a == b
  {
    assert a.Keys == b.Keys;
    forall k | k in a
      ensures a[k] == b[k]
    {
      assert Get(a, k) == Get(b, k);
    }
  }

  /** Some label of a non-empty set; which one does not matter to any sum. */
  ghost function Pick<K>(s: set<K>): (k: K)
    requires s != {}
    ensures k in s
  {
    var k :| k in s; k
  }

  /** The sum of all counts of a map. */
  ghost function SumValues<K>(m: map<K, nat>): nat
    decreases |m|
  {
    if m == map[] then 0
    else
      var k := Pick(m.Keys);
      assert |m - {k}| < |m| by { assert (m - {k}).Keys == m.Keys - {k}; }
      m[k] + SumValues(m - {k})
  }

  /** The sum can be split at any label, not only at the one `Pick` chooses. */
  lemma {:induction false} SumValuesRemove<K>(m: map<K, nat>, k: K)
    requires k in m
    ensures SumValues(m) == m[k] + SumValues(m - {k})
    decreases |m|
  {
    var j := Pick(m.Keys);
    assert (m - {j}).Keys == m.Keys - {j};
    if j != k {
      var mj, mk := m - {j}, m - {k};
      assert mk.Keys == m.Keys - {k};
      assert k in mj && j in mk;
      SumValuesRemove(mj, k);
      SumValuesRemove(mk, j);
      assert mj - {k} == mk - {j};
    }
  }

  /** Bumping one label by `n` raises the sum by exactly `n`. */
  lemma SumValuesAdd<K>(m: map<K, nat>, k: K, n: nat)
    ensures SumValues(Add(m, k, n)) == SumValues(m) + n
  {
    var r := Add(m, k, n);
    SumValuesRemove(r, k);
    if k in m {
      SumValuesRemove(m, k);
      assert r - {k} == m - {k};
    } else {
      assert r - {k} == m;
    }
  }

  /** Per outer label, the sum of its inner map: the two-level map seen one level up. */
  ghost function Totals<K, U>(m: map<K, map<U, nat>>): (r: map<K, nat>)
    ensures r.Keys == m.Keys
  {
    map k | k in m :: SumValues(m[k])
  }

  /** `m[k][u] += n` (allocating `m[k]` on first use) raises the total of all inner counts by `n`. */
  lemma SumTotalsAdd<K, U>(m: map<K, map<U, nat>>, k: K, u: U, n: nat)
    ensures var inner := if k in m then m[k] else map[];
      SumValues(Totals(m[k := Add(inner, u, n)])) == SumValues(Totals(m)) + n
  {
    var inner := if k in m then m[k] else map[];
    var m' := m[k := Add(inner, u, n)];
    SumValuesAdd(inner, u, n);
    assert SumValues(inner) == Get(Totals(m), k);
    assert Totals(m') == Add(Totals(m), k, n);
    SumValuesAdd(Totals(m), k, n);
  }
}
