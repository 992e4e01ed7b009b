/** Sums over the rows of a table. */
module Sums {

  /** The sum of the values of a finite map, whatever order its keys are visited in. */
  ghost function Sum<K(!new)>(m: map<K, int>): int {
    if m == map[] then 0 else
      var k :| k in m;
      m[k] + Sum(m - {k})
  }

  /** Any key may be taken out first. */
  lemma {:induction false} SumRemove<K(!new)>(m: map<K, int>, k: K)
    requires k in m
    ensures Sum(m) == m[k] + Sum(m - {k})
    decreases |m|
  {
    var first :| first in m && Sum(m) == m[first] + Sum(m - {first});
    if first != k {
      var rest := m - {first};
      assert |rest| < |m| by { assert rest.Keys == m.Keys - {first}; }
      SumRemove(rest, k);
      var other := m - {k};
      assert |other| < |m| by { assert other.Keys == m.Keys - {k}; }
      SumRemove(other, first);
      assert rest - {k} == other - {first};
    }
  }

  /** Writing one row moves the sum by exactly that row's change. */
  lemma SumUpdate<K(!new)>(m: map<K, int>, k: K, x: int)
    ensures Sum(m[k := x]) == Sum(m) - (if k in m then m[k] else 0) + x
  {
    SumRemove(m[k := x], k);
    if k in m {
      SumRemove(m, k);
      assert m[k := x] - {k} == m - {k};
    } else {
      assert m[k := x] - {k} == m;
    }
  }

  /** Two tables that agree except at one key differ in sum by that key alone. */
  lemma SumDifference<K(!new)>(m: map<K, int>, m': map<K, int>, k: K)
    requires m - {k} == m' - {k}
    ensures Sum(m') - (if k in m' then m'[k] else 0) == Sum(m) - (if k in m then m[k] else 0)
  {
    if k in m { SumRemove(m, k); } else { assert m - {k} == m; }
    if k in m' { SumRemove(m', k); } else { assert m' - {k} == m'; }
  }

  /** A sum of rows none of which is negative is not negative and is at least any one of them. */
  lemma {:induction false} SumNonNegative<K(!new)>(m: map<K, int>)
    requires forall k :: k in m ==> m[k] >= 0
    ensures Sum(m) >= 0
    ensures forall k :: k in m ==> m[k] <= Sum(m)
    decreases |m|
  {
    if m != map[] {
      forall k | k in m ensures m[k] <= Sum(m) && Sum(m) >= 0 {
        SumRemove(m, k);
        assert |m - {k}| < |m| by { assert (m - {k}).Keys == m.Keys - {k}; }
        SumNonNegative(m - {k});
      }
      var k :| k in m;
      assert m[k] <= Sum(m);
    }
  }
}
