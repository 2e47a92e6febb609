/** Shared vocabulary: optional values, timestamps, identifiers, and sums over finite maps. */
module Basics {

  datatype Option<+T> = None | Some(value: T)

  /** Identifiers and owner names. The source compares them only for equality and for order; numbers
      stand for the strings in their order, so that zero is the empty string. */
  type Id = nat

  const EMPTY: Id := 0

  /** Seconds since the epoch. The model keeps them exact. */
  type Time = real

  /** The sum of all values of a finite map. */
  ghost function Sum<K>(m: map<K, nat>): nat
    decreases |m|
  {
    if m == map[] then 0 else
      var k :| k in m;
      m[k] + Sum(m - {k})
  }

  /** The order in which `Sum` visits the keys does not matter. */
  lemma {:induction false} SumPick<K>(m: map<K, nat>, k: K)
    requires k in m
    ensures Sum(m) == m[k] + Sum(m - {k})
    decreases |m|
  {
    var first :| first in m && Sum(m) == m[first] + Sum(m - {first});
    if first != k {
      SumPick(m - {first}, k);
      SumPick(m - {k}, first);
      assert m - {first} - {k} == m - {k} - {first};
    }
  }

  lemma SumUpdate<K>(m: map<K, nat>, k: K, v: nat)
    ensures Sum(m[k := v]) == v + Sum(m - {k})
  {
    SumPick(m[k := v], k);
    assert m[k := v] - {k} == m - {k};
  }

  /** Lowering values, key by key, lowers the sum. */
  lemma {:induction false} SumMonotone<K>(a: map<K, nat>, b: map<K, nat>)
    requires a.Keys == b.Keys
    requires forall k :: k in a ==> a[k] <= b[k]
    ensures Sum(a) <= Sum(b)
    decreases |a|
  {
    if a != map[] {
      var k :| k in a;
      SumPick(a, k);
      SumPick(b, k);
      SumMonotone(a - {k}, b - {k});
    }
  }
}
