/**
 * The multiset of the values stored in a map. A Go `range` over a map visits
 * each entry once in an unspecified order, so a list built that way is
 * characterised by this multiset.
 */
module Bags {

  /** The values `m` holds under the keys `ks`, with multiplicity. */
  ghost function ValuesOn<K, V>(m: map<K, V>, ks: set<K>): multiset<V>
    requires ks <= m.Keys
    decreases ks
  {
    if ks == {} then multiset{} else
      var k :| k in ks;
      multiset{m[k]} + ValuesOn(m, ks - {k})
  }

  /** All values of `m`, with multiplicity. */
  ghost function Values<K, V>(m: map<K, V>): multiset<V>
  {
    ValuesOn(m, m.Keys)
  }

  /** Any key may be taken out first, not only the one `ValuesOn` picks. */
  lemma {:induction false} ValuesOnRemove<K, V>(m: map<K, V>, ks: set<K>, k: K)
    requires k in ks && ks <= m.Keys
    ensures ValuesOn(m, ks) == multiset{m[k]} + ValuesOn(m, ks - {k})
    decreases ks
  {
    var j :| j in ks && ValuesOn(m, ks) == multiset{m[j]} + ValuesOn(m, ks - {j});
    if j != k {
      ValuesOnRemove(m, ks - {j}, k);
      ValuesOnRemove(m, ks - {k}, j);
      assert ks - {j} - {k} == ks - {k} - {j};
    }
  }

  /** A value is among those on `ks` exactly when some key in `ks` holds it. */
  lemma {:induction false} ValuesOnMember<K, V>(m: map<K, V>, ks: set<K>, v: V)
    requires ks <= m.Keys
    ensures v in ValuesOn(m, ks) <==> exists k :: k in ks && m[k] == v
    decreases ks
  {
    if ks != {} {
      var k :| k in ks;
      ValuesOnRemove(m, ks, k);
      ValuesOnMember(m, ks - {k}, v);
    }
  }
}
