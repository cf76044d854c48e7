/** Value types shared by the models. */
module Common {

  datatype Option<+T> = None | Some(value: T)

  /** A key's value, when the key is present. */
  function Lookup<K, V>(m: map<K, V>, k: K): (r: Option<V>)
    ensures r.Some? <==> k in m
    ensures r.Some? ==> r.value == m[k]
  {
    if k in m then Some(m[k]) else None
  }

  /** A set that is not empty has a member. */
  lemma SomeMember<T>(s: set<T>) returns (x: T)
    requires s != {}
    ensures x in s
  {
    x :| x in s;
  }

  /** A map with fewer keys is not larger. */
  lemma FewerKeys<K, V>(a: map<K, V>, b: map<K, V>)
    requires a.Keys <= b.Keys
    ensures |a| <= |b|
  {
    assert b.Keys == a.Keys + (b.Keys - a.Keys);
    assert |a.Keys| == |a| && |b.Keys| == |b|;
  }

  /** An integer that is not taken. */
  lemma {:induction false} FreshInt(taken: set<int>) returns (c: int)
    ensures c !in taken
    ensures forall x :: x in taken ==> x < c
  {
    if taken == {} {
      c := 0;
    } else {
      var x := SomeMember(taken);
      c := FreshInt(taken - {x});
      c := if c <= x then x + 1 else c;
      assert forall y :: y in taken ==> y == x || y in taken - {x};
    }
  }
}
