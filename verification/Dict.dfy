/** Python's dict: association lists in insertion order, where assigning to a key that is
    already there keeps its place. */
module Dict {
  import opened Sorting

  type Dict<K, V> = seq<(K, V)>

  function Keys<K, V>(d: Dict<K, V>): (r: seq<K>)
    ensures |r| == |d|
  {
    if d == [] then [] else [d[0].0] + Keys(d[1..])
  }

  function Values<K, V>(d: Dict<K, V>): (r: seq<V>)
    ensures |r| == |d|
  {
    if d == [] then [] else [d[0].1] + Values(d[1..])
  }

  predicate Has<K(==), V>(d: Dict<K, V>, k: K)
  {
    d != [] && (d[0].0 == k || Has(d[1..], k))
  }

  function Get<K(==), V>(d: Dict<K, V>, k: K, default: V): V
  {
    if d == [] then default else if d[0].0 == k then d[0].1 else Get(d[1..], k, default)
  }

  function Assign<K(==), V>(d: Dict<K, V>, k: K, v: V): Dict<K, V>
  {
    if d == [] then [(k, v)]
    else if d[0].0 == k then [(k, v)] + d[1..]
    else [d[0]] + Assign(d[1..], k, v)
  }

  lemma {:induction false} KeysAt<K, V>(d: Dict<K, V>)
    ensures forall i :: 0 <= i < |d| ==> Keys(d)[i] == d[i].0 && Values(d)[i] == d[i].1
  {
    if d != [] { KeysAt(d[1..]); }
  }

  lemma {:induction false} HasIsKey<K, V>(d: Dict<K, V>, k: K)
    ensures Has(d, k) <==> k in Keys(d)
  {
    if d != [] { HasIsKey(d[1..], k); }
  }

  /** Reading a dict finds an entry. */
  lemma {:induction false} GetIsEntry<K, V>(d: Dict<K, V>, k: K, default: V)
    ensures Has(d, k) ==> (k, Get(d, k, default)) in d
    ensures !Has(d, k) ==> Get(d, k, default) == default && forall e :: e in d ==> e.0 != k
  {
    if d != [] {
      GetIsEntry(d[1..], k, default);
      assert d == [d[0]] + d[1..];
    }
  }

  lemma {:induction false} EntryIsGet<K, V>(d: Dict<K, V>, k: K, v: V, default: V)
    requires Distinct(Keys(d)) && (k, v) in d
    ensures Has(d, k) && Get(d, k, default) == v
  {
    KeysAt(d);
    var i :| 0 <= i < |d| && d[i] == (k, v);
    if i > 0 {
      assert d[1..][i - 1] == (k, v);
      assert Keys(d)[0] != Keys(d)[i];
      assert Keys(d[1..]) == Keys(d)[1..];
      EntryIsGet(d[1..], k, v, default);
    }
  }

  lemma {:induction false} AssignGet<K, V>(d: Dict<K, V>, k: K, v: V, k': K, default: V)
    ensures Get(Assign(d, k, v), k', default) == if k' == k then v else Get(d, k', default)
    ensures Has(Assign(d, k, v), k') <==> k' == k || Has(d, k')
  {
    if d != [] { AssignGet(d[1..], k, v, k', default); }
  }

  lemma {:induction false} AssignNew<K, V>(d: Dict<K, V>, k: K, v: V)
    requires !Has(d, k)
    ensures Assign(d, k, v) == d + [(k, v)]
  {
    if d != [] {
      AssignNew(d[1..], k, v);
      assert d == [d[0]] + d[1..];
    }
  }

  lemma {:induction false} AssignKeys<K, V>(d: Dict<K, V>, k: K, v: V)
    ensures Keys(Assign(d, k, v)) == if Has(d, k) then Keys(d) else Keys(d) + [k]
  {
    if d != [] { AssignKeys(d[1..], k, v); }
  }

  lemma AssignDistinct<K, V>(d: Dict<K, V>, k: K, v: V)
    requires Distinct(Keys(d))
    ensures Distinct(Keys(Assign(d, k, v)))
  {
    AssignKeys(d, k, v);
    HasIsKey(d, k);
  }

  lemma {:induction false} AssignEntries<K, V>(d: Dict<K, V>, k: K, v: V)
    requires Distinct(Keys(d))
    ensures forall e :: e in Assign(d, k, v) <==> e == (k, v) || (e in d && e.0 != k)
  {
    if d != [] {
      assert d == [d[0]] + d[1..];
      assert Keys(d)[1..] == Keys(d[1..]);
      if d[0].0 == k {
        KeysAt(d);
        assert forall i :: 1 <= i < |d| ==> Keys(d)[0] != Keys(d)[i];
      } else {
        AssignEntries(d[1..], k, v);
      }
    }
  }

  lemma {:induction false} ValuesAppend<K, V>(d: Dict<K, V>, e: (K, V))
    ensures Values(d + [e]) == Values(d) + [e.1]
    ensures Keys(d + [e]) == Keys(d) + [e.0]
  {
    if d == [] {
      assert d + [e] == [e];
    } else {
      ValuesAppend(d[1..], e);
      assert (d + [e])[1..] == d[1..] + [e];
    }
  }

  lemma ValueIsEntry<K, V>(d: Dict<K, V>)
    ensures forall e :: e in d ==> e.0 in Keys(d) && e.1 in Values(d)
    ensures forall v :: v in Values(d) ==> exists e :: e in d && e.1 == v
  {
    KeysAt(d);
    forall v | v in Values(d) ensures exists e :: e in d && e.1 == v {
      var i :| 0 <= i < |d| && Values(d)[i] == v;
      assert d[i] in d && d[i].1 == v;
    }
  }
}
