/** A JavaScript Map or object: entries in insertion order, each key once; setting an existing key keeps its place. */
module OrderedMap {
  import opened Prelude

  type OMap<K, V> = seq<(K, V)>

  predicate DistinctKeys<K(==), V>(m: OMap<K, V>) {
    forall i, j :: 0 <= i < j < |m| ==> m[i].0 != m[j].0
  }

  function Get<K(==), V>(m: OMap<K, V>, k: K): Option<V> {
    if m == [] then None
    else if m[0].0 == k then Some(m[0].1)
    else Get(m[1..], k)
  }

  function Put<K(==), V>(m: OMap<K, V>, k: K, v: V): OMap<K, V> {
    if m == [] then [(k, v)]
    else if m[0].0 == k then [(k, v)] + m[1..]
    else [m[0]] + Put(m[1..], k, v)
  }

  lemma {:induction false} GetIsEntry<K, V>(m: OMap<K, V>, k: K)
    ensures Get(m, k).None? <==> forall i :: 0 <= i < |m| ==> m[i].0 != k
    ensures Get(m, k).Some? ==> exists i :: 0 <= i < |m| && m[i] == (k, Get(m, k).value)
  {
    if m != [] && m[0].0 != k {
      GetIsEntry(m[1..], k);
      if Get(m, k).Some? {
        var i :| 0 <= i < |m[1..]| && m[1..][i] == (k, Get(m, k).value);
        assert m[i + 1] == m[1..][i];
      }
      assert forall i :: 0 < i < |m| ==> m[i] == m[1..][i - 1];
    }
  }

  lemma {:induction false} GetPut<K, V>(m: OMap<K, V>, k: K, v: V, q: K)
    ensures Get(Put(m, k, v), q) == if q == k then Some(v) else Get(m, q)
  {
    if m != [] && m[0].0 != k {
      GetPut(m[1..], k, v, q);
      assert Put(m, k, v)[1..] == Put(m[1..], k, v);
    } else if m != [] {
      assert Put(m, k, v)[1..] == m[1..];
    }
  }

  lemma {:induction false} PutKeys<K, V>(m: OMap<K, V>, k: K, v: V)
    ensures forall i :: 0 <= i < |Put(m, k, v)|
              ==> Put(m, k, v)[i].0 == k || exists j :: 0 <= j < |m| && m[j].0 == Put(m, k, v)[i].0
    ensures DistinctKeys(m) ==> DistinctKeys(Put(m, k, v))
  {
    if m != [] && m[0].0 != k {
      var rest := m[1..];
      PutKeys(rest, k, v);
      var p := Put(m, k, v);
      assert p[1..] == Put(rest, k, v);
      forall i | 0 <= i < |p| ensures p[i].0 == k || exists j :: 0 <= j < |m| && m[j].0 == p[i].0 {
        if i > 0 {
          assert p[i] == Put(rest, k, v)[i - 1];
          if p[i].0 != k {
            var j :| 0 <= j < |rest| && rest[j].0 == p[i].0;
            assert m[j + 1].0 == p[i].0;
          }
        }
      }
      if DistinctKeys(m) {
        assert DistinctKeys(rest);
        forall i | 0 < i < |p| ensures p[i].0 != p[0].0 {
          assert p[i] == Put(rest, k, v)[i - 1];
        }
        forall i, j | 0 < i < j < |p| ensures p[i].0 != p[j].0 {
          assert p[i] == Put(rest, k, v)[i - 1] && p[j] == Put(rest, k, v)[j - 1];
        }
      }
    }
  }

  lemma {:induction false} GetAt<K, V>(m: OMap<K, V>, i: nat)
    requires DistinctKeys(m) && i < |m|
    ensures Get(m, m[i].0) == Some(m[i].1)
  {
    if i > 0 {
      assert m[1..][i - 1] == m[i];
      GetAt(m[1..], i - 1);
    }
  }
}
