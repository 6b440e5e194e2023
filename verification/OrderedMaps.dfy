/**
 * JavaScript's `Map`: entries in insertion order. Setting a key that is present replaces its value in
 * place, setting a new key appends it, and deleting a key closes the gap.
 */
module OrderedMaps {
  import opened Prelude

  type OMap<K, V> = seq<(K, V)>

  ghost predicate Distinct<K, V>(m: OMap<K, V>) {
    forall i, j :: 0 <= i < j < |m| ==> m[i].0 != m[j].0
  }

  function Get<K(==), V>(m: OMap<K, V>, k: K): Option<V> {
    if m == [] then None else if m[0].0 == k then Some(m[0].1) else Get(m[1..], k)
  }

  predicate Has<K(==), V>(m: OMap<K, V>, k: K) {
    Get(m, k).Some?
  }

  function Put<K(==), V>(m: OMap<K, V>, k: K, v: V): OMap<K, V> {
    if m == [] then [(k, v)]
    else if m[0].0 == k then [(k, v)] + m[1..]
    else [m[0]] + Put(m[1..], k, v)
  }

  function Remove<K(==), V>(m: OMap<K, V>, k: K): OMap<K, V> {
    if m == [] then []
    else if m[0].0 == k then Remove(m[1..], k)
    else [m[0]] + Remove(m[1..], k)
  }

  lemma {:induction false} HasIsMember<K, V>(m: OMap<K, V>, k: K)
    ensures Has(m, k) <==> exists i :: 0 <= i < |m| && m[i].0 == k
  {
    if m != [] {
      HasIsMember(m[1..], k);
      if m[0].0 == k {
      } else if Has(m[1..], k) {
        var i :| 0 <= i < |m[1..]| && m[1..][i].0 == k;
        assert m[i + 1].0 == k;
      } else {
        forall i | 0 <= i < |m| ensures m[i].0 != k {
          if i > 0 { assert m[i] == m[1..][i - 1]; }
        }
      }
    }
  }

  lemma {:induction false} GetIsMember<K, V>(m: OMap<K, V>, k: K)
    requires Has(m, k)
    ensures (k, Get(m, k).value) in m
  {
    if m[0].0 != k { GetIsMember(m[1..], k); }
  }

  /** What is read back at an index of a map with distinct keys. */
  lemma {:induction false} GetAt<K, V>(m: OMap<K, V>, i: nat)
    requires Distinct(m) && i < |m|
    ensures Get(m, m[i].0) == Some(m[i].1)
  {
    if i > 0 {
      assert m[i] == m[1..][i - 1];
      GetAt(m[1..], i - 1);
    }
  }

  lemma {:induction false} GetPut<K, V>(m: OMap<K, V>, k: K, v: V, k': K)
    ensures Get(Put(m, k, v), k') == if k == k' then Some(v) else Get(m, k')
  {
    if m != [] && m[0].0 != k {
      GetPut(m[1..], k, v, k');
    }
  }

  lemma {:induction false} GetRemove<K, V>(m: OMap<K, V>, k: K, k': K)
    ensures Get(Remove(m, k), k') == if k == k' then None else Get(m, k')
  {
    if m != [] {
      GetRemove(m[1..], k, k');
    }
  }

  lemma {:induction false} PutNew<K, V>(m: OMap<K, V>, k: K, v: V)
    requires !Has(m, k)
    ensures Put(m, k, v) == m + [(k, v)]
  {
    if m != [] {
      PutNew(m[1..], k, v);
    }
  }

  lemma {:induction false} PutPut<K, V>(m: OMap<K, V>, k: K, v: V, w: V)
    ensures Put(Put(m, k, v), k, w) == Put(m, k, w)
  {
    if m != [] && m[0].0 != k {
      PutPut(m[1..], k, v, w);
    }
  }

  /** Writing back what is there changes nothing. */
  lemma {:induction false} PutSame<K, V>(m: OMap<K, V>, k: K, v: V)
    requires Get(m, k) == Some(v)
    ensures Put(m, k, v) == m
  {
    if m[0].0 != k {
      PutSame(m[1..], k, v);
    }
  }

  lemma {:induction false} PutKeeps<K, V>(m: OMap<K, V>, k: K, v: V)
    requires Distinct(m)
    ensures Distinct(Put(m, k, v))
    ensures forall e :: e in Put(m, k, v) ==> e == (k, v) || e in m
  {
    if m != [] && m[0].0 != k {
      PutKeeps(m[1..], k, v);
      var t := Put(m[1..], k, v);
      forall j | 0 <= j < |t| ensures t[j].0 != m[0].0 {
        assert t[j] in t;
        if t[j] in m[1..] {
          var i :| 0 <= i < |m[1..]| && m[1..][i] == t[j];
          assert m[i + 1].0 != m[0].0;
        }
      }
    }
  }

  lemma {:induction false} RemoveKeeps<K, V>(m: OMap<K, V>, k: K)
    requires Distinct(m)
    ensures Distinct(Remove(m, k))
    ensures forall e :: e in Remove(m, k) ==> e in m && e.0 != k
    ensures forall e :: e in m && e.0 != k ==> e in Remove(m, k)
  {
    if m != [] {
      RemoveKeeps(m[1..], k);
      var t := Remove(m[1..], k);
      forall j | 0 <= j < |t| ensures t[j].0 != m[0].0 {
        assert t[j] in t && t[j] in m[1..];
        var i :| 0 <= i < |m[1..]| && m[1..][i] == t[j];
        assert m[i + 1].0 != m[0].0;
      }
    }
  }

  lemma {:induction false} RemoveAbsent<K, V>(m: OMap<K, V>, k: K)
    requires !Has(m, k)
    ensures Remove(m, k) == m
  {
    if m != [] {
      RemoveAbsent(m[1..], k);
    }
  }
}
