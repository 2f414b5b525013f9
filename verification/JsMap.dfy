/** A JavaScript `Map`: entries in first-insertion order, where setting a present key keeps its place. */
module JsMap {
  import opened Prelude

  type Entries<K, V> = seq<(K, V)>

  function Put<K(==), V>(m: Entries<K, V>, k: K, v: V): Entries<K, V> {
    if m == [] then [(k, v)]
    else if m[0].0 == k then [(k, v)] + m[1..]
    else [m[0]] + Put(m[1..], k, v)
  }

  function Get<K(==), V>(m: Entries<K, V>, k: K): Option<V> {
    if m == [] then None
    else if m[0].0 == k then Some(m[0].1)
    else Get(m[1..], k)
  }

  /** `new Map(pairs)` */
  function FromPairs<K(==), V>(pairs: seq<(K, V)>): Entries<K, V> {
    if pairs == [] then [] else Put(FromPairs(DropLast(pairs)), Last(pairs).0, Last(pairs).1)
  }

  ghost predicate DistinctKeys<K, V>(m: Entries<K, V>) {
    forall i, j :: 0 <= i < j < |m| ==> m[i].0 != m[j].0
  }

  lemma {:induction false} GetPut<K, V>(m: Entries<K, V>, k: K, v: V, x: K)
    ensures Get(Put(m, k, v), x) == if x == k then Some(v) else Get(m, x)
  {
    if m != [] && m[0].0 != k {
      assert Put(m, k, v)[1..] == Put(m[1..], k, v);
      GetPut(m[1..], k, v, x);
    } else if m != [] {
      assert Put(m, k, v)[1..] == m[1..];
    }
  }

  /** A new key comes last. */
  lemma {:induction false} PutNew<K, V>(m: Entries<K, V>, k: K, v: V)
    requires Get(m, k).None?
    ensures Put(m, k, v) == m + [(k, v)]
  {
    if m != [] {
      PutNew(m[1..], k, v);
      assert m == [m[0]] + m[1..];
    }
  }

  lemma {:induction false} GetNone<K, V>(m: Entries<K, V>, k: K)
    ensures Get(m, k) == None <==> forall i :: 0 <= i < |m| ==> m[i].0 != k
  {
    if m != [] {
      GetNone(m[1..], k);
      if i :| 0 <= i < |m| && m[i].0 == k && i > 0 {
        assert m[1..][i - 1].0 == k;
      }
    }
  }

  lemma {:induction false} GetAt<K, V>(m: Entries<K, V>, i: nat)
    requires DistinctKeys(m) && i < |m|
    ensures Get(m, m[i].0) == Some(m[i].1)
  {
    if i > 0 {
      forall a, b | 0 <= a < b < |m[1..]|
        ensures m[1..][a].0 != m[1..][b].0
      {
        assert m[a + 1].0 != m[b + 1].0;
      }
      GetAt(m[1..], i - 1);
    }
  }

  lemma {:induction false} PutDistinct<K, V>(m: Entries<K, V>, k: K, v: V)
    requires DistinctKeys(m)
    ensures DistinctKeys(Put(m, k, v))
  {
    if m != [] && m[0].0 != k {
      forall a, b | 0 <= a < b < |m[1..]|
        ensures m[1..][a].0 != m[1..][b].0
      {
        assert m[a + 1].0 != m[b + 1].0;
      }
      PutDistinct(m[1..], k, v);
      var p := Put(m[1..], k, v);
      forall j | 0 <= j < |p|
        ensures p[j].0 != m[0].0
      {
        GetNone(m[1..], m[0].0);
        GetPut(m[1..], k, v, m[0].0);
        GetNone(p, m[0].0);
      }
    }
  }

  lemma {:induction false} FromPairsDistinct<K, V>(pairs: seq<(K, V)>)
    ensures DistinctKeys(FromPairs(pairs))
  {
    if pairs != [] {
      FromPairsDistinct(DropLast(pairs));
      PutDistinct(FromPairs(DropLast(pairs)), Last(pairs).0, Last(pairs).1);
    }
  }

  /** Looking a key up finds the last pair with that key. */
  lemma {:induction false} GetFromPairs<K, V>(pairs: seq<(K, V)>, k: K)
    ensures Get(FromPairs(pairs), k).Some? <==> exists i :: 0 <= i < |pairs| && pairs[i].0 == k
    ensures Get(FromPairs(pairs), k).Some? ==> (k, Get(FromPairs(pairs), k).value) in pairs
  {
    if pairs != [] {
      var d := DropLast(pairs);
      GetFromPairs(d, k);
      GetPut(FromPairs(d), Last(pairs).0, Last(pairs).1, k);
      assert pairs == d + [Last(pairs)];
      if i :| 0 <= i < |pairs| && pairs[i].0 == k && i < |d| {
        assert d[i].0 == k;
      }
      if i :| 0 <= i < |d| && d[i].0 == k {
        assert pairs[i].0 == k;
      }
    }
  }

  /** The last pair with a key gives the answer. */
  lemma {:induction false} GetLast<K, V>(pairs: seq<(K, V)>, i: nat)
    requires i < |pairs| && forall j :: i < j < |pairs| ==> pairs[j].0 != pairs[i].0
    ensures Get(FromPairs(pairs), pairs[i].0) == Some(pairs[i].1)
  {
    var d, last := DropLast(pairs), Last(pairs);
    GetPut(FromPairs(d), last.0, last.1, pairs[i].0);
    if i < |d| {
      GetLast(d, i);
    }
  }

  /** When equal keys carry equal values, any pair with the key gives the answer. */
  lemma GetFunctional<K, V>(pairs: seq<(K, V)>, i: nat)
    requires i < |pairs|
    requires forall j :: 0 <= j < |pairs| && pairs[j].0 == pairs[i].0 ==> pairs[j].1 == pairs[i].1
    ensures Get(FromPairs(pairs), pairs[i].0) == Some(pairs[i].1)
  {
    GetFromPairs(pairs, pairs[i].0);
  }

  /** Two pair lists with the same keys, place by place: a key is answered from the same place in both. */
  lemma {:induction false} GetAligned<K, V, W>(ps: seq<(K, V)>, qs: seq<(K, W)>, k: K) returns (i: nat)
    requires |ps| == |qs| && forall j :: 0 <= j < |ps| ==> ps[j].0 == qs[j].0
    ensures Get(FromPairs(ps), k) == None <==> Get(FromPairs(qs), k) == None
    ensures Get(FromPairs(ps), k) != None ==>
              i < |ps| && ps[i].0 == k && Get(FromPairs(ps), k) == Some(ps[i].1)
              && Get(FromPairs(qs), k) == Some(qs[i].1)
  {
    i := 0;
    if ps != [] {
      var d, e := DropLast(ps), DropLast(qs);
      GetPut(FromPairs(d), Last(ps).0, Last(ps).1, k);
      GetPut(FromPairs(e), Last(qs).0, Last(qs).1, k);
      if Last(ps).0 == k {
        i := |d|;
      } else {
        i := GetAligned(d, e, k);
      }
    }
  }
}
