/** JavaScript's Map as a value: an association list in insertion order, at most
    one entry per key. Overwriting a key keeps its place, a new key comes last, and
    deleting one keeps the others in order, so that rooms list their members, and
    views their participants, in the order of joining. */
module JsMap {
  datatype Option<+T> = None | Some(value: T)

  datatype Entry<K, V> = Entry(key: K, value: V)
  type Table<K, V> = seq<Entry<K, V>>

  ghost predicate Distinct<K, V>(t: Table<K, V>) {
    forall i, j :: 0 <= i < j < |t| ==> t[i].key != t[j].key
  }

  predicate Has<K(==), V>(t: Table<K, V>, k: K) {
    exists i :: 0 <= i < |t| && t[i].key == k
  }

  function Find<K(==), V>(t: Table<K, V>, k: K): (r: Option<V>)
    ensures r.Some? <==> Has(t, k)
    ensures r.Some? ==> Entry(k, r.value) in t
  {
    if t == [] then None
    else if t[0].key == k then Some(t[0].value)
    else
      assert Has(t[1..], k) ==> Has(t, k);
      assert forall i :: 0 < i < |t| ==> t[i] == t[1..][i - 1];
      Find(t[1..], k)
  }

  function Put<K(==), V>(t: Table<K, V>, k: K, v: V): Table<K, V> {
    if t == [] then [Entry(k, v)]
    else if t[0].key == k then [Entry(k, v)] + t[1..]
    else [t[0]] + Put(t[1..], k, v)
  }

  /** Putting over a known key keeps every key in its place and changes its value
      only. */
  lemma {:induction false} PutKnown<K, V>(t: Table<K, V>, k: K, v: V, i: nat)
    requires Distinct(t) && i < |t| && t[i].key == k
    ensures Put(t, k, v) == t[i := Entry(k, v)]
  {
    if i > 0 {
      assert t[0].key != k;
      assert Distinct(t[1..]) by {
        assert forall a :: 0 <= a < |t[1..]| ==> t[1..][a] == t[a + 1];
      }
      PutKnown(t[1..], k, v, i - 1);
      assert t[i := Entry(k, v)] == [t[0]] + t[1..][i - 1 := Entry(k, v)];
    } else {
      assert t[0 := Entry(k, v)] == [Entry(k, v)] + t[1..];
    }
  }

  lemma {:induction false} PutNew<K, V>(t: Table<K, V>, k: K, v: V)
    requires !Has(t, k)
    ensures Put(t, k, v) == t + [Entry(k, v)]
  {
    if t != [] {
      TailHas(t, k);
      PutNew(t[1..], k, v);
      assert t == [t[0]] + t[1..];
    }
  }

  function Delete<K(==), V>(t: Table<K, V>, k: K): Table<K, V> {
    if t == [] then []
    else if t[0].key == k then Delete(t[1..], k)
    else [t[0]] + Delete(t[1..], k)
  }

  lemma {:induction false} DeleteKeepsOthers<K, V>(t: Table<K, V>, k: K)
    ensures |Delete(t, k)| <= |t|
    ensures forall e <- t :: e.key != k ==> e in Delete(t, k)
    ensures forall e <- Delete(t, k) :: e in t && e.key != k
    ensures Distinct(t) ==> Distinct(Delete(t, k))
  {
    if t != [] {
      var rest := Delete(t[1..], k);
      DeleteKeepsOthers(t[1..], k);
      assert t == [t[0]] + t[1..];
      if Distinct(t) {
        forall i, j | 0 <= i < j < |t[1..]| ensures t[1..][i].key != t[1..][j].key {
          assert t[1..][i] == t[i + 1] && t[1..][j] == t[j + 1];
        }
        forall e | e in rest ensures e.key != t[0].key {
          var i :| 0 <= i < |t[1..]| && t[1..][i] == e;
          assert t[i + 1] == e;
        }
      }
    }
  }

  lemma TailHas<K, V>(t: Table<K, V>, q: K)
    requires t != []
    ensures Has(t, q) <==> t[0].key == q || Has(t[1..], q)
  {
    if Has(t[1..], q) {
      var i :| 0 <= i < |t[1..]| && t[1..][i].key == q;
      assert t[i + 1].key == q;
    }
    if i :| 0 < i < |t| && t[i].key == q {
      assert t[1..][i - 1].key == q;
    }
  }

  /** `for (const p of entries) map.set(p.key, p.value)`. */
  function PutAll<K(==), V>(t: Table<K, V>, more: Table<K, V>): Table<K, V>
    decreases more
  {
    if more == [] then t else PutAll(Put(t, more[0].key, more[0].value), more[1..])
  }

  lemma {:induction false} PutAllFresh<K, V>(t: Table<K, V>, more: Table<K, V>)
    requires Distinct(t + more)
    ensures PutAll(t, more) == t + more
    decreases more
  {
    if more == [] {
      assert t + more == t;
    } else {
      assert !Has(t, more[0].key) by {
        forall i | 0 <= i < |t| ensures t[i].key != more[0].key {
          assert (t + more)[i] == t[i] && (t + more)[|t|] == more[0];
        }
      }
      assert t + more == (t + [more[0]]) + more[1..];
      PutNew(t, more[0].key, more[0].value);
      PutAllFresh(t + [more[0]], more[1..]);
    }
  }

  lemma HasDelete<K(!new), V>(t: Table<K, V>, k: K)
    ensures forall q :: Has(Delete(t, k), q) <==> Has(t, q) && q != k
  {
    var r := Delete(t, k);
    DeleteKeepsOthers(t, k);
    forall q ensures Has(r, q) <==> Has(t, q) && q != k {
      if i :| 0 <= i < |r| && r[i].key == q { assert r[i] in r; }
      if i :| 0 <= i < |t| && t[i].key == q { assert t[i] in t; assert q != k ==> t[i] in r; }
    }
  }

  lemma {:induction false} DeleteMissing<K, V>(t: Table<K, V>, k: K)
    requires !Has(t, k)
    ensures Delete(t, k) == t
  {
    if t != [] {
      TailHas(t, k);
      DeleteMissing(t[1..], k);
    }
  }
}
