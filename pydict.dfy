/** Python dicts as insertion-ordered association lists.

    A CPython dict iterates its keys in first-insertion order, and assigning to an
    existing key replaces the value in place. `collections.defaultdict(list)` reads a
    missing key as an empty list. The scheduler relies on all three behaviours. */
module PyDict {
  import opened Wrappers

  type Dict<K, V> = seq<(K, V)>

  function Keys<K, V>(d: Dict<K, V>): (ks: seq<K>)
    ensures |ks| == |d| && forall i :: 0 <= i < |d| ==> ks[i] == d[i].0
  {
    if d == [] then [] else [d[0].0] + Keys(d[1..])
  }

  function Values<K, V>(d: Dict<K, V>): (vs: seq<V>)
    ensures |vs| == |d| && forall i :: 0 <= i < |d| ==> vs[i] == d[i].1
  {
    if d == [] then [] else [d[0].1] + Values(d[1..])
  }

  /** No key occurs twice: every dict built with Put has this shape. */
  predicate KeysDistinct<K(==), V>(d: Dict<K, V>) {
    forall i, j :: 0 <= i < j < |d| ==> d[i].0 != d[j].0
  }

  /** `d.get(k)`, None for a missing key. */
  function Get<K(==), V>(d: Dict<K, V>, k: K): Option<V> {
    if d == [] then None
    else if d[0].0 == k then Some(d[0].1)
    else Get(d[1..], k)
  }

  /** A lookup finds exactly the keys of the dict, with a value stored under that key. */
  lemma {:induction false} GetSpec<K, V>(d: Dict<K, V>, k: K)
    ensures Get(d, k).Some? <==> k in Keys(d)
    ensures Get(d, k).Some? ==> (k, Get(d, k).value) in d
  {
    if d != [] && d[0].0 != k {
      GetSpec(d[1..], k);
      assert Keys(d) == [d[0].0] + Keys(d[1..]);
    }
  }

  /** A key read back finds its first occurrence. */
  lemma {:induction false} GetAt<K, V>(d: Dict<K, V>, j: nat)
    requires j < |d| && forall i :: 0 <= i < j ==> d[i].0 != d[j].0
    ensures Get(d, d[j].0) == Some(d[j].1)
  {
    if j > 0 {
      GetAt(d[1..], j - 1);
    }
  }

  /** `d[k] = v`: replaces the value in place when the key exists, appends otherwise. */
  function Put<K(==), V>(d: Dict<K, V>, k: K, v: V): (r: Dict<K, V>)
  {
    if d == [] then [(k, v)]
    else if d[0].0 == k then [(k, v)] + d[1..]
    else [d[0]] + Put(d[1..], k, v)
  }

  /** Reading a `defaultdict(list)`: a missing key reads as the empty list. */
  function GetList<K(==), V>(d: Dict<K, seq<V>>, k: K): seq<V> {
    match Get(d, k)
    case Some(l) => l
    case None => []
  }

  /** `d[k].extend(vs)` on a `defaultdict(list)`: the list under `k`, or a new one at the end,
      grows by `vs` (see `ExtendIsPut`). */
  function Extend<K(==), V>(d: Dict<K, seq<V>>, k: K, vs: seq<V>): Dict<K, seq<V>> {
    if d == [] then [(k, vs)]
    else if d[0].0 == k then [(k, d[0].1 + vs)] + d[1..]
    else [d[0]] + Extend(d[1..], k, vs)
  }

  /** `d[k].append(v)` on a `defaultdict(list)`. */
  function Append<K(==), V>(d: Dict<K, seq<V>>, k: K, v: V): Dict<K, seq<V>> {
    if d == [] then [(k, [v])]
    else if d[0].0 == k then [(k, d[0].1 + [v])] + d[1..]
    else [d[0]] + Append(d[1..], k, v)
  }

  /** Extending is assigning the key its list (empty when missing) followed by `vs`. */
  lemma {:induction false} ExtendIsPut<K, V>(d: Dict<K, seq<V>>, k: K, vs: seq<V>)
    ensures Extend(d, k, vs) == Put(d, k, GetList(d, k) + vs)
  {
    if d != [] {
      if d[0].0 == k {
        assert GetList(d, k) == d[0].1;
      } else {
        assert GetList(d, k) == GetList(d[1..], k);
        ExtendIsPut(d[1..], k, vs);
      }
    } else {
      assert GetList(d, k) + vs == vs;
    }
  }

  /** Appending is extending by one value. */
  lemma {:induction false} AppendIsExtend<K, V>(d: Dict<K, seq<V>>, k: K, v: V)
    ensures Append(d, k, v) == Extend(d, k, [v])
  {
    if d != [] && d[0].0 != k {
      AppendIsExtend(d[1..], k, v);
    }
  }

  /** `for v in vs: d[k].append(v)`: unlike `d[k].extend(vs)`, an empty `vs` leaves a
      missing key missing. */
  function AppendEach<K(==), V>(d: Dict<K, seq<V>>, k: K, vs: seq<V>): (r: Dict<K, seq<V>>)
    ensures vs == [] ==> r == d
  {
    if vs == [] then d else Extend(d, k, vs)
  }

  /** Assignment makes the key read back as the new value. */
  lemma {:induction false} GetPutSame<K, V>(d: Dict<K, V>, k: K, v: V)
    ensures Get(Put(d, k, v), k) == Some(v)
  {
    if d != [] && d[0].0 != k {
      GetPutSame(d[1..], k, v);
    }
  }

  /** Assignment leaves every other key unchanged. */
  lemma {:induction false} GetPutOther<K, V>(d: Dict<K, V>, k: K, v: V, k': K)
    requires k' != k
    ensures Get(Put(d, k, v), k') == Get(d, k')
  {
    if d != [] && d[0].0 != k {
      GetPutOther(d[1..], k, v, k');
    }
  }

  /** Assignment keeps the insertion order: an existing key stays where it was, a new key
      goes last. */
  lemma {:induction false} KeysPut<K, V>(d: Dict<K, V>, k: K, v: V)
    ensures Keys(Put(d, k, v)) == if k in Keys(d) then Keys(d) else Keys(d) + [k]
  {
    if d != [] && d[0].0 != k {
      KeysPut(d[1..], k, v);
      assert Keys(d) == [d[0].0] + Keys(d[1..]);
    }
  }

  /** Assignment never creates a duplicate key. */
  lemma {:induction false} PutKeepsDistinct<K, V>(d: Dict<K, V>, k: K, v: V)
    requires KeysDistinct(d)
    ensures KeysDistinct(Put(d, k, v))
  {
    KeysPut(d, k, v);
    var r := Put(d, k, v);
    assert Keys(r) == Keys(d) || Keys(r) == Keys(d) + [k];
    forall i, j | 0 <= i < j < |r| ensures r[i].0 != r[j].0 {
      assert Keys(r)[i] == r[i].0 && Keys(r)[j] == r[j].0;
      if Keys(r) == Keys(d) {
        assert Keys(d)[i] == d[i].0 && Keys(d)[j] == d[j].0;
      } else if j < |d| {
        assert Keys(d)[i] == d[i].0 && Keys(d)[j] == d[j].0;
      } else {
        assert r[j].0 == k && k !in Keys(d);
        assert Keys(d)[i] == r[i].0;
      }
    }
  }

  /** Appending to a defaultdict list adds the value at the end of that key's list. */
  lemma AppendGetList<K, V>(d: Dict<K, seq<V>>, k: K, v: V, k': K)
    ensures GetList(Append(d, k, v), k') == if k' == k then GetList(d, k) + [v] else GetList(d, k')
  {
    AppendIsExtend(d, k, v);
    ExtendIsPut(d, k, [v]);
    if k' == k { GetPutSame(d, k, GetList(d, k) + [v]); }
    else { GetPutOther(d, k, GetList(d, k) + [v], k'); }
  }

  /** A second assignment to the same key overwrites the first. */
  lemma {:induction false} PutPut<K, V>(d: Dict<K, V>, k: K, v: V, w: V)
    ensures Put(Put(d, k, v), k, w) == Put(d, k, w)
  {
    if d != [] && d[0].0 != k {
      PutPut(d[1..], k, v, w);
    }
  }

  /** The append loop one value at a time: appending `vs + [v]` is appending `vs`, then `v`. */
  lemma AppendEachStep<K, V>(d: Dict<K, seq<V>>, k: K, vs: seq<V>, v: V)
    ensures AppendEach(d, k, vs + [v]) == Append(AppendEach(d, k, vs), k, v)
  {
    AppendIsExtend(AppendEach(d, k, vs), k, v);
    ExtendIsPut(AppendEach(d, k, vs), k, [v]);
    ExtendIsPut(d, k, vs + [v]);
    if vs != [] {
      ExtendIsPut(d, k, vs);
      var l := GetList(d, k);
      GetPutSame(d, k, l + vs);
      PutPut(d, k, l + vs, l + vs + [v]);
      assert l + (vs + [v]) == l + vs + [v];
    } else {
      assert vs + [v] == [v];
    }
  }
  /** `d.pop(k)`, the value aside: the entry a lookup of `k` finds is removed. */
  function Without<K(==), V>(d: Dict<K, V>, k: K): (r: Dict<K, V>)
    ensures |r| <= |d|
  {
    if d == [] then []
    else if d[0].0 == k then d[1..]
    else [d[0]] + Without(d[1..], k)
  }

  /** Popping a key leaves every other key's value as it was. */
  lemma {:induction false} GetWithout<K, V>(d: Dict<K, V>, k: K, k': K)
    requires k' != k
    ensures Get(Without(d, k), k') == Get(d, k')
  {
    if d != [] && d[0].0 != k {
      GetWithout(d[1..], k, k');
    }
  }

  /** In a dict without duplicate keys, a popped key is gone. */
  lemma {:induction false} WithoutGone<K, V>(d: Dict<K, V>, k: K)
    requires KeysDistinct(d)
    ensures Get(Without(d, k), k) == None
    ensures KeysDistinct(Without(d, k))
  {
    if d != [] {
      if d[0].0 == k {
        NotAfter(d, k);
      } else {
        WithoutGone(d[1..], k);
        var r := Without(d, k);
        assert r == [d[0]] + Without(d[1..], k);
        forall i, j | 0 <= i < j < |r| ensures r[i].0 != r[j].0 {
          if i == 0 {
            WithoutFrom(d[1..], k, j - 1);
          }
        }
      }
    }
  }

  /** Every entry left after popping was an entry of the dict. */
  lemma {:induction false} WithoutFrom<K, V>(d: Dict<K, V>, k: K, j: nat)
    requires j < |Without(d, k)|
    ensures Without(d, k)[j] in d
  {
    if d != [] && d[0].0 != k && j > 0 {
      WithoutFrom(d[1..], k, j - 1);
    }
  }

  /** A key that heads a dict without duplicates does not occur after the head. */
  lemma NotAfter<K, V>(d: Dict<K, V>, k: K)
    requires KeysDistinct(d) && d != [] && d[0].0 == k
    ensures Get(d[1..], k) == None
  {
    GetSpec(d[1..], k);
    assert forall i :: 0 <= i < |d[1..]| ==> Keys(d[1..])[i] == d[i + 1].0 != k;
  }
  /** `for k, v in pairs: d[k].append(v)` on a `defaultdict(list)`. */
  function AppendAll<K(==), V>(d: Dict<K, seq<V>>, pairs: seq<(K, V)>): Dict<K, seq<V>> {
    if pairs == [] then d
    else Append(AppendAll(d, pairs[..|pairs| - 1]), pairs[|pairs| - 1].0, pairs[|pairs| - 1].1)
  }

  /** The values paired with `k`, in order. */
  function ValuesFor<K(==), V>(pairs: seq<(K, V)>, k: K): seq<V> {
    if pairs == [] then []
    else ValuesFor(pairs[..|pairs| - 1], k) + if pairs[|pairs| - 1].0 == k then [pairs[|pairs| - 1].1] else []
  }

  /** After the appends, each key's list is its old list followed by the values paired with it,
      in the order they came. */
  lemma {:induction false} GetListAppendAll<K, V>(d: Dict<K, seq<V>>, pairs: seq<(K, V)>, k: K)
    ensures GetList(AppendAll(d, pairs), k) == GetList(d, k) + ValuesFor(pairs, k)
  {
    if pairs != [] {
      var init := pairs[..|pairs| - 1];
      var (k', v) := pairs[|pairs| - 1];
      GetListAppendAll(d, init, k);
      AppendGetList(AppendAll(d, init), k', v, k);
    }
  }

  /** A value is paired with `k` exactly when the pair is one of the pairs. */
  lemma {:induction false} ValuesForIn<K, V>(pairs: seq<(K, V)>, k: K, v: V)
    ensures v in ValuesFor(pairs, k) <==> (k, v) in pairs
  {
    if pairs != [] {
      var init := pairs[..|pairs| - 1];
      ValuesForIn(init, k, v);
      assert pairs == init + [pairs[|pairs| - 1]];
    }
  }
}
