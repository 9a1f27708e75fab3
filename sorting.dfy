/** Python's `sorted(xs, key=f)` and `list.sort(key=f)`: a stable sort by a key, modelled as
    insertion sort (for a stable sort the result is determined by the input). */
module Sorting {

  /** `le` is total and transitive, as `<=` on Python strings and ints is. */
  ghost predicate TotalPreorder<K(!new)>(le: (K, K) -> bool) {
    && (forall a, b :: le(a, b) || le(b, a))
    && (forall a, b, c :: le(a, b) && le(b, c) ==> le(a, c))
  }

  /** Adjacent elements are in key order. */
  ghost predicate SortedBy<T, K>(s: seq<T>, key: T -> K, le: (K, K) -> bool) {
    forall i :: 0 < i < |s| ==> le(key(s[i - 1]), key(s[i]))
  }

  /** Places x before the first element whose key is not below x's, so that x (which came
      earlier in the input) stays ahead of elements with an equal key. */
  function Insert<T, K>(x: T, s: seq<T>, key: T -> K, le: (K, K) -> bool): (r: seq<T>)
    ensures multiset(r) == multiset(s) + multiset{x}
    ensures |r| == |s| + 1
  {
    if s == [] || le(key(x), key(s[0])) then [x] + s
    else
      assert s == [s[0]] + s[1..];
      [s[0]] + Insert(x, s[1..], key, le)
  }

  function SortBy<T, K>(s: seq<T>, key: T -> K, le: (K, K) -> bool): (r: seq<T>)
    ensures multiset(r) == multiset(s)
    ensures |r| == |s|
  {
    if s == [] then []
    else
      assert s == [s[0]] + s[1..];
      Insert(s[0], SortBy(s[1..], key, le), key, le)
  }

  lemma {:induction false} InsertSorted<T, K(!new)>(x: T, s: seq<T>, key: T -> K, le: (K, K) -> bool)
    requires TotalPreorder(le)
    requires SortedBy(s, key, le)
    ensures SortedBy(Insert(x, s, key, le), key, le)
    ensures |s| > 0 ==> Insert(x, s, key, le)[0] == x || Insert(x, s, key, le)[0] == s[0]
  {
    if s != [] && !le(key(x), key(s[0])) {
      assert le(key(s[0]), key(x));
      InsertSorted(x, s[1..], key, le);
      var r := Insert(x, s, key, le);
      var t := Insert(x, s[1..], key, le);
      assert r == [s[0]] + t;
      forall i | 0 < i < |r| ensures le(key(r[i - 1]), key(r[i])) {
        if i == 1 {
          if |s| > 1 && t[0] == s[1] {
            assert le(key(s[0]), key(s[1]));
          }
        }
      }
    }
  }

  /** `sorted(xs, key=f)` is in key order. */
  lemma {:induction false} SortBySorted<T, K(!new)>(s: seq<T>, key: T -> K, le: (K, K) -> bool)
    requires TotalPreorder(le)
    ensures SortedBy(SortBy(s, key, le), key, le)
  {
    if s != [] {
      SortBySorted(s[1..], key, le);
      InsertSorted(s[0], SortBy(s[1..], key, le), key, le);
    }
  }

  /** In a list sorted by a total preorder every earlier key is at most every later one. */
  lemma {:induction false} SortedPairwise<T, K(!new)>(s: seq<T>, key: T -> K, le: (K, K) -> bool, i: int, j: int)
    requires TotalPreorder(le) && SortedBy(s, key, le)
    requires 0 <= i <= j < |s|
    ensures le(key(s[i]), key(s[j]))
    decreases j - i
  {
    if i < j {
      SortedPairwise(s, key, le, i, j - 1);
      assert le(key(s[j - 1]), key(s[j]));
    }
  }

  /** The keys of `s`, in order. */
  function KeysOf<T, K>(s: seq<T>, key: T -> K): (r: seq<K>)
    ensures |r| == |s|
  {
    if s == [] then [] else [key(s[0])] + KeysOf(s[1..], key)
  }

  lemma {:induction false} KeysOfAt<T, K>(s: seq<T>, key: T -> K, i: int)
    requires 0 <= i < |s|
    ensures KeysOf(s, key)[i] == key(s[i])
  {
    if i > 0 {
      KeysOfAt(s[1..], key, i - 1);
    }
  }

  lemma {:induction false} KeysOfConcat<T, K>(a: seq<T>, b: seq<T>, key: T -> K)
    ensures KeysOf(a + b, key) == KeysOf(a, key) + KeysOf(b, key)
  {
    if a == [] {
      assert a + b == b;
    } else {
      assert (a + b)[0] == a[0] && (a + b)[1..] == a[1..] + b;
      KeysOfConcat(a[1..], b, key);
      assert [key(a[0])] + (KeysOf(a[1..], key) + KeysOf(b, key))
          == [key(a[0])] + KeysOf(a[1..], key) + KeysOf(b, key);
    }
  }

  /** Taking one element out of the middle of a list takes it out of the list's multiset. */
  lemma TakeOut<T>(front: seq<T>, x: T, back: seq<T>)
    ensures multiset(front + ([x] + back)) == multiset(front + back) + multiset{x}
  {
    calc {
      multiset(front + ([x] + back));
      multiset(front) + multiset([x] + back);
      multiset(front) + (multiset([x]) + multiset(back));
      multiset(front) + multiset(back) + multiset{x};
      multiset(front + back) + multiset{x};
    }
  }

  lemma RemoveAt<T>(r: seq<T>, j: int)
    requires 0 <= j < |r|
    ensures multiset(r) == multiset(r[..j] + r[j + 1..]) + multiset{r[j]}
  {
    assert r == r[..j] + ([r[j]] + r[j + 1..]);
    TakeOut(r[..j], r[j], r[j + 1..]);
  }

  lemma PermRemove<T>(r: seq<T>, s: seq<T>, j: int)
    requires multiset(r) == multiset(s) && s != [] && 0 <= j < |r| && r[j] == s[0]
    ensures multiset(r[..j] + r[j + 1..]) == multiset(s[1..])
  {
    RemoveAt(r, j);
    RemoveAt(s, 0);
    assert s[1..] == s[..0] + s[0 + 1..];
    forall y ensures multiset(r[..j] + r[j + 1..])[y] == multiset(s[1..])[y] {
      assert multiset(r)[y] == multiset(s)[y];
    }
  }

  lemma KeysRemove<T, K>(front: seq<T>, x: T, back: seq<T>, key: T -> K)
    ensures multiset(KeysOf(front + ([x] + back), key))
         == multiset(KeysOf(front + back, key)) + multiset{key(x)}
  {
    KeysOfConcat(front, [x] + back, key);
    KeysOfConcat(front, back, key);
    assert ([x] + back)[0] == x && ([x] + back)[1..] == back;
    TakeOut(KeysOf(front, key), key(x), KeysOf(back, key));
  }

  /** A permutation of a list permutes its keys. */
  lemma {:induction false} PermutedKeys<T, K>(r: seq<T>, s: seq<T>, key: T -> K)
    requires multiset(r) == multiset(s)
    ensures multiset(KeysOf(r, key)) == multiset(KeysOf(s, key))
    decreases |s|
  {
    if s == [] {
      assert |r| == |multiset(r)| == 0;
    } else {
      assert s[0] in multiset(r);
      var j :| 0 <= j < |r| && r[j] == s[0];
      PermRemove(r, s, j);
      PermutedKeys(r[..j] + r[j + 1..], s[1..], key);
      assert r == r[..j] + ([r[j]] + r[j + 1..]);
      KeysRemove(r[..j], r[j], r[j + 1..], key);
      assert KeysOf(s, key) == [key(s[0])] + KeysOf(s[1..], key);
    }
  }

  function Id<K>(x: K): K { x }

  lemma KeysSorted<T, K>(p: seq<T>, key: T -> K, le: (K, K) -> bool)
    requires SortedBy(p, key, le)
    ensures SortedBy(KeysOf(p, key), Id, le)
  {
    forall i | 0 < i < |p| ensures le(Id(KeysOf(p, key)[i - 1]), Id(KeysOf(p, key)[i])) {
      KeysOfAt(p, key, i - 1);
      KeysOfAt(p, key, i);
    }
  }

  /** Sorted lists holding the same keys start with the same key. */
  lemma SortedHeads<K(!new)>(p: seq<K>, q: seq<K>, le: (K, K) -> bool)
    requires TotalPreorder(le) && SortedBy(p, Id, le) && SortedBy(q, Id, le)
    requires multiset(p) == multiset(q) && p != [] && q != []
    requires forall x, y :: x in p && y in q && le(x, y) && le(y, x) ==> x == y
    ensures p[0] == q[0]
  {
    assert p[0] in multiset(q);
    var j :| 0 <= j < |q| && q[j] == p[0];
    SortedPairwise(q, Id, le, 0, j);
    assert q[0] in multiset(p);
    var i :| 0 <= i < |p| && p[i] == q[0];
    SortedPairwise(p, Id, le, 0, i);
    assert Id(q[0]) == q[0] && Id(q[j]) == p[0] && Id(p[0]) == p[0] && Id(p[i]) == q[0];
    assert p[0] in p && q[0] in q;
  }

  lemma SortedTail<K>(p: seq<K>, le: (K, K) -> bool)
    requires SortedBy(p, Id, le) && p != []
    ensures SortedBy(p[1..], Id, le)
  {
    forall i | 0 < i < |p[1..]| ensures le(Id(p[1..][i - 1]), Id(p[1..][i])) {
      assert p[1..][i - 1] == p[i] && p[1..][i] == p[i + 1];
    }
  }

  lemma SeparatedTail<K>(p: seq<K>, q: seq<K>, le: (K, K) -> bool)
    requires p != [] && q != []
    requires forall x, y :: x in p && y in q && le(x, y) && le(y, x) ==> x == y
    ensures forall x, y :: x in p[1..] && y in q[1..] && le(x, y) && le(y, x) ==> x == y
  {
    forall x, y | x in p[1..] && y in q[1..] && le(x, y) && le(y, x) ensures x == y {
      assert x in p && y in q;
    }
  }

  /** Two lists of keys in the same total preorder that are the same multiset are the same list,
      when the order tells their keys apart. */
  lemma {:induction false} SortedUnique<K(!new)>(p: seq<K>, q: seq<K>, le: (K, K) -> bool)
    requires TotalPreorder(le) && SortedBy(p, Id, le) && SortedBy(q, Id, le)
    requires multiset(p) == multiset(q)
    requires forall x, y :: x in p && y in q && le(x, y) && le(y, x) ==> x == y
    ensures p == q
    decreases |p|
  {
    if p == [] {
      assert |q| == |multiset(q)| == 0;
    } else {
      assert |q| == |multiset(q)| == |multiset(p)| == |p|;
      SortedHeads(p, q, le);
      PermRemove(p, q, 0);
      assert p[..0] + p[1..] == p[1..];
      SortedTail(p, le);
      SortedTail(q, le);
      SeparatedTail(p, q, le);
      SortedUnique(p[1..], q[1..], le);
      forall i | 0 < i < |p| ensures p[i] == q[i] {
        assert p[i] == p[1..][i - 1] && q[i] == q[1..][i - 1];
      }
    }
  }

  /** Two lists sorted by the same total preorder whose keys are the same multiset have the same
      keys in the same order, when the order tells their keys apart. */
  lemma SortedKeysUnique<T, K(!new)>(p: seq<T>, q: seq<T>, key: T -> K, le: (K, K) -> bool)
    requires TotalPreorder(le) && SortedBy(p, key, le) && SortedBy(q, key, le)
    requires multiset(KeysOf(p, key)) == multiset(KeysOf(q, key))
    requires forall x, y :: x in KeysOf(p, key) && y in KeysOf(q, key) && le(x, y) && le(y, x) ==> x == y
    ensures KeysOf(p, key) == KeysOf(q, key)
  {
    KeysSorted(p, key, le);
    KeysSorted(q, key, le);
    SortedUnique(KeysOf(p, key), KeysOf(q, key), le);
  }

  // Stability.

  /** The elements of `s` whose key is equivalent to `k` under `le`, in their order in `s`. */
  function Matching<T, K>(s: seq<T>, key: T -> K, le: (K, K) -> bool, k: K): (r: seq<T>)
    ensures |r| <= |s|
  {
    if s == [] then []
    else (if le(key(s[0]), k) && le(k, key(s[0])) then [s[0]] else []) + Matching(s[1..], key, le, k)
  }

  /** Inserting `x` puts it ahead of every element with an equivalent key. */
  lemma {:induction false} InsertMatching<T, K(!new)>(x: T, s: seq<T>, key: T -> K, le: (K, K) -> bool, k: K)
    requires TotalPreorder(le)
    ensures Matching(Insert(x, s, key, le), key, le, k) ==
      (if le(key(x), k) && le(k, key(x)) then [x] else []) + Matching(s, key, le, k)
  {
    var r := Insert(x, s, key, le);
    if s == [] || le(key(x), key(s[0])) {
      assert r[1..] == s;
    } else {
      InsertMatching(x, s[1..], key, le, k);
      assert r[1..] == Insert(x, s[1..], key, le);
      if le(key(x), k) && le(k, key(x)) {
        // s[0] is strictly below x's key, so it is not equivalent to k.
        assert !(le(k, key(s[0])));
      }
    }
  }

  /** `sorted` is stable: the elements with keys equivalent to any `k` keep their input order. */
  lemma {:induction false} SortByStable<T, K(!new)>(s: seq<T>, key: T -> K, le: (K, K) -> bool, k: K)
    requires TotalPreorder(le)
    ensures Matching(SortBy(s, key, le), key, le, k) == Matching(s, key, le, k)
  {
    if s != [] {
      SortByStable(s[1..], key, le, k);
      InsertMatching(s[0], SortBy(s[1..], key, le), key, le, k);
    }
  }
}
