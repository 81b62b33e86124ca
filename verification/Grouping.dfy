/** Sequences whose elements carry a text key: lookup, ordering, and grouping by key. */
module Grouping {
  import opened Text
  import opened Sorting

  ghost predicate Distinct<K, T>(s: seq<T>, key: T -> K) {
    forall i, j | 0 <= i < j < |s| :: key(s[i]) != key(s[j])
  }

  /** Strictly increasing keys: sorted, and without duplicates. */
  ghost predicate Ascending<T>(s: seq<T>, key: T -> string) {
    forall i, j | 0 <= i < j < |s| :: Less(key(s[i]), key(s[j]))
  }

  lemma AscendingIsDistinct<T>(s: seq<T>, key: T -> string)
    requires Ascending(s, key)
    ensures Distinct(s, key)
  {
    TotalOrder();
  }

  /** An ascending sequence is determined by the set of its elements. */
  lemma {:induction false} AscendingUnique<T>(s: seq<T>, t: seq<T>, key: T -> string)
    requires Ascending(s, key) && Ascending(t, key)
    requires forall x :: x in s <==> x in t
    ensures s == t
  {
    if t != [] {
      assert t[0] in s;
    }
    if s != [] {
      assert s[0] in t;
      var m, n := |s| - 1, |t| - 1;
      TotalOrder();
      assert s[m] in t && t[n] in s;
      assert s[m] == t[n];
      forall x
        ensures x in s[..m] <==> x in t[..n]
      {
        assert x in s[..m] <==> x in s && x != s[m];
        assert x in t[..n] <==> x in t && x != t[n];
      }
      AscendingUnique(s[..m], t[..n], key);
      assert s == s[..m] + [s[m]] && t == t[..n] + [t[n]];
    }
  }

  /** The first place whose element has key `k`, or -1. */
  method Find<T>(s: seq<T>, key: T -> string, k: string) returns (index: int)
    ensures -1 <= index < |s|
    ensures index >= 0 ==> key(s[index]) == k && forall j | 0 <= j < index :: key(s[j]) != k
    ensures index < 0 ==> forall j | 0 <= j < |s| :: key(s[j]) != k
  {
    for i := 0 to |s|
      invariant forall j | 0 <= j < i :: key(s[j]) != k
    {
      if key(s[i]) == k {
        return i;
      }
    }
    return -1;
  }

  lemma PermutedKeys<T>(s: seq<T>, t: seq<T>, key: T -> string)
    requires Distinct(s, key) && multiset(s) == multiset(t)
    ensures Distinct(t, key)
  {
    NoRepeats(s);
    NoRepeats(t);
    forall i, j | 0 <= i < j < |t|
      ensures key(t[i]) != key(t[j])
    {
      assert t[i] in multiset(s) && t[j] in multiset(s);
      assert t[i] in s && t[j] in s;
    }
  }

  /** `sort.Slice` by key; the result is unique when no two elements share a key. */
  method SortByKey<T>(s: seq<T>, key: T -> string) returns (r: seq<T>)
    ensures multiset(r) == multiset(s) && |r| == |s|
    ensures Distinct(s, key) ==> Ascending(r, key)
  {
    TotalOrder();
    r := SortSlice(s, (a, b) => Less(key(a), key(b)));
    if Distinct(s, key) {
      PermutedKeys(s, r, key);
    }
  }

  // ---- grouping: adding up the values that share a key

  /** Names three values at which the laws of `Additive` are wanted. */
  ghost predicate At<V>(a: V, b: V, c: V) { true }

  /** Addition is commutative and associative. */
  ghost predicate Additive<V(!new)>(add: (V, V) -> V) {
    forall a, b, c {:trigger At(a, b, c)} :: At(a, b, c) ==>
      add(a, b) == add(b, a) && add(add(a, b), c) == add(a, add(b, c))
  }

  lemma Laws<V(!new)>(add: (V, V) -> V, a: V, b: V, c: V)
    requires Additive(add)
    ensures add(a, b) == add(b, a)
    ensures add(add(a, b), c) == add(a, add(b, c))
  {
    assert At(a, b, c);
  }

  /** Adds `v` to what `m` holds under `k`. */
  function Put<K(==), V>(m: map<K, V>, k: K, v: V, add: (V, V) -> V): map<K, V> {
    m[k := if k in m then add(m[k], v) else v]
  }

  /** Key-wise sum. */
  function Merge<K(==), V>(a: map<K, V>, b: map<K, V>, add: (V, V) -> V): map<K, V> {
    map k | k in a.Keys + b.Keys ::
      if k !in b then a[k] else if k !in a then b[k] else add(a[k], b[k])
  }

  function Group<K(==), T, V>(s: seq<T>, key: T -> K, val: T -> V, add: (V, V) -> V): map<K, V> {
    var n := |s|;
    if n == 0 then map[]
    else Put(Group(s[..n - 1], key, val, add), key(s[n - 1]), val(s[n - 1]), add)
  }

  lemma GroupOne<K, T, V>(s: seq<T>, x: T, key: T -> K, val: T -> V, add: (V, V) -> V)
    ensures Group(s + [x], key, val, add) == Put(Group(s, key, val, add), key(x), val(x), add)
  {
    assert (s + [x])[..|s|] == s;
  }

  /** Grouping a sequence with distinct keys is a plain table. */
  lemma {:induction false} GroupDistinct<K, T, V>(s: seq<T>, key: T -> K, val: T -> V, add: (V, V) -> V)
    requires Distinct(s, key)
    ensures forall i | 0 <= i < |s| :: key(s[i]) in Group(s, key, val, add) && Group(s, key, val, add)[key(s[i])] == val(s[i])
    ensures forall k | k in Group(s, key, val, add) :: exists i :: 0 <= i < |s| && key(s[i]) == k
  {
    if s != [] {
      var init := s[..|s| - 1];
      GroupDistinct(init, key, val, add);
      forall k | k in Group(s, key, val, add)
        ensures exists i :: 0 <= i < |s| && key(s[i]) == k
      {
        if k in Group(init, key, val, add) {
          var i :| 0 <= i < |init| && key(init[i]) == k;
          assert key(s[i]) == k;
        }
      }
      forall i | 0 <= i < |s|
        ensures key(s[i]) in Group(s, key, val, add) && Group(s, key, val, add)[key(s[i])] == val(s[i])
      {
        if i < |init| {
          assert init[i] == s[i];
        }
      }
    }
  }

  lemma PutSwap<K, V(!new)>(m: map<K, V>, k: K, v: V, l: K, w: V, add: (V, V) -> V)
    requires Additive(add)
    ensures Put(Put(m, k, v, add), l, w, add) == Put(Put(m, l, w, add), k, v, add)
  {
    if k == l {
      Laws(add, v, w, v);
      if k in m {
        Laws(add, m[k], v, w);
        Laws(add, m[k], w, v);
      }
    }
  }

  lemma MergePut<K, V(!new)>(a: map<K, V>, b: map<K, V>, k: K, v: V, add: (V, V) -> V)
    requires Additive(add)
    ensures Merge(a, Put(b, k, v, add), add) == Put(Merge(a, b, add), k, v, add)
  {
    if k in a && k in b {
      Laws(add, a[k], b[k], v);
    }
  }

  lemma MergeAdditive<K, V(!new)>(a: map<K, V>, b: map<K, V>, c: map<K, V>, add: (V, V) -> V)
    requires Additive(add)
    ensures Merge(a, b, add) == Merge(b, a, add)
    ensures Merge(Merge(a, b, add), c, add) == Merge(a, Merge(b, c, add), add)
    ensures Merge(a, map[], add) == a == Merge(map[], a, add)
  {
    MergeCommutes(a, b, add);
    var x, y := Merge(Merge(a, b, add), c, add), Merge(a, Merge(b, c, add), add);
    forall k | k in x
      ensures x[k] == y[k]
    {
      if k in a && k in b && k in c {
        Laws(add, a[k], b[k], c[k]);
      }
    }
    assert x.Keys == y.Keys;
  }

  lemma MergeCommutes<K, V(!new)>(a: map<K, V>, b: map<K, V>, add: (V, V) -> V)
    requires Additive(add)
    ensures Merge(a, b, add) == Merge(b, a, add)
  {
    forall k | k in a && k in b
      ensures add(a[k], b[k]) == add(b[k], a[k])
    {
      Laws(add, a[k], b[k], b[k]);
    }
  }

  lemma {:induction false} GroupAppend<K, T, V(!new)>(s: seq<T>, t: seq<T>, key: T -> K, val: T -> V, add: (V, V) -> V)
    requires Additive(add)
    ensures Group(s + t, key, val, add) == Merge(Group(s, key, val, add), Group(t, key, val, add), add)
  {
    if t == [] {
      assert s + t == s;
      MergeAdditive(Group(s, key, val, add), map[], map[], add);
    } else {
      var init, x := t[..|t| - 1], t[|t| - 1];
      assert s + t == (s + init) + [x];
      GroupAppend(s, init, key, val, add);
      GroupOne(s + init, x, key, val, add);
      MergePut(Group(s, key, val, add), Group(init, key, val, add), key(x), val(x), add);
    }
  }

  /** Taking one element out and putting it last does not change the groups. */
  lemma {:induction false} GroupExtract<K, T, V(!new)>(s: seq<T>, i: nat, key: T -> K, val: T -> V, add: (V, V) -> V)
    requires i < |s| && Additive(add)
    ensures Group(s, key, val, add) == Put(Group(s[..i] + s[i + 1..], key, val, add), key(s[i]), val(s[i]), add)
  {
    var n := |s| - 1;
    var x := s[n];
    if i == n {
      assert s[..i] + s[i + 1..] == s[..n];
    } else {
      var init := s[..n];
      GroupExtract(init, i, key, val, add);
      var rest := init[..i] + init[i + 1..];
      assert s[..i] + s[i + 1..] == rest + [x];
      GroupOne(rest, x, key, val, add);
      PutSwap(Group(rest, key, val, add), key(s[i]), val(s[i]), key(x), val(x), add);
    }
  }

  /** The last element of `s` can be taken out of any rearrangement `t`. */
  lemma Without<T>(s: seq<T>, t: seq<T>) returns (i: nat)
    requires s != [] && multiset(s) == multiset(t)
    ensures i < |t| && t[i] == s[|s| - 1]
    ensures multiset(t[..i] + t[i + 1..]) == multiset(s[..|s| - 1])
  {
    WithoutLast(s);
    var x := s[|s| - 1];
    assert x in multiset(t);
    i :| i < |t| && t[i] == x;
    Removed(t, i);
  }

  lemma Removed<T>(t: seq<T>, i: nat)
    requires i < |t|
    ensures multiset(t[..i] + t[i + 1..]) == multiset(t) - multiset{t[i]}
  {
    assert t == (t[..i] + [t[i]]) + t[i + 1..];
  }

  /** The groups do not depend on the order of the sequence. */
  lemma {:induction false} GroupPermuted<K, T, V(!new)>(s: seq<T>, t: seq<T>, key: T -> K, val: T -> V, add: (V, V) -> V)
    requires multiset(s) == multiset(t) && Additive(add)
    ensures Group(s, key, val, add) == Group(t, key, val, add)
    decreases |s|
  {
    if s == [] {
      assert |multiset(t)| == 0;
    } else {
      var n := |s| - 1;
      var x := s[n];
      var i := Without(s, t);
      GroupExtract(t, i, key, val, add);
      GroupPermuted(s[..n], t[..i] + t[i + 1..], key, val, add);
    }
  }

  lemma PutTwice<K, V(!new)>(m: map<K, V>, k: K, v: V, w: V, add: (V, V) -> V)
    requires Additive(add)
    ensures Put(Put(m, k, v, add), k, w, add) == Put(m, k, add(v, w), add)
  {
    if k in m {
      Laws(add, m[k], v, w);
    }
  }

  /** Changing the value of one element in place adds to its group. */
  lemma GroupUpdate<K, T, V(!new)>(s: seq<T>, i: nat, x: T, v: V, key: T -> K, val: T -> V, add: (V, V) -> V)
    requires i < |s| && Additive(add)
    requires key(x) == key(s[i]) && val(x) == add(val(s[i]), v)
    ensures Group(s[i := x], key, val, add) == Put(Group(s, key, val, add), key(x), v, add)
  {
    var rest := s[..i] + s[i + 1..];
    var t := s[i := x];
    assert t[..i] + t[i + 1..] == rest;
    GroupExtract(s, i, key, val, add);
    GroupExtract(t, i, key, val, add);
    PutTwice(Group(rest, key, val, add), key(x), val(s[i]), v, add);
  }

  /** Find an element by key and add `v` to it, or append an element worth `v`: either way its group grows by `v`. */
  lemma Upsert<K, T, V(!new)>(s: seq<T>, index: int, x: T, v: V, r: seq<T>, key: T -> K, val: T -> V, add: (V, V) -> V)
    requires Additive(add) && -1 <= index < |s|
    requires index >= 0 ==> key(x) == key(s[index]) && val(x) == add(val(s[index]), v) && r == s[index := x]
    requires index < 0 ==> val(x) == v && r == s + [x] && forall j | 0 <= j < |s| :: key(s[j]) != key(x)
    ensures Group(r, key, val, add) == Put(Group(s, key, val, add), key(x), v, add)
    ensures Distinct(s, key) ==> Distinct(r, key)
    ensures forall y | y in r :: y == x || y in s
  {
    if index < 0 {
      GroupOne(s, x, key, val, add);
    } else {
      GroupUpdate(s, index, x, v, key, val, add);
    }
  }

  /** Ascending sequences with the same table are the same sequence. */
  lemma CanonicalUnique<T, V>(s: seq<T>, t: seq<T>, key: T -> string, val: T -> V, add: (V, V) -> V)
    requires Ascending(s, key) && Ascending(t, key)
    requires forall x, y | x in s && y in t && key(x) == key(y) && val(x) == val(y) :: x == y
    requires Group(s, key, val, add) == Group(t, key, val, add)
    ensures s == t
  {
    AscendingIsDistinct(s, key);
    AscendingIsDistinct(t, key);
    GroupDistinct(s, key, val, add);
    GroupDistinct(t, key, val, add);
    var g := Group(s, key, val, add);
    forall x | x in s
      ensures x in t
    {
      var i :| 0 <= i < |s| && s[i] == x;
      assert key(s[i]) in g;
      var j :| 0 <= j < |t| && key(t[j]) == key(x);
      assert val(t[j]) == g[key(x)] == val(x);
    }
    forall x | x in t
      ensures x in s
    {
      var i :| 0 <= i < |t| && t[i] == x;
      assert key(t[i]) in g;
      var j :| 0 <= j < |s| && key(s[j]) == key(x);
      assert val(s[j]) == g[key(x)] == val(x);
    }
    AscendingUnique(s, t, key);
  }

  lemma SameElements<T>(s: seq<T>, t: seq<T>)
    requires multiset(s) == multiset(t)
    ensures forall x :: x in s <==> x in t
  {
    forall x
      ensures x in s <==> x in t
    {
      assert x in s <==> x in multiset(s);
      assert x in t <==> x in multiset(t);
    }
  }
}
