/** Sorting a sequence by a "comes before" test, as the sort package of Go does. */
module Sorting {

  /** `before` is a strict weak order on the elements of `s`. */
  ghost predicate WeakOrder<T>(s: seq<T>, before: (T, T) -> bool) {
    && (forall a, b | a in s && b in s :: !(before(a, b) && before(b, a)))
    && (forall a, b, c | a in s && b in s && c in s ::
          !before(a, b) && !before(b, c) ==> !before(a, c))
  }

  ghost predicate Sorted<T>(s: seq<T>, before: (T, T) -> bool) {
    forall i, j | 0 <= i < j < |s| :: !before(s[j], s[i])
  }

  /** Distinct elements of `s` are told apart by `before`. */
  ghost predicate Telling<T>(s: seq<T>, before: (T, T) -> bool) {
    forall a, b | a in s && b in s && a != b :: before(a, b) || before(b, a)
  }

  function Insert<T>(s: seq<T>, x: T, before: (T, T) -> bool): seq<T> {
    var n := |s|;
    if n == 0 || !before(x, s[n - 1]) then s + [x]
    else Insert(s[..n - 1], x, before) + [s[n - 1]]
  }

  /** The stable sort: equal elements keep the order they came in. */
  function StableSort<T>(s: seq<T>, before: (T, T) -> bool): seq<T> {
    var n := |s|;
    if n == 0 then [] else Insert(StableSort(s[..n - 1], before), s[n - 1], before)
  }

  lemma {:induction false} InsertKeeps<T>(s: seq<T>, x: T, before: (T, T) -> bool)
    ensures multiset(Insert(s, x, before)) == multiset(s) + multiset{x}
  {
    var n := |s|;
    if n != 0 && before(x, s[n - 1]) {
      InsertKeeps(s[..n - 1], x, before);
      assert s == s[..n - 1] + [s[n - 1]];
    }
  }

  lemma InsertMember<T>(s: seq<T>, x: T, before: (T, T) -> bool, i: nat)
    requires i < |Insert(s, x, before)|
    ensures Insert(s, x, before)[i] in s || Insert(s, x, before)[i] == x
  {
    InsertKeeps(s, x, before);
    assert Insert(s, x, before)[i] in multiset(Insert(s, x, before));
  }

  lemma {:induction false} InsertSorts<T>(s: seq<T>, x: T, before: (T, T) -> bool)
    requires WeakOrder(s + [x], before) && Sorted(s, before)
    ensures Sorted(Insert(s, x, before), before)
  {
    if s != [] {
      var init, last := s[..|s| - 1], s[|s| - 1];
      assert x in s + [x] && last in s + [x];
      if before(x, last) {
        assert forall y | y in init + [x] :: y in s + [x];
        assert forall k | 0 <= k < |init| :: !before(last, init[k]) by {
          assert forall k | 0 <= k < |init| :: init[k] == s[k];
        }
        InsertSorts(init, x, before);
        var r := Insert(init, x, before);
        forall i | 0 <= i < |r|
          ensures !before(last, r[i])
        {
          InsertMember(init, x, before, i);
        }
      } else {
        forall y | y in s
          ensures !before(x, y)
        {
          assert y in s + [x];
          assert y == last || !before(last, y);
        }
      }
    }
  }

  lemma {:induction false} StableSortKeeps<T>(s: seq<T>, before: (T, T) -> bool)
    ensures multiset(StableSort(s, before)) == multiset(s)
  {
    var n := |s|;
    if n != 0 {
      StableSortKeeps(s[..n - 1], before);
      InsertKeeps(StableSort(s[..n - 1], before), s[n - 1], before);
      assert s == s[..n - 1] + [s[n - 1]];
    }
  }

  lemma {:induction false} StableSortSorts<T>(s: seq<T>, before: (T, T) -> bool)
    requires WeakOrder(s, before)
    ensures Sorted(StableSort(s, before), before)
  {
    var n := |s|;
    if n != 0 {
      var init := s[..n - 1];
      StableSortSorts(init, before);
      StableSortKeeps(init, before);
      var r := StableSort(init, before);
      forall y | y in r + [s[n - 1]]
        ensures y in s
      {
        assert y in multiset(r) || y == s[n - 1];
        assert y in multiset(init) || y == s[n - 1];
      }
      InsertSorts(r, s[n - 1], before);
    }
  }

  /** Two sorted arrangements of the same elements are equal when distinct elements never tie. */
  lemma {:induction false} SortedUnique<T>(s: seq<T>, t: seq<T>, before: (T, T) -> bool)
    requires multiset(s) == multiset(t)
    requires WeakOrder(s, before) && Telling(s, before)
    requires Sorted(s, before) && Sorted(t, before)
    ensures s == t
  {
    assert |multiset(s)| == |s| && |multiset(t)| == |t|;
    if s != [] {
      var n := |s| - 1;
      SameLast(s, t, before);
      WithoutLast(s);
      WithoutLast(t);
      Prefix(s, n, before);
      SortedUnique(s[..n], t[..n], before);
    }
  }

  lemma WithoutLast<T>(s: seq<T>)
    requires s != []
    ensures multiset(s[..|s| - 1]) == multiset(s) - multiset{s[|s| - 1]}
    ensures s == s[..|s| - 1] + [s[|s| - 1]]
  {
    assert s == s[..|s| - 1] + [s[|s| - 1]];
  }

  lemma Prefix<T>(s: seq<T>, n: nat, before: (T, T) -> bool)
    requires n <= |s| && WeakOrder(s, before) && Telling(s, before)
    ensures WeakOrder(s[..n], before) && Telling(s[..n], before)
  {
    assert forall x | x in s[..n] :: x in s;
  }

  lemma SameLast<T>(s: seq<T>, t: seq<T>, before: (T, T) -> bool)
    requires s != [] && |s| == |t| && multiset(s) == multiset(t)
    requires WeakOrder(s, before) && Telling(s, before)
    requires Sorted(s, before) && Sorted(t, before)
    ensures s[|s| - 1] == t[|t| - 1]
  {
    var a, b := s[|s| - 1], t[|t| - 1];
    assert a in multiset(t) && b in multiset(s);
    assert a in t && b in s;
    assert a != b ==> !before(a, b) && !before(b, a);
  }

  lemma {:induction false} NoRepeats<T>(s: seq<T>)
    ensures (forall i, j | 0 <= i < j < |s| :: s[i] != s[j]) <==> (forall x :: multiset(s)[x] <= 1)
  {
    if s != [] {
      var n := |s| - 1;
      NoRepeats(s[..n]);
      assert s == s[..n] + [s[n]];
      assert multiset(s) == multiset(s[..n]) + multiset{s[n]};
      if forall x :: multiset(s)[x] <= 1 {
        assert multiset(s)[s[n]] <= 1;
        assert s[n] !in multiset(s[..n]);
        forall i, j | 0 <= i < j < |s|
          ensures s[i] != s[j]
        {
          assert forall x :: multiset(s[..n])[x] <= multiset(s)[x];
          assert s[i] == s[..n][i];
        }
      }
      if forall i, j | 0 <= i < j < |s| :: s[i] != s[j] {
        assert forall i | 0 <= i < n :: s[..n][i] != s[n];
      }
    }
  }

  /** `sort.Slice`: a sorted arrangement of the same elements, in no promised order among equals. */
  method SortSlice<T>(s: seq<T>, before: (T, T) -> bool) returns (r: seq<T>)
    requires WeakOrder(s, before)
    ensures multiset(r) == multiset(s)
    ensures |r| == |s|
    ensures Sorted(r, before)
  {
    StableSortKeeps(s, before);
    StableSortSorts(s, before);
    r := StableSort(s, before);
    assert |multiset(r)| == |r| && |multiset(s)| == |s|;
  }
}
