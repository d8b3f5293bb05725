/** Stable sorting by a numeric key, as JavaScript's `Array.prototype.sort` does it. */
module StableSort {
  function Insert<T>(x: T, s: seq<T>, key: T -> real): (t: seq<T>)
    ensures multiset(t) == multiset(s) + multiset{x}
  {
    if s == [] then [x]
    else
      assert [s[0]] + s[1..] == s;
      if key(x) < key(s[0]) then [x] + s else [s[0]] + Insert(x, s[1..], key)
  }

  function SortBy<T>(s: seq<T>, key: T -> real): (t: seq<T>)
    ensures multiset(t) == multiset(s)
  {
    if s == [] then [] else
      assert s[..|s| - 1] + [s[|s| - 1]] == s;
      Insert(s[|s| - 1], SortBy(s[..|s| - 1], key), key)
  }

  ghost predicate InOrder<T>(s: seq<T>, key: T -> real) {
    forall i, j :: 0 <= i < j < |s| ==> key(s[i]) <= key(s[j])
  }

  lemma {:induction false} InsertKeepsOrder<T>(x: T, s: seq<T>, key: T -> real)
    requires InOrder(s, key)
    ensures InOrder(Insert(x, s, key), key)
  {
    if s != [] && key(x) >= key(s[0]) {
      InsertKeepsOrder(x, s[1..], key);
      var t := Insert(x, s[1..], key);
      forall y | y in t ensures key(s[0]) <= key(y) {
        assert y in multiset(t);
        if y != x {
          assert y in multiset(s[1..]);
          var k :| 0 <= k < |s[1..]| && s[1..][k] == y;
          assert s[1..][k] == s[k + 1];
        }
      }
    }
  }

  /** Sorting neither loses nor invents elements. */
  lemma SortKeepsElements<T>(s: seq<T>, key: T -> real, x: T)
    ensures x in s <==> x in SortBy(s, key)
  {
    assert x in s <==> x in multiset(s);
    assert x in SortBy(s, key) <==> x in multiset(SortBy(s, key));
  }

  // --- stability ---------------------------------------------------------------------------------

  /** The elements of one key, in order. */
  ghost function At<T>(s: seq<T>, key: T -> real, k: real): seq<T> {
    if s == [] then [] else
      At(s[..|s| - 1], key, k) + if key(s[|s| - 1]) == k then [s[|s| - 1]] else []
  }

  lemma {:induction false} AtConcat<T>(a: seq<T>, b: seq<T>, key: T -> real, k: real)
    ensures At(a + b, key, k) == At(a, key, k) + At(b, key, k)
  {
    if b == [] {
      assert a + b == a;
    } else {
      assert (a + b)[..|a + b| - 1] == a + b[..|b| - 1];
      AtConcat(a, b[..|b| - 1], key, k);
    }
  }

  lemma AtOne<T>(x: T, key: T -> real, k: real)
    ensures At([x], key, k) == if key(x) == k then [x] else []
  {
    assert [x][..0] == [];
  }

  lemma {:induction false} NoneAbove<T>(s: seq<T>, key: T -> real, k: real)
    requires forall i :: 0 <= i < |s| ==> key(s[i]) > k
    ensures At(s, key, k) == []
  {
    if s != [] { NoneAbove(s[..|s| - 1], key, k); }
  }

  lemma InsertInFront<T>(x: T, s: seq<T>, key: T -> real, k: real)
    requires InOrder(s, key) && (s != [] ==> key(x) < key(s[0]))
    ensures At([x] + s, key, k) == At(s, key, k) + At([x], key, k)
  {
    AtConcat([x], s, key, k);
    AtOne(x, key, k);
    if key(x) == k { NoneAbove(s, key, k); }
  }

  lemma InsertSkips<T>(x: T, s: seq<T>, key: T -> real)
    requires s != [] && key(x) >= key(s[0])
    ensures Insert(x, s, key) == [s[0]] + Insert(x, s[1..], key)
  {
  }

  lemma ConcatAssociates<T>(a: seq<T>, b: seq<T>, c: seq<T>)
    ensures a + (b + c) == (a + b) + c
  {
  }

  lemma InsertBehind<T>(x: T, s: seq<T>, key: T -> real, k: real)
    requires s != [] && key(x) >= key(s[0])
    requires At(Insert(x, s[1..], key), key, k) == At(s[1..], key, k) + At([x], key, k)
    ensures At(Insert(x, s, key), key, k) == At(s, key, k) + At([x], key, k)
  {
    hide At, Insert;
    var rest, first := s[1..], [s[0]];
    InsertSkips(x, s, key);
    AtConcat(first, rest, key, k);
    AtConcat(first, Insert(x, rest, key), key, k);
    assert s == first + rest;
    ConcatAssociates(At(first, key, k), At(rest, key, k), At([x], key, k));
  }

  lemma {:induction false} InsertIsStable<T>(x: T, s: seq<T>, key: T -> real, k: real)
    requires InOrder(s, key)
    ensures At(Insert(x, s, key), key, k) == At(s, key, k) + At([x], key, k)
  {
    hide At;
    if s == [] || key(x) < key(s[0]) {
      InsertInFront(x, s, key, k);
      assert s == [] ==> [x] + s == [x];
    } else {
      InsertIsStable(x, s[1..], key, k);
      InsertBehind(x, s, key, k);
    }
  }

  /** The sort orders by key, keeps every element, and keeps elements of equal key in their order. */
  lemma {:induction false} SortIsStable<T>(s: seq<T>, key: T -> real, k: real)
    ensures InOrder(SortBy(s, key), key) && multiset(SortBy(s, key)) == multiset(s)
    ensures At(SortBy(s, key), key, k) == At(s, key, k)
  {
    if s != [] {
      var n := |s| - 1;
      SortIsStable(s[..n], key, k);
      InsertKeepsOrder(s[n], SortBy(s[..n], key), key);
      InsertIsStable(s[n], SortBy(s[..n], key), key, k);
      AtOne(s[n], key, k);
    }
  }
}
