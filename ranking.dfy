/**
 * Ranking by priority: Python's `list.sort(key=..., reverse=True)` is a
 * stable sort by descending key. It is specified here by insertion, and
 * proved to give a list that is sorted, a permutation of the input, and
 * stable: for every key value, the elements with that key appear in the
 * order they had in the input.
 */
module Ranking {

  /** Non-increasing by `key`. */
  ghost predicate SortedDesc<T>(s: seq<T>, key: T -> real)
  {
    forall i, j :: 0 <= i < j < |s| ==> key(s[i]) >= key(s[j])
  }

  /** The elements of `s` whose key is `v`, in order. */
  function WithKey<T>(s: seq<T>, key: T -> real, v: real): (r: seq<T>)
    ensures |r| <= |s|
  {
    if s == [] then [] else (if key(s[0]) == v then [s[0]] else []) + WithKey(s[1..], key, v)
  }

  lemma {:induction false} WithKeyAppend<T>(a: seq<T>, b: seq<T>, key: T -> real, v: real)
    ensures WithKey(a + b, key, v) == WithKey(a, key, v) + WithKey(b, key, v)
  {
    if a == [] {
      assert a + b == b;
    } else {
      var head := if key(a[0]) == v then [a[0]] else [];
      assert (a + b)[0] == a[0];
      assert (a + b)[1..] == a[1..] + b;
      WithKeyAppend(a[1..], b, key, v);
      assert WithKey(a + b, key, v) == head + WithKey(a[1..] + b, key, v);
      assert WithKey(a, key, v) == head + WithKey(a[1..], key, v);
    }
  }

  lemma WithKeyCons<T>(y: T, t: seq<T>, key: T -> real, v: real)
    ensures WithKey([y] + t, key, v) == (if key(y) == v then [y] else []) + WithKey(t, key, v)
  {
    assert ([y] + t)[0] == y;
    assert ([y] + t)[1..] == t;
  }

  lemma {:induction false} WithKeyNone<T>(s: seq<T>, key: T -> real, v: real)
    requires forall i :: 0 <= i < |s| ==> key(s[i]) != v
    ensures WithKey(s, key, v) == []
  {
    if s != [] {
      WithKeyNone(s[1..], key, v);
    }
  }

  /** `x` placed after every element whose key is at least its own. */
  function Insert<T>(x: T, s: seq<T>, key: T -> real): seq<T>
  {
    if s == [] then [x]
    else if key(s[0]) >= key(x) then [s[0]] + Insert(x, s[1..], key)
    else [x] + s
  }

  /** Stable descending sort by insertion of each element, last one last. */
  function SortByKeyDesc<T>(s: seq<T>, key: T -> real): seq<T>
  {
    if s == [] then [] else Insert(s[|s| - 1], SortByKeyDesc(s[..|s| - 1], key), key)
  }

  lemma {:induction false} InsertMultiset<T>(x: T, s: seq<T>, key: T -> real)
    ensures multiset(Insert(x, s, key)) == multiset(s) + multiset{x}
  {
    if s != [] && key(s[0]) >= key(x) {
      InsertMultiset(x, s[1..], key);
      assert s == [s[0]] + s[1..];
    }
  }

  lemma {:induction false} InsertSorted<T>(x: T, s: seq<T>, key: T -> real)
    requires SortedDesc(s, key)
    ensures SortedDesc(Insert(x, s, key), key)
  {
    if s != [] && key(s[0]) >= key(x) {
      var rest := Insert(x, s[1..], key);
      InsertSorted(x, s[1..], key);
      InsertMultiset(x, s[1..], key);
      forall e | e in rest ensures key(s[0]) >= key(e) {
        assert e in multiset(rest);
        if e != x {
          assert e in multiset(s[1..]);
          var j :| 0 <= j < |s[1..]| && s[1..][j] == e;
          assert s[j + 1] == e;
        }
      }
    }
  }

  lemma SortedTail<T>(s: seq<T>, key: T -> real)
    requires s != [] && SortedDesc(s, key)
    ensures SortedDesc(s[1..], key)
    ensures forall i :: 0 <= i < |s| ==> key(s[i]) <= key(s[0])
  {
    forall i | 0 <= i < |s| ensures key(s[i]) <= key(s[0]) {
      if i > 0 { assert key(s[0]) >= key(s[i]); }
    }
  }

  /** `x` goes in front of a list whose keys are all below its own. */
  lemma InsertFrontWithKey<T>(x: T, s: seq<T>, key: T -> real, v: real)
    requires forall i :: 0 <= i < |s| ==> key(s[i]) < key(x)
    ensures WithKey([x] + s, key, v) == WithKey(s, key, v) + (if key(x) == v then [x] else [])
  {
    WithKeyCons(x, s, key, v);
    if key(x) == v {
      WithKeyNone(s, key, v);
    }
  }

  /** Putting the same element in front of two lists keeps a relation between their
      key-`v` elements. */
  lemma ConsWithKey<T>(y: T, tail: seq<T>, rest: seq<T>, last: seq<T>, key: T -> real, v: real)
    requires WithKey(rest, key, v) == WithKey(tail, key, v) + last
    ensures WithKey([y] + rest, key, v) == WithKey([y] + tail, key, v) + last
  {
    var head := if key(y) == v then [y] else [];
    WithKeyCons(y, rest, key, v);
    WithKeyCons(y, tail, key, v);
    assert head + (WithKey(tail, key, v) + last) == (head + WithKey(tail, key, v)) + last;
  }

  lemma {:induction false} InsertWithKey<T>(x: T, s: seq<T>, key: T -> real, v: real)
    requires SortedDesc(s, key)
    ensures WithKey(Insert(x, s, key), key, v) == WithKey(s, key, v) + (if key(x) == v then [x] else [])
  {
    if s == [] {
      InsertFrontWithKey(x, s, key, v);
    } else if key(s[0]) >= key(x) {
      SortedTail(s, key);
      InsertWithKey(x, s[1..], key, v);
      ConsWithKey(s[0], s[1..], Insert(x, s[1..], key), if key(x) == v then [x] else [], key, v);
      assert s == [s[0]] + s[1..];
    } else {
      SortedTail(s, key);
      InsertFrontWithKey(x, s, key, v);
    }
  }

  /** The sorted list is ordered by non-increasing key, holds exactly the input's elements,
      and keeps elements with equal keys in their input order. */
  lemma {:induction false} SortByKeyDescCorrect<T>(s: seq<T>, key: T -> real)
    ensures SortedDesc(SortByKeyDesc(s, key), key)
    ensures multiset(SortByKeyDesc(s, key)) == multiset(s)
    ensures |SortByKeyDesc(s, key)| == |s|
    ensures forall v :: WithKey(SortByKeyDesc(s, key), key, v) == WithKey(s, key, v)
  {
    if s != [] {
      var init, last := s[..|s| - 1], s[|s| - 1];
      SortByKeyDescCorrect(init, key);
      InsertSorted(last, SortByKeyDesc(init, key), key);
      InsertMultiset(last, SortByKeyDesc(init, key), key);
      assert s == init + [last];
      forall v ensures WithKey(SortByKeyDesc(s, key), key, v) == WithKey(s, key, v) {
        InsertWithKey(last, SortByKeyDesc(init, key), key, v);
        WithKeyAppend(init, [last], key, v);
      }
      assert |SortByKeyDesc(s, key)| == |multiset(SortByKeyDesc(s, key))| == |multiset(s)| == |s|;
    }
  }
}
