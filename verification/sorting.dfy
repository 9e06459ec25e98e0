/** `Array.prototype.sort` with a numeric comparator. The sort is stable (as
    ECMAScript 2019 requires), so it is modelled as a stable insertion sort
    that orders by a real-valued key, ascending. A descending comparator
    `(a, b) => b.f - a.f` is an ascending sort on the key `-f`. */
module Sorting {

  predicate SortedBy<T>(s: seq<T>, key: T -> real) {
    forall i, j :: 0 <= i < j < |s| ==> key(s[i]) <= key(s[j])
  }

  /** The elements of `s` whose key is `v`, in order. Stability means that
      sorting leaves every such class in its original order. */
  function KeyClass<T>(s: seq<T>, key: T -> real, v: real): seq<T> {
    if |s| == 0 then [] else (if key(s[0]) == v then [s[0]] else []) + KeyClass(s[1..], key, v)
  }

  lemma {:induction false} KeyClassAppend<T>(a: seq<T>, b: seq<T>, key: T -> real, v: real)
    ensures KeyClass(a + b, key, v) == KeyClass(a, key, v) + KeyClass(b, key, v)
  {
    if |a| > 0 {
      assert (a + b)[1..] == a[1..] + b;
      KeyClassAppend(a[1..], b, key, v);
    } else {
      assert a + b == b;
    }
  }

  /** Place `x` after every element of `s` whose key is not greater than its
      own (so after the elements with an equal key). */
  function Insert<T>(s: seq<T>, x: T, key: T -> real): (r: seq<T>)
    ensures |r| == |s| + 1
    ensures multiset(r) == multiset(s) + multiset{x}
  {
    if |s| == 0 then [x]
    else if key(x) < key(s[|s| - 1]) then
      assert s == s[..|s| - 1] + [s[|s| - 1]];
      Insert(s[..|s| - 1], x, key) + [s[|s| - 1]]
    else
      s + [x]
  }

  lemma {:induction false} InsertSorted<T>(s: seq<T>, x: T, key: T -> real)
    requires SortedBy(s, key)
    ensures SortedBy(Insert(s, x, key), key)
  {
    if |s| > 0 {
      var last := s[|s| - 1];
      var init := s[..|s| - 1];
      if key(x) < key(last) {
        assert SortedBy(init, key);
        InsertSorted(init, x, key);
        var m := Insert(init, x, key);
        InsertBelow(init, x, key, key(last));
        assert Insert(s, x, key) == m + [last];
        SortedSnoc(m, last, key);
      }
    }
  }

  /** Inserting an element no larger than `b` into elements no larger than
      `b` gives elements no larger than `b`. */
  lemma InsertBelow<T>(s: seq<T>, x: T, key: T -> real, b: real)
    requires forall i :: 0 <= i < |s| ==> key(s[i]) <= b
    requires key(x) <= b
    ensures forall i :: 0 <= i < |Insert(s, x, key)| ==> key(Insert(s, x, key)[i]) <= b
  {
    var m := Insert(s, x, key);
    forall i | 0 <= i < |m| ensures key(m[i]) <= b {
      assert m[i] in multiset(m);
      assert m[i] in multiset(s) || m[i] == x;
    }
  }

  /** A sorted sequence stays sorted when an element at least as large as
      all of it is appended. */
  lemma SortedSnoc<T>(m: seq<T>, y: T, key: T -> real)
    requires SortedBy(m, key)
    requires forall i :: 0 <= i < |m| ==> key(m[i]) <= key(y)
    ensures SortedBy(m + [y], key)
  {
  }

  /** Inserting an element whose key is not below the last one appends it. */
  lemma InsertAtEnd<T>(s: seq<T>, x: T, key: T -> real)
    requires |s| == 0 || key(s[|s| - 1]) <= key(x)
    ensures Insert(s, x, key) == s + [x]
  {
  }

  /** Sorts `s` by `key`: a sorted permutation of `s`. */
  function SortByKey<T>(s: seq<T>, key: T -> real): (r: seq<T>)
    ensures |r| == |s|
    ensures multiset(r) == multiset(s)
    ensures SortedBy(r, key)
  {
    if |s| == 0 then []
    else
      var init := s[..|s| - 1];
      assert s == init + [s[|s| - 1]];
      var sorted := SortByKey(init, key);
      InsertSorted(sorted, s[|s| - 1], key);
      Insert(sorted, s[|s| - 1], key)
  }

  lemma KeyClassSingleton<T>(y: T, key: T -> real, v: real)
    ensures KeyClass([y], key, v) == if key(y) == v then [y] else []
  {
    assert [y][1..] == [];
  }

  /** Appending an element with a larger key than `x` to both sides keeps
      the classes apart: at most one of `x` and `last` has key `v`. */
  lemma KeyClassPastLarger<T>(m: seq<T>, init: seq<T>, x: T, last: T, key: T -> real, v: real)
    requires key(x) < key(last)
    requires KeyClass(m, key, v) == KeyClass(init, key, v) + KeyClass([x], key, v)
    ensures KeyClass(m + [last], key, v) == KeyClass(init + [last], key, v) + KeyClass([x], key, v)
  {
    KeyClassAppend(m, [last], key, v);
    KeyClassAppend(init, [last], key, v);
    KeyClassSingleton(x, key, v);
    KeyClassSingleton(last, key, v);
    if key(x) == v {
      assert KeyClass([last], key, v) == [];
      assert KeyClass(init + [last], key, v) == KeyClass(init, key, v) + [];
    } else {
      assert KeyClass([x], key, v) == [];
      assert KeyClass(m, key, v) == KeyClass(init, key, v) + [];
    }
  }

  lemma {:induction false} InsertKeyClass<T>(s: seq<T>, x: T, key: T -> real, v: real)
    ensures KeyClass(Insert(s, x, key), key, v) ==
            KeyClass(s, key, v) + KeyClass([x], key, v)
  {
    if |s| > 0 {
      var last := s[|s| - 1];
      var init := s[..|s| - 1];
      if key(x) < key(last) {
        var m := Insert(init, x, key);
        assert Insert(s, x, key) == m + [last];
        assert s == init + [last];
        InsertKeyClass(init, x, key, v);
        KeyClassPastLarger(m, init, x, last, key, v);
      } else {
        KeyClassAppend(s, [x], key, v);
      }
    }
  }

  /** Stability: sorting keeps the relative order of elements with equal keys. */
  lemma {:induction false} SortIsStable<T>(s: seq<T>, key: T -> real, v: real)
    ensures KeyClass(SortByKey(s, key), key, v) == KeyClass(s, key, v)
  {
    if |s| > 0 {
      var init := s[..|s| - 1];
      assert s == init + [s[|s| - 1]];
      SortIsStable(init, key, v);
      InsertKeyClass(SortByKey(init, key), s[|s| - 1], key, v);
      KeyClassAppend(init, [s[|s| - 1]], key, v);
    }
  }

  /** A comparator that always answers 0 leaves the order unchanged. */
  lemma {:induction false} SortByConstantKey<T>(s: seq<T>, key: T -> real, c: real)
    requires forall x :: key(x) == c
    ensures SortByKey(s, key) == s
  {
    SortIsStable(s, key, c);
    KeyClassOfConstant(s, key, c);
    KeyClassOfConstant(SortByKey(s, key), key, c);
  }

  /** When every key is `c`, the class of `c` is the whole sequence. */
  lemma {:induction false} KeyClassOfConstant<T>(s: seq<T>, key: T -> real, c: real)
    requires forall x :: key(x) == c
    ensures KeyClass(s, key, c) == s
  {
    if |s| > 0 {
      KeyClassOfConstant(s[1..], key, c);
      assert [s[0]] + s[1..] == s;
    }
  }
}
