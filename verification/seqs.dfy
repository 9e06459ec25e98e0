/** Generic sequence operations shared by every view: `Array.prototype.filter`,
    counting with a predicate, subsequences and duplicate-freedom. */
module Seqs {

  /** Number of elements of `s` that satisfy `f` (`s.filter(f).length`). */
  function Count<T>(s: seq<T>, f: T -> bool): (n: nat)
    ensures n <= |s|
  {
    if |s| == 0 then 0 else (if f(s[0]) then 1 else 0) + Count(s[1..], f)
  }

  /** `r` can be obtained from `s` by deleting elements, keeping the order of
      the rest. Matching greedily against the first possible position is
      complete for this question. */
  predicate IsSubsequence<T(==)>(r: seq<T>, s: seq<T>)
    decreases |s|
  {
    if |r| == 0 then true
    else if |s| == 0 then false
    else if r[0] == s[0] then IsSubsequence(r[1..], s[1..])
    else IsSubsequence(r, s[1..])
  }

  /** No value occurs twice. */
  predicate NoDuplicates<T(==)>(s: seq<T>) {
    forall i, j :: 0 <= i < j < |s| ==> s[i] != s[j]
  }

  /** `Array.prototype.filter`: the elements of `s` satisfying `keep`, in order.
      The contract pins the result down completely: an order-preserving
      selection from `s` made of kept elements only, as long as the number of
      kept elements of `s`. */
  function Filter<T(==)>(s: seq<T>, keep: T -> bool): (r: seq<T>)
    ensures |r| == Count(s, keep)
    ensures IsSubsequence(r, s)
    ensures forall x :: x in r ==> x in s && keep(x)
    ensures forall x :: x in s && keep(x) ==> x in r
  {
    if |s| == 0 then []
    else if keep(s[0]) then [s[0]] + Filter(s[1..], keep)
    else Filter(s[1..], keep)
  }

  lemma {:induction false} FilterAppend<T>(a: seq<T>, b: seq<T>, keep: T -> bool)
    ensures Filter(a + b, keep) == Filter(a, keep) + Filter(b, keep)
  {
    if |a| == 0 {
      assert a + b == b;
    } else {
      assert (a + b)[0] == a[0];
      assert (a + b)[1..] == a[1..] + b;
      FilterAppend(a[1..], b, keep);
    }
  }

  /** Filtering by `f` and then by `g` is filtering once by their conjunction
      `h`; the two stages commute. */
  lemma {:induction false} FilterFilter<T>(s: seq<T>, f: T -> bool, g: T -> bool, h: T -> bool)
    requires forall x :: h(x) == (f(x) && g(x))
    ensures Filter(Filter(s, f), g) == Filter(s, h)
    ensures Filter(Filter(s, g), f) == Filter(s, h)
  {
    if |s| > 0 {
      FilterFilter(s[1..], f, g, h);
    }
  }

  /** Two pointwise-equal predicates filter alike. */
  lemma {:induction false} FilterExtensional<T>(s: seq<T>, f: T -> bool, g: T -> bool)
    requires forall x :: x in s ==> f(x) == g(x)
    ensures Filter(s, f) == Filter(s, g)
  {
    if |s| > 0 {
      FilterExtensional(s[1..], f, g);
    }
  }

  /** Two pointwise-equal predicates count alike. */
  lemma {:induction false} CountExtensional<T>(s: seq<T>, f: T -> bool, g: T -> bool)
    requires forall x :: x in s ==> f(x) == g(x)
    ensures Count(s, f) == Count(s, g)
  {
    if |s| > 0 {
      assert s[0] in s;
      CountExtensional(s[1..], f, g);
    }
  }

  /** A predicate every element satisfies keeps the whole sequence. */
  lemma {:induction false} FilterAll<T>(s: seq<T>, keep: T -> bool)
    requires forall x :: x in s ==> keep(x)
    ensures Filter(s, keep) == s
  {
    if |s| > 0 {
      FilterAll(s[1..], keep);
    }
  }

  /** Applying the same filter a second time changes nothing. */
  lemma FilterIdempotent<T>(s: seq<T>, keep: T -> bool)
    ensures Filter(Filter(s, keep), keep) == Filter(s, keep)
  {
    FilterAll(Filter(s, keep), keep);
  }

  /** A selection from a duplicate-free sequence is duplicate-free. */
  lemma {:induction false} SubsequenceNoDuplicates<T>(r: seq<T>, s: seq<T>)
    requires IsSubsequence(r, s)
    requires NoDuplicates(s)
    ensures NoDuplicates(r)
    decreases |s|
  {
    if |r| > 0 && |s| > 0 {
      assert NoDuplicates(s[1..]) by {
        forall i, j | 0 <= i < j < |s[1..]| ensures s[1..][i] != s[1..][j] {
          assert s[1..][i] == s[i + 1] && s[1..][j] == s[j + 1];
        }
      }
      if r[0] == s[0] {
        SubsequenceNoDuplicates(r[1..], s[1..]);
        SubsequenceElements(r[1..], s[1..]);
        forall i, j | 0 <= i < j < |r| ensures r[i] != r[j] {
          if i == 0 {
            assert r[j] == r[1..][j - 1];
            assert r[j] in s[1..];
            var k :| 0 <= k < |s[1..]| && s[1..][k] == r[j];
            assert s[k + 1] == r[j];
          } else {
            assert r[i] == r[1..][i - 1] && r[j] == r[1..][j - 1];
          }
        }
      } else {
        SubsequenceNoDuplicates(r, s[1..]);
      }
    }
  }

  /** Every element of a subsequence is an element of the sequence. */
  lemma {:induction false} SubsequenceElements<T>(r: seq<T>, s: seq<T>)
    requires IsSubsequence(r, s)
    ensures forall x :: x in r ==> x in s
    decreases |s|
  {
    if |r| > 0 && |s| > 0 {
      if r[0] == s[0] {
        SubsequenceElements(r[1..], s[1..]);
        assert forall x :: x in r ==> x == r[0] || x in r[1..];
      } else {
        SubsequenceElements(r, s[1..]);
      }
    }
  }

  /** A duplicate-free sequence is no longer than any set containing all its
      elements. */
  lemma {:induction false} NoDuplicatesLengthBound<T>(s: seq<T>, bound: set<T>)
    requires NoDuplicates(s)
    requires forall x :: x in s ==> x in bound
    ensures |s| <= |bound|
  {
    if |s| > 0 {
      var rest := s[1..];
      assert NoDuplicates(rest) by {
        forall i, j | 0 <= i < j < |rest| ensures rest[i] != rest[j] {
          assert rest[i] == s[i + 1] && rest[j] == s[j + 1];
        }
      }
      assert s[0] !in rest by {
        forall k | 0 <= k < |rest| ensures rest[k] != s[0] {
          assert rest[k] == s[k + 1];
        }
      }
      NoDuplicatesLengthBound(rest, bound - {s[0]});
    }
  }

  /** The set of a sequence's elements is no larger than the sequence. */
  lemma {:induction false} ElementSetBound<T>(s: seq<T>)
    ensures |set x | x in s| <= |s|
  {
    if |s| > 0 {
      ElementSetBound(s[1..]);
      assert (set x | x in s) == (set x | x in s[1..]) + {s[0]};
    }
  }

  /** Selection is transitive. */
  lemma {:induction false} SubsequenceTransitive<T>(a: seq<T>, b: seq<T>, c: seq<T>)
    requires IsSubsequence(a, b) && IsSubsequence(b, c)
    ensures IsSubsequence(a, c)
    decreases |c|
  {
    if |a| > 0 && |b| > 0 && |c| > 0 {
      if b[0] == c[0] {
        if a[0] == b[0] {
          SubsequenceTransitive(a[1..], b[1..], c[1..]);
        } else {
          SubsequenceTransitive(a, b[1..], c[1..]);
          assert IsSubsequence(a, c[1..]);
          SubsequenceDropHead(a, c);
        }
      } else {
        SubsequenceTransitive(a, b, c[1..]);
        SubsequenceDropHead(a, c);
      }
    }
  }

  /** A selection from `c[1..]` is a selection from `c`. */
  lemma {:induction false} SubsequenceDropHead<T>(a: seq<T>, c: seq<T>)
    requires |c| > 0 && IsSubsequence(a, c[1..])
    ensures IsSubsequence(a, c)
    decreases |c|, 0
  {
    if |a| > 0 && a[0] == c[0] {
      // the greedy match takes c[0]; what is left must still fit into c[1..]
      SubsequenceTail(a, c[1..]);
    }
  }

  /** Dropping the first element of a selection keeps it a selection. */
  lemma {:induction false} SubsequenceTail<T>(a: seq<T>, c: seq<T>)
    requires |a| > 0 && IsSubsequence(a, c)
    ensures IsSubsequence(a[1..], c)
    decreases |c|, 1
  {
    if |c| > 0 {
      if a[0] == c[0] {
        SubsequenceDropHead(a[1..], c);
      } else {
        SubsequenceTail(a, c[1..]);
        SubsequenceDropHead(a[1..], c);
      }
    }
  }

  /** An element that fails the predicate makes the count fall short. */
  lemma {:induction false} CountMissesOne<T>(s: seq<T>, f: T -> bool, x: T)
    requires x in s && !f(x)
    ensures Count(s, f) < |s|
  {
    if s[0] != x {
      CountMissesOne(s[1..], f, x);
    }
  }

  /** `Array.prototype.findIndex`: the first position satisfying `f`, or -1
      when there is none. */
  function FirstIndex<T>(s: seq<T>, f: T -> bool): (i: int)
    ensures -1 <= i < |s|
    ensures i == -1 <==> forall k :: 0 <= k < |s| ==> !f(s[k])
    ensures 0 <= i ==> f(s[i]) && forall k :: 0 <= k < i ==> !f(s[k])
  {
    if |s| == 0 then -1
    else if f(s[0]) then 0
    else
      var j := FirstIndex(s[1..], f);
      if j == -1 then -1 else j + 1
  }

  /** `Array.prototype.splice(i, 1)`: the sequence without position `i`. */
  function RemoveAt<T>(s: seq<T>, i: nat): (r: seq<T>)
    requires i < |s|
    ensures |r| == |s| - 1
    ensures forall k :: 0 <= k < i ==> r[k] == s[k]
    ensures forall k :: i <= k < |r| ==> r[k] == s[k + 1]
  {
    s[..i] + s[i + 1..]
  }

  /** Removing position `i` removes no value other than `s[i]`. */
  lemma RemoveAtKeepsOthers<T>(s: seq<T>, i: nat)
    requires i < |s|
    ensures forall x :: x != s[i] ==> (x in RemoveAt(s, i) <==> x in s)
  {
    var r := RemoveAt(s, i);
    forall x | x != s[i] && x in s ensures x in r {
      var k :| 0 <= k < |s| && s[k] == x;
      if k < i { assert r[k] == x; } else { assert r[k - 1] == x; }
    }
  }

  /** Appending a fresh value keeps a sequence duplicate-free. */
  lemma AppendFreshNoDuplicates<T>(s: seq<T>, x: T)
    requires NoDuplicates(s) && x !in s
    ensures NoDuplicates(s + [x])
  {
    var r := s + [x];
    forall i, j | 0 <= i < j < |r| ensures r[i] != r[j] {
      if j == |s| {
        assert r[i] == s[i];
      }
    }
  }

  /** Removing a position from a duplicate-free sequence removes its value
      altogether and keeps the rest duplicate-free. */
  lemma RemoveAtNoDuplicates<T>(s: seq<T>, i: nat)
    requires i < |s| && NoDuplicates(s)
    ensures NoDuplicates(RemoveAt(s, i))
    ensures s[i] !in RemoveAt(s, i)
  {
    var r := RemoveAt(s, i);
    forall k | 0 <= k < |r| ensures r[k] != s[i] {
      if k < i { assert r[k] == s[k]; } else { assert r[k] == s[k + 1]; }
    }
    forall a, b | 0 <= a < b < |r| ensures r[a] != r[b] {
      var a' := if a < i then a else a + 1;
      var b' := if b < i then b else b + 1;
      assert r[a] == s[a'] && r[b] == s[b'];
    }
  }

  /** Replacing one element moves the count by that element's verdicts. */
  lemma {:induction false} CountUpdate<T>(s: seq<T>, i: nat, x: T, f: T -> bool)
    requires i < |s|
    ensures Count(s[i := x], f) == Count(s, f) - (if f(s[i]) then 1 else 0) + (if f(x) then 1 else 0)
  {
    if i > 0 {
      assert s[i := x][1..] == s[1..][i - 1 := x];
      CountUpdate(s[1..], i - 1, x, f);
    } else {
      assert s[i := x][1..] == s[1..];
    }
  }

  lemma {:induction false} SubsequenceReflexive<T>(s: seq<T>)
    ensures IsSubsequence(s, s)
  {
    if |s| > 0 {
      SubsequenceReflexive(s[1..]);
    }
  }

  lemma {:induction false} SubsequenceLength<T>(r: seq<T>, s: seq<T>)
    requires IsSubsequence(r, s)
    ensures |r| <= |s|
    decreases |s|
  {
    if |r| > 0 {
      if r[0] == s[0] {
        SubsequenceLength(r[1..], s[1..]);
      } else {
        SubsequenceLength(r, s[1..]);
      }
    }
  }

  /** A permutation has the same elements as the original. */
  lemma SameMultisetSameElements<T>(r: seq<T>, s: seq<T>)
    requires multiset(r) == multiset(s)
    ensures forall x :: x in r <==> x in s
  {
    forall x
      ensures x in r <==> x in s
    {
      assert x in r <==> x in multiset(r);
      assert x in s <==> x in multiset(s);
    }
  }
}
