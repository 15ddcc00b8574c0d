/** The stable sort by key that the program takes from its standard library, and its laws. */
module Sorting {

  // Inserts `x` after every element whose key is not larger.
  function InsertBy<T>(s: seq<T>, x: T, key: T -> nat): (r: seq<T>)
    ensures |r| == |s| + 1
    decreases |s|
  {
    if s == [] || key(s[|s| - 1]) <= key(x) then s + [x]
    else InsertBy(s[..|s| - 1], x, key) + [s[|s| - 1]]
  }

  function SortBy<T>(s: seq<T>, key: T -> nat): (r: seq<T>)
    ensures |r| == |s|
    decreases |s|
  {
    if s == [] then [] else InsertBy(SortBy(s[..|s| - 1], key), s[|s| - 1], key)
  }

  ghost predicate SortedBy<T>(s: seq<T>, key: T -> nat) {
    forall i, j :: 0 <= i < j < |s| ==> key(s[i]) <= key(s[j])
  }

  ghost predicate StrictlySortedBy<T>(s: seq<T>, key: T -> nat) {
    forall i, j :: 0 <= i < j < |s| ==> key(s[i]) < key(s[j])
  }

  lemma {:induction false} SortedFront<T>(s: seq<T>, key: T -> nat)
    requires s != []
    ensures SortedBy(s, key) ==> SortedBy(s[..|s| - 1], key)
    ensures StrictlySortedBy(s, key) ==> StrictlySortedBy(s[..|s| - 1], key)
    ensures s == s[..|s| - 1] + [s[|s| - 1]]
  {}

  lemma {:induction false} CancelOne<T>(a: multiset<T>, b: multiset<T>, x: T)
    requires a + multiset{x} == b + multiset{x}
    ensures a == b
  {
    assert a == (a + multiset{x}) - multiset{x} && b == (b + multiset{x}) - multiset{x};
  }

  lemma {:induction false} FrontAndLast<T>(s: seq<T>)
    requires s != []
    ensures multiset(s) == multiset(s[..|s| - 1]) + multiset{s[|s| - 1]}
  {
    assert s == s[..|s| - 1] + [s[|s| - 1]];
  }

  lemma {:induction false} FrontElements<T>(s: seq<T>, t: seq<T>)
    requires multiset(s) == multiset(t) && s != [] && t != [] && s[|s| - 1] == t[|t| - 1]
    ensures multiset(s[..|s| - 1]) == multiset(t[..|t| - 1])
  {
    FrontAndLast(s);
    FrontAndLast(t);
    CancelOne(multiset(s[..|s| - 1]), multiset(t[..|t| - 1]), s[|s| - 1]);
  }

  lemma {:induction false} BothEmpty<T>(s: seq<T>, t: seq<T>)
    requires multiset(s) == multiset(t)
    ensures s == [] <==> t == []
  {
    if s != [] {
      assert s[0] in multiset(t);
    }
    if t != [] {
      assert t[0] in multiset(s);
    }
  }

  lemma {:induction false} InsertedElements<T>(s: seq<T>, x: T, key: T -> nat)
    ensures multiset(InsertBy(s, x, key)) == multiset(s) + multiset{x}
    decreases |s|
  {
    if s != [] && !(key(s[|s| - 1]) <= key(x)) {
      InsertedElements(s[..|s| - 1], x, key);
      assert s == s[..|s| - 1] + [s[|s| - 1]];
    }
  }

  lemma {:induction false} InsertedSorted<T>(s: seq<T>, x: T, key: T -> nat)
    requires SortedBy(s, key)
    ensures SortedBy(InsertBy(s, x, key), key)
    decreases |s|
  {
    if s != [] && !(key(s[|s| - 1]) <= key(x)) {
      var front, last := s[..|s| - 1], s[|s| - 1];
      InsertedSorted(front, x, key);
      InsertedElements(front, x, key);
      var r := InsertBy(front, x, key);
      forall i | 0 <= i < |r| ensures key(r[i]) <= key(last) {
        assert r[i] in multiset(r);
        assert r[i] == x || r[i] in front;
      }
    }
  }

  lemma {:induction false} SortLaws<T>(s: seq<T>, key: T -> nat)
    ensures SortedBy(SortBy(s, key), key)
    ensures multiset(SortBy(s, key)) == multiset(s)
    decreases |s|
  {
    if s != [] {
      var front, last := s[..|s| - 1], s[|s| - 1];
      SortLaws(front, key);
      InsertedSorted(SortBy(front, key), last, key);
      InsertedElements(SortBy(front, key), last, key);
      assert s == front + [last];
    }
  }

  /** Sorting leaves a sorted list as it is, equal keys included. */
  lemma {:induction false} SortOfSorted<T>(s: seq<T>, key: T -> nat)
    requires SortedBy(s, key)
    ensures SortBy(s, key) == s
    decreases |s|
  {
    if s != [] {
      SortedFront(s, key);
      assert |s| > 1 ==> key(s[|s| - 2]) <= key(s[|s| - 1]);
      hide SortedBy;
      SortOfSorted(s[..|s| - 1], key);
    }
  }

  lemma {:induction false} SameLast<T>(a: seq<T>, b: seq<T>, key: T -> nat)
    requires SortedBy(a, key) && StrictlySortedBy(b, key)
    requires multiset(a) == multiset(b) && a != [] && b != []
    ensures a[|a| - 1] == b[|b| - 1]
  {
    var x, y := a[|a| - 1], b[|b| - 1];
    assert x in multiset(b) && y in multiset(a);
    var i :| 0 <= i < |b| && b[i] == x;
    var j :| 0 <= j < |a| && a[j] == y;
    assert key(y) <= key(x);
  }

  /** A sorted rearrangement of a list with strictly increasing keys is that list. */
  lemma {:induction false} SortedUnique<T>(a: seq<T>, b: seq<T>, key: T -> nat)
    requires SortedBy(a, key) && StrictlySortedBy(b, key) && multiset(a) == multiset(b)
    ensures a == b
    decreases |b|
  {
    hide SortedBy, StrictlySortedBy;
    BothEmpty(a, b);
    if b != [] {
      SameLast(a, b, key);
      FrontElements(a, b);
      SortedFront(a, key);
      SortedFront(b, key);
      SortedUnique(a[..|a| - 1], b[..|b| - 1], key);
    }
  }

  /** Sorting any rearrangement of a list with strictly increasing keys restores it. */
  lemma {:induction false} SortRestores<T>(s: seq<T>, original: seq<T>, key: T -> nat)
    requires multiset(s) == multiset(original) && StrictlySortedBy(original, key)
    ensures SortBy(s, key) == original
  {
    SortLaws(s, key);
    SortedUnique(SortBy(s, key), original, key);
  }

  /** Elements with larger keys at the end are passed over. */
  lemma {:induction false} InsertBefore<T>(s: seq<T>, t: seq<T>, x: T, key: T -> nat)
    requires forall i :: 0 <= i < |t| ==> key(x) < key(t[i])
    ensures InsertBy(s + t, x, key) == InsertBy(s, x, key) + t
    decreases |t|
  {
    if t == [] {
      assert s + t == s;
    } else {
      var u := s + t;
      assert u[|u| - 1] == t[|t| - 1] && u[..|u| - 1] == s + t[..|t| - 1];
      InsertBefore(s, t[..|t| - 1], x, key);
      assert t == t[..|t| - 1] + [t[|t| - 1]];
    }
  }
}
