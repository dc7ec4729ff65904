/** Stable sorting of distinct elements by an integer key, as the library sorts do. */
module Sorting {
  import opened Core

  ghost predicate SortedBy<T>(s: seq<T>, key: T -> int) {
    forall i, j :: 0 <= i < j < |s| ==> key(s[i]) <= key(s[j])
  }

  ghost predicate SameElements<T(!new)>(s: seq<T>, t: seq<T>) {
    |s| == |t| && forall x :: x in s <==> x in t
  }

  function Inserted<T>(s: seq<T>, p: nat, x: T): (t: seq<T>)
    requires p <= |s|
    ensures |t| == |s| + 1
  {
    s[..p] + [x] + s[p..]
  }

  lemma {:induction false} InsertedAt<T>(s: seq<T>, p: nat, x: T, i: nat)
    requires p <= |s| && i <= |s|
    ensures Inserted(s, p, x)[i] == if i < p then s[i] else if i == p then x else s[i - 1]
  {
  }

  lemma {:induction false} InsertedIn<T>(s: seq<T>, p: nat, x: T, y: T)
    requires p <= |s|
    ensures y in Inserted(s, p, x) <==> y in s || y == x
  {
    if y in s {
      var i :| 0 <= i < |s| && s[i] == y;
      InsertedAt(s, p, x, if i < p then i else i + 1);
    }
    InsertedAt(s, p, x, p);
  }

  lemma {:induction false} InsertSorted<T>(s: seq<T>, key: T -> int, p: nat, x: T)
    requires SortedBy(s, key) && p <= |s| && forall a :: 0 <= a < p ==> key(s[a]) <= key(x)
    requires p < |s| ==> key(x) < key(s[p])
    ensures SortedBy(Inserted(s, p, x), key)
  {
    hide Inserted;
    var t := Inserted(s, p, x);
    forall i, j | 0 <= i < j < |t|
      ensures key(t[i]) <= key(t[j])
    {
      InsertedAt(s, p, x, i);
      InsertedAt(s, p, x, j);
      if i == p && p < j - 1 { assert key(s[p]) <= key(s[j - 1]); }
    }
  }

  lemma {:induction false} InsertDistinct<T>(s: seq<T>, p: nat, x: T)
    requires Distinct(s) && p <= |s| && x !in s
    ensures Distinct(Inserted(s, p, x))
  {
    hide Inserted;
    var t := Inserted(s, p, x);
    forall i, j | 0 <= i < j < |t|
      ensures t[i] != t[j]
    {
      InsertedAt(s, p, x, i);
      InsertedAt(s, p, x, j);
    }
  }

  /** Insertion sort: the same elements, by key. */
  method SortByKey<T(!new)>(xs: seq<T>, key: T -> int) returns (s: seq<T>)
    requires Distinct(xs)
    ensures SortedBy(s, key) && Distinct(s) && SameElements(xs, s)
  {
    hide Inserted;
    s := [];
    for n := 0 to |xs|
      invariant SortedBy(s, key) && Distinct(s) && SameElements(xs[..n], s)
    {
      var x, p := xs[n], 0;
      while p < |s| && key(s[p]) <= key(x)
        invariant p <= |s| && forall a :: 0 <= a < p ==> key(s[a]) <= key(x)
      {
        p := p + 1;
      }
      assert xs[n] !in xs[..n];
      InsertSorted(s, key, p, x);
      InsertDistinct(s, p, x);
      forall y
        ensures y in Inserted(s, p, x) <==> y in xs[..n + 1]
      {
        InsertedIn(s, p, x, y);
        assert xs[..n + 1] == xs[..n] + [x];
      }
      s := Inserted(s, p, x);
    }
    assert xs[..|xs|] == xs;
  }

  lemma {:induction false} LastIn<T>(s: seq<T>, z: T)
    requires s != [] && Distinct(s)
    ensures z in s[..|s| - 1] <==> z in s && z != s[|s| - 1]
  {
    assert s == s[..|s| - 1] + [s[|s| - 1]];
  }

  /** Strictly ascending keys leave only one order. */
  lemma {:induction false} OneOrder<T(!new)>(s: seq<T>, t: seq<T>, key: T -> int)
    requires SameElements(s, t) && SortedBy(s, key) && Distinct(s) && Distinct(t)
    requires forall i, j :: 0 <= i < j < |t| ==> key(t[i]) < key(t[j])
    ensures s == t
    decreases |s|
  {
    if s != [] {
      var n := |s| - 1;
      var x, y := s[n], t[n];
      assert x in t && y in s;
      var i :| 0 <= i < |t| && t[i] == x;
      var j :| 0 <= j < |s| && s[j] == y;
      assert key(y) <= key(x) <= key(y);
      assert x == y;
      forall z
        ensures z in s[..n] <==> z in t[..n]
      {
        LastIn(s, z);
        LastIn(t, z);
        assert z in s <==> z in t;
      }
      OneOrder(s[..n], t[..n], key);
    }
  }

  lemma {:induction false} SameCount<T(!new)>(s: seq<T>, t: seq<T>)
    requires Distinct(s) && Distinct(t) && forall x :: x in s <==> x in t
    ensures |s| == |t|
  {
    var a, b := set x | x in s, set x | x in t;
    CountDistinct(s);
    CountDistinct(t);
    assert a == b;
  }

  lemma {:induction false} CountDistinct<T(!new)>(s: seq<T>)
    requires Distinct(s)
    ensures |set x | x in s| == |s|
  {
    if s != [] {
      var t, x := s[..|s| - 1], s[|s| - 1];
      CountDistinct(t);
      assert (set y | y in s) == (set y | y in t) + {x};
    }
  }
}
