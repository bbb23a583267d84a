/** Sorting rows by a numeric key, highest first. Python's `sorted(..., reverse=True)`
    is stable, and so is this insertion sort: equal keys keep their input order. */
module Sorting {
  import opened Common

  /** Keys never increase from left to right. */
  predicate SortedDesc<T>(s: seq<T>, key: T -> real)
  {
    forall i, j :: 0 <= i < j < |s| ==> key(s[i]) >= key(s[j])
  }

  /** Puts `x` in front of the first element whose key is not larger than its own. */
  function Insert<T>(x: T, s: seq<T>, key: T -> real): seq<T>
  {
    if s == [] || key(x) >= key(s[0]) then [x] + s
    else [s[0]] + Insert(x, s[1..], key)
  }

  function SortDesc<T>(s: seq<T>, key: T -> real): seq<T>
  {
    if s == [] then [] else Insert(s[0], SortDesc(s[1..], key), key)
  }

  lemma {:induction false} InsertPermutes<T>(x: T, s: seq<T>, key: T -> real)
    ensures multiset(Insert(x, s, key)) == multiset(s) + multiset{x}
    ensures |Insert(x, s, key)| == |s| + 1
  {
    if s != [] && key(x) < key(s[0]) {
      InsertPermutes(x, s[1..], key);
      assert s == [s[0]] + s[1..];
    }
  }

  lemma {:induction false} InsertSorted<T>(x: T, s: seq<T>, key: T -> real)
    requires SortedDesc(s, key)
    ensures SortedDesc(Insert(x, s, key), key)
  {
    if s != [] && key(x) < key(s[0]) {
      InsertSorted(x, s[1..], key);
      InsertPermutes(x, s[1..], key);
      var r := Insert(x, s[1..], key);
      // every element of r is x or an element of s[1..]; all keys there are <= key(s[0])
      forall k | 0 <= k < |r| ensures key(r[k]) <= key(s[0]) {
        assert r[k] in multiset(r);
        if r[k] != x {
          assert r[k] in multiset(s[1..]);
          var j :| 0 <= j < |s[1..]| && s[1..][j] == r[k];
          assert s[j + 1] == r[k];
        }
      }
      assert Insert(x, s, key) == [s[0]] + r;
    }
  }

  /** The result is ordered by `key`, highest first. */
  lemma {:induction false} SortDescSorted<T>(s: seq<T>, key: T -> real)
    ensures SortedDesc(SortDesc(s, key), key)
  {
    if s != [] {
      SortDescSorted(s[1..], key);
      InsertSorted(s[0], SortDesc(s[1..], key), key);
    }
  }

  /** The result holds exactly the input's elements, each as often as in the input. */
  lemma {:induction false} SortDescPermutes<T>(s: seq<T>, key: T -> real)
    ensures multiset(SortDesc(s, key)) == multiset(s)
    ensures |SortDesc(s, key)| == |s|
  {
    if s != [] {
      SortDescPermutes(s[1..], key);
      InsertPermutes(s[0], SortDesc(s[1..], key), key);
      assert s == [s[0]] + s[1..];
    }
  }

  lemma {:induction false} InsertCount<T>(x: T, s: seq<T>, key: T -> real, p: T -> bool)
    ensures Count(Insert(x, s, key), p) == Count([x] + s, p)
  {
    if s != [] && key(x) < key(s[0]) {
      InsertCount(x, s[1..], key, p);
      assert ([s[0]] + Insert(x, s[1..], key))[1..] == Insert(x, s[1..], key);
      assert ([x] + s)[1..] == s;
      assert ([x] + s[1..])[1..] == s[1..];
    } else {
      assert ([x] + s)[1..] == s;
    }
  }

  /** Sorting does not change how many elements satisfy a predicate. */
  lemma {:induction false} SortDescCount<T>(s: seq<T>, key: T -> real, p: T -> bool)
    ensures Count(SortDesc(s, key), p) == Count(s, p)
  {
    if s != [] {
      SortDescCount(s[1..], key, p);
      InsertCount(s[0], SortDesc(s[1..], key), key, p);
      assert ([s[0]] + SortDesc(s[1..], key))[1..] == SortDesc(s[1..], key);
    }
  }

  lemma {:induction false} InsertTotal<T>(x: T, s: seq<T>, key: T -> real, w: T -> nat)
    ensures Total(Insert(x, s, key), w) == w(x) + Total(s, w)
  {
    if s != [] && key(x) < key(s[0]) {
      InsertTotal(x, s[1..], key, w);
      assert ([s[0]] + Insert(x, s[1..], key))[1..] == Insert(x, s[1..], key);
    } else {
      assert ([x] + s)[1..] == s;
    }
  }

  /** Sorting does not change the total of a weight. */
  lemma {:induction false} SortDescTotal<T>(s: seq<T>, key: T -> real, w: T -> nat)
    ensures Total(SortDesc(s, key), w) == Total(s, w)
  {
    if s != [] {
      SortDescTotal(s[1..], key, w);
      InsertTotal(s[0], SortDesc(s[1..], key), key, w);
    }
  }

  /** Keeping the first `n` rows of the sorted sequence (`sort_values(...).head(n)`) keeps
      input elements only, and every element left out ranks no higher than every one kept. */
  lemma {:induction false} HeadOfSortedKeepsLargest<T>(s: seq<T>, key: T -> real, n: int)
    ensures multiset(Head(SortDesc(s, key), n)) <= multiset(s)
    ensures forall x | x in multiset(s) - multiset(Head(SortDesc(s, key), n)) ::
      forall i :: 0 <= i < |Head(SortDesc(s, key), n)| ==> key(x) <= key(Head(SortDesc(s, key), n)[i])
  {
    var f := SortDesc(s, key);
    SortDescSorted(s, key);
    SortDescPermutes(s, key);
    var h := Head(f, n);
    var rest := f[|h|..];
    assert f == h + rest;
    assert multiset(f) == multiset(h) + multiset(rest);
    forall x | x in multiset(s) - multiset(h)
      ensures forall i :: 0 <= i < |h| ==> key(x) <= key(h[i])
    {
      assert x in multiset(rest);
      var j :| 0 <= j < |rest| && rest[j] == x;
      assert f[|h| + j] == x;
    }
  }
}
