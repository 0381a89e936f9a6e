/** Python's `sorted` with a key: stable, so equal keys keep their order. */
module Sorting {
  import opened Common

  /** `x` goes after every element whose key is not larger. */
  function Insert<T>(s: seq<T>, x: T, key: T -> int): seq<T> {
    if s == [] || key(s[|s| - 1]) <= key(x) then s + [x]
    else Insert(s[..|s| - 1], x, key) + [s[|s| - 1]]
  }

  function Sorted<T>(s: seq<T>, key: T -> int): seq<T> {
    if s == [] then [] else Insert(Sorted(s[..|s| - 1], key), s[|s| - 1], key)
  }

  ghost predicate Ascending<T>(s: seq<T>, key: T -> int) {
    forall i, j :: 0 <= i <= j < |s| ==> key(s[i]) <= key(s[j])
  }

  lemma {:induction false} InsertPermutes<T>(s: seq<T>, x: T, key: T -> int)
    ensures multiset(Insert(s, x, key)) == multiset(s) + multiset{x}
  {
    if s != [] && key(s[|s| - 1]) > key(x) {
      var front, last := s[..|s| - 1], s[|s| - 1];
      InsertPermutes(front, x, key);
      assert s == front + [last];
    }
  }

  /** Every element of a sequence has a key of at most `bound`. */
  ghost predicate UpTo<T>(s: seq<T>, key: T -> int, bound: int) {
    forall i :: 0 <= i < |s| ==> key(s[i]) <= bound
  }

  lemma {:induction false} InsertKeepsBound<T>(s: seq<T>, x: T, key: T -> int, bound: int)
    requires UpTo(s, key, bound) && key(x) <= bound
    ensures UpTo(Insert(s, x, key), key, bound)
  {
    if s != [] && key(s[|s| - 1]) > key(x) {
      InsertKeepsBound(s[..|s| - 1], x, key, bound);
    }
  }

  lemma AscendingAppend<T>(s: seq<T>, x: T, key: T -> int)
    requires Ascending(s, key) && UpTo(s, key, key(x))
    ensures Ascending(s + [x], key)
  {
  }

  lemma {:induction false} InsertKeepsOrder<T>(s: seq<T>, x: T, key: T -> int)
    requires Ascending(s, key)
    ensures Ascending(Insert(s, x, key), key)
  {
    if s == [] || key(s[|s| - 1]) <= key(x) {
      AscendingAppend(s, x, key);
    } else {
      var front, last := s[..|s| - 1], s[|s| - 1];
      InsertKeepsOrder(front, x, key);
      InsertKeepsBound(front, x, key, key(last));
      AscendingAppend(Insert(front, x, key), last, key);
    }
  }

  /** Sorting rearranges the elements into ascending key order. */
  lemma {:induction false} SortedIsOrderedPermutation<T>(s: seq<T>, key: T -> int)
    ensures Ascending(Sorted(s, key), key)
    ensures multiset(Sorted(s, key)) == multiset(s)
  {
    if s != [] {
      var front, last := s[..|s| - 1], s[|s| - 1];
      SortedIsOrderedPermutation(front, key);
      InsertKeepsOrder(Sorted(front, key), last, key);
      InsertPermutes(Sorted(front, key), last, key);
      assert s == front + [last];
    }
  }

  /** A sequence in order is left as it is. */
  lemma {:induction false} SortedIsFixed<T>(s: seq<T>, key: T -> int)
    requires Ascending(s, key)
    ensures Sorted(s, key) == s
  {
    if s != [] {
      var front, last := s[..|s| - 1], s[|s| - 1];
      SortedIsFixed(front, key);
      assert front == [] || key(front[|front| - 1]) <= key(last);
      assert Insert(front, last, key) == front + [last];
    }
  }

  lemma {:induction false} InsertCount<T>(s: seq<T>, x: T, key: T -> int, p: T -> bool)
    ensures Count(Insert(s, x, key), p) == Count(s, p) + if p(x) then 1 else 0
  {
    if s == [] || key(s[|s| - 1]) <= key(x) {
      CountAppend(s, x, p);
    } else {
      InsertCount(s[..|s| - 1], x, key, p);
      CountAppend(Insert(s[..|s| - 1], x, key), s[|s| - 1], p);
    }
  }

  /** Sorting changes no count. */
  lemma {:induction false} SortedCount<T>(s: seq<T>, key: T -> int, p: T -> bool)
    ensures Count(Sorted(s, key), p) == Count(s, p)
  {
    if s != [] {
      SortedCount(s[..|s| - 1], key, p);
      InsertCount(Sorted(s[..|s| - 1], key), s[|s| - 1], key, p);
    }
  }
}
