/** Kotlin's `MutableList.sortByDescending(selector)`: a stable sort, largest key
    first. Modelled as an insertion sort that places each element after every
    earlier element whose key is at least its own, which is what stability means. */
module Sorting {
  predicate SortedDescending<T>(s: seq<T>, key: T -> int) {
    forall i, j :: 0 <= i < j < |s| ==> key(s[i]) >= key(s[j])
  }

  /** Places `x` after every element whose key is at least key(x). */
  function InsertDescending<T>(s: seq<T>, x: T, key: T -> int): seq<T> {
    if s == [] then [x]
    else if key(s[0]) >= key(x) then [s[0]] + InsertDescending(s[1..], x, key)
    else [x] + s
  }

  function SortDescending<T>(s: seq<T>, key: T -> int): seq<T> {
    if s == [] then [] else InsertDescending(SortDescending(s[..|s| - 1], key), s[|s| - 1], key)
  }

  lemma {:induction false} InsertDescendingPermutes<T>(s: seq<T>, x: T, key: T -> int)
    ensures multiset(InsertDescending(s, x, key)) == multiset(s) + multiset{x}
  {
    if s != [] && key(s[0]) >= key(x) {
      InsertDescendingPermutes(s[1..], x, key);
      assert s == [s[0]] + s[1..];
    }
  }

  lemma {:induction false} InsertDescendingSorted<T>(s: seq<T>, x: T, key: T -> int)
    requires SortedDescending(s, key)
    ensures SortedDescending(InsertDescending(s, x, key), key)
  {
    if s != [] && key(s[0]) >= key(x) {
      var rest := InsertDescending(s[1..], x, key);
      InsertDescendingSorted(s[1..], x, key);
      InsertDescendingPermutes(s[1..], x, key);
      forall k | 0 <= k < |rest| ensures key(s[0]) >= key(rest[k]) {
        assert rest[k] in multiset(rest);
        assert rest[k] in multiset(s[1..]) || rest[k] == x;
      }
    }
  }

  /** The sorted list is ordered by key, largest first. */
  lemma {:induction false} SortDescendingSorted<T>(s: seq<T>, key: T -> int)
    ensures SortedDescending(SortDescending(s, key), key)
  {
    if s != [] {
      SortDescendingSorted(s[..|s| - 1], key);
      InsertDescendingSorted(SortDescending(s[..|s| - 1], key), s[|s| - 1], key);
    }
  }

  /** The sorted list holds exactly the elements of the input. */
  lemma {:induction false} SortDescendingPermutes<T>(s: seq<T>, key: T -> int)
    ensures multiset(SortDescending(s, key)) == multiset(s)
  {
    if s != [] {
      SortDescendingPermutes(s[..|s| - 1], key);
      InsertDescendingPermutes(SortDescending(s[..|s| - 1], key), s[|s| - 1], key);
      assert s == s[..|s| - 1] + [s[|s| - 1]];
    }
  }

  /** Appending to a sorted list and re-sorting inserts the new element after
      every element whose key is at least its own. */
  lemma {:induction false} SortAfterAppend<T>(s: seq<T>, x: T, key: T -> int)
    requires SortedDescending(s, key)
    ensures SortDescending(s + [x], key) == InsertDescending(s, x, key)
  {
    assert (s + [x])[..|s|] == s;
    SortOfSorted(s, key);
  }

  /** Sorting a list that is already sorted leaves it as it is (stability). */
  lemma {:induction false} SortOfSorted<T>(s: seq<T>, key: T -> int)
    requires SortedDescending(s, key)
    ensures SortDescending(s, key) == s
  {
    if s != [] {
      var init := s[..|s| - 1];
      SortOfSorted(init, key);
      AppendLeast(init, s[|s| - 1], key);
      assert init + [s[|s| - 1]] == s;
    }
  }

  lemma {:induction false} AppendLeast<T>(s: seq<T>, x: T, key: T -> int)
    requires forall i :: 0 <= i < |s| ==> key(s[i]) >= key(x)
    ensures InsertDescending(s, x, key) == s + [x]
  {
    if s != [] {
      AppendLeast(s[1..], x, key);
      assert s == [s[0]] + s[1..];
    }
  }
}
