/** Array.prototype.sort by a numeric key: ascending and stable. */
module Sorting {

  /** Puts `x` behind everything whose key is not greater. */
  function Insert<T>(s: seq<T>, x: T, key: T -> real): (r: seq<T>)
    ensures |r| == |s| + 1
  {
    if s == [] then [x]
    else if key(s[|s| - 1]) <= key(x) then s + [x]
    else Insert(s[..|s| - 1], x, key) + [s[|s| - 1]]
  }

  function Sort<T>(s: seq<T>, key: T -> real): (r: seq<T>)
    ensures |r| == |s|
  {
    if s == [] then [] else Insert(Sort(s[..|s| - 1], key), s[|s| - 1], key)
  }

  ghost predicate Sorted<T>(s: seq<T>, key: T -> real) {
    forall i, j | 0 <= i < j < |s| :: key(s[i]) <= key(s[j])
  }

  /** The elements of one key, in order: what a stable sort must not disturb. */
  function WithKey<T>(s: seq<T>, key: T -> real, v: real): seq<T> {
    if s == [] then []
    else WithKey(s[..|s| - 1], key, v) + if key(s[|s| - 1]) == v then [s[|s| - 1]] else []
  }

  function Take<T>(s: seq<T>, k: nat): (r: seq<T>)
    ensures |r| == if |s| <= k then |s| else k
  {
    if |s| <= k then s else s[..k]
  }

  lemma {:induction false} InsertPermutes<T>(s: seq<T>, x: T, key: T -> real)
    ensures multiset(Insert(s, x, key)) == multiset(s) + multiset{x}
  {
    if s != [] && key(s[|s| - 1]) > key(x) {
      var front, last := s[..|s| - 1], s[|s| - 1];
      assert s == front + [last];
      InsertPermutes(front, x, key);
    }
  }

  lemma {:induction false} InsertMembers<T>(s: seq<T>, x: T, key: T -> real)
    ensures forall y <- Insert(s, x, key) :: y == x || y in s
  {
    if s != [] && key(s[|s| - 1]) > key(x) {
      InsertMembers(s[..|s| - 1], x, key);
    }
  }

  lemma SortedSnoc<T>(s: seq<T>, x: T, key: T -> real)
    requires Sorted(s, key) && forall y <- s :: key(y) <= key(x)
    ensures Sorted(s + [x], key)
  {
  }

  lemma {:induction false} InsertSorted<T>(s: seq<T>, x: T, key: T -> real)
    requires Sorted(s, key)
    ensures Sorted(Insert(s, x, key), key)
  {
    if s == [] {
    } else if key(s[|s| - 1]) <= key(x) {
      SortedSnoc(s, x, key);
    } else {
      var front, last := s[..|s| - 1], s[|s| - 1];
      InsertSorted(front, x, key);
      InsertMembers(front, x, key);
      SortedSnoc(Insert(front, x, key), last, key);
    }
  }

  /** Sort returns a sorted permutation. */
  lemma {:induction false} SortSorts<T>(s: seq<T>, key: T -> real)
    ensures Sorted(Sort(s, key), key)
    ensures multiset(Sort(s, key)) == multiset(s)
  {
    if s != [] {
      var front, last := s[..|s| - 1], s[|s| - 1];
      assert s == front + [last];
      SortSorts(front, key);
      InsertSorted(Sort(front, key), last, key);
      InsertPermutes(Sort(front, key), last, key);
    }
  }

  lemma {:induction false} WithKeySnoc<T>(s: seq<T>, x: T, key: T -> real, v: real)
    ensures WithKey(s + [x], key, v) == WithKey(s, key, v) + if key(x) == v then [x] else []
  {
    assert (s + [x])[..|s|] == s;
  }

  lemma {:induction false} InsertStable<T>(s: seq<T>, x: T, key: T -> real, v: real)
    requires Sorted(s, key)
    ensures WithKey(Insert(s, x, key), key, v) == WithKey(s, key, v) + if key(x) == v then [x] else []
  {
    if s == [] {
      WithKeySnoc([], x, key, v);
      assert [] + [x] == [x];
    } else if key(s[|s| - 1]) <= key(x) {
      WithKeySnoc(s, x, key, v);
    } else {
      var front, last := s[..|s| - 1], s[|s| - 1];
      InsertStable(front, x, key, v);
      WithKeySnoc(Insert(front, x, key), last, key, v);
    }
  }

  /** Elements with equal keys keep their order. */
  lemma {:induction false} SortStable<T>(s: seq<T>, key: T -> real, v: real)
    ensures WithKey(Sort(s, key), key, v) == WithKey(s, key, v)
  {
    if s != [] {
      SortStable(s[..|s| - 1], key, v);
      SortSorts(s[..|s| - 1], key);
      InsertStable(Sort(s[..|s| - 1], key), s[|s| - 1], key, v);
    }
  }

  lemma {:induction false} SortOfSorted<T>(s: seq<T>, key: T -> real)
    requires Sorted(s, key)
    ensures Sort(s, key) == s
  {
    if s != [] {
      var front, last := s[..|s| - 1], s[|s| - 1];
      SortOfSorted(front, key);
      if front != [] {
        assert key(s[|s| - 2]) <= key(last);
      }
      assert s == front + [last];
    }
  }

  /** Keeping only the `k` first before inserting loses nothing that would be among the `k` first. */
  lemma {:induction false} TakeInsert<T>(s: seq<T>, x: T, key: T -> real, k: nat)
    requires Sorted(s, key)
    ensures Take(Insert(Take(s, k), x, key), k) == Take(Insert(s, x, key), k)
  {
    if |s| > k {
      var front, last := s[..|s| - 1], s[|s| - 1];
      if key(last) <= key(x) {
        var t := s[..k];
        if k > 0 {
          assert key(s[k - 1]) <= key(last);
          assert Insert(t, x, key) == t + [x];
        }
        assert (t + [x])[..k] == t;
        assert (s + [x])[..k] == t;
      } else {
        TakeInsert(front, x, key, k);
        assert Take(s, k) == Take(front, k);
        assert (Insert(front, x, key) + [last])[..k] == Insert(front, x, key)[..k];
      }
    }
  }
}
