/**
 * Python's `sorted` and `list.sort` are stable (Timsort). Every sort in the
 * model compares one integer key (a day number), so it is modelled as a
 * stable insertion sort by that key.
 */
module StableSort {

  predicate SortedBy<T>(s: seq<T>, key: T -> int)
  {
    forall i, j :: 0 <= i < j < |s| ==> key(s[i]) <= key(s[j])
  }

  /** Places `x` after every element whose key is not greater than its own. */
  function InsertByKey<T>(s: seq<T>, x: T, key: T -> int): seq<T>
  {
    if s == [] then [x]
    else if key(x) < key(s[|s| - 1]) then InsertByKey(s[..|s| - 1], x, key) + [s[|s| - 1]]
    else s + [x]
  }

  /** `sorted(s, key=key)`. */
  function SortByKey<T>(s: seq<T>, key: T -> int): seq<T>
  {
    if s == [] then [] else InsertByKey(SortByKey(s[..|s| - 1], key), s[|s| - 1], key)
  }

  /** The elements of `s` with key `k`, in their order in `s`. */
  function WithKey<T>(s: seq<T>, key: T -> int, k: int): seq<T>
  {
    if s == [] then []
    else WithKey(s[..|s| - 1], key, k) + (if key(s[|s| - 1]) == k then [s[|s| - 1]] else [])
  }

  lemma {:induction false} InsertByKeyPermutes<T>(s: seq<T>, x: T, key: T -> int)
    ensures multiset(InsertByKey(s, x, key)) == multiset(s) + multiset{x}
  {
    if s != [] && key(x) < key(s[|s| - 1]) {
      InsertByKeyPermutes(s[..|s| - 1], x, key);
      assert s == s[..|s| - 1] + [s[|s| - 1]];
    }
  }

  lemma {:induction false} InsertByKeySorted<T>(s: seq<T>, x: T, key: T -> int)
    requires SortedBy(s, key)
    ensures SortedBy(InsertByKey(s, x, key), key)
  {
    if s != [] && key(x) < key(s[|s| - 1]) {
      var init, last := s[..|s| - 1], s[|s| - 1];
      InsertByKeySorted(init, x, key);
      InsertByKeyPermutes(init, x, key);
      var r := InsertByKey(init, x, key);
      forall i | 0 <= i < |r|
        ensures key(r[i]) <= key(last)
      {
        assert r[i] in multiset(init) + multiset{x};
        if r[i] != x {
          var j :| 0 <= j < |init| && init[j] == r[i];
          assert key(s[j]) <= key(s[|s| - 1]);
        }
      }
    }
  }

  lemma {:induction false} InsertByKeyKeepsHead<T>(s: seq<T>, x: T, key: T -> int)
    requires |s| > 0 && key(s[0]) <= key(x)
    ensures InsertByKey(s, x, key)[0] == s[0]
  {
    if |s| > 1 && key(x) < key(s[|s| - 1]) {
      InsertByKeyKeepsHead(s[..|s| - 1], x, key);
    }
  }

  lemma {:induction false} InsertByKeyWithKey<T>(s: seq<T>, x: T, key: T -> int, k: int)
    ensures WithKey(InsertByKey(s, x, key), key, k)
            == WithKey(s, key, k) + (if key(x) == k then [x] else [])
  {
    if s == [] {
      assert [x][..0] == [];
    } else if key(x) < key(s[|s| - 1]) {
      var init, last := s[..|s| - 1], s[|s| - 1];
      InsertByKeyWithKey(init, x, key, k);
      var r := InsertByKey(init, x, key);
      assert (r + [last])[..|r|] == r;
    } else {
      assert (s + [x])[..|s|] == s;
    }
  }

  /** The sort's output is ordered by key and is a permutation of its input. */
  lemma {:induction false} SortByKeyProperties<T>(s: seq<T>, key: T -> int)
    ensures SortedBy(SortByKey(s, key), key)
    ensures multiset(SortByKey(s, key)) == multiset(s)
    ensures |SortByKey(s, key)| == |s|
  {
    if s != [] {
      var init := s[..|s| - 1];
      assert s == init + [s[|s| - 1]];
      SortByKeyProperties(init, key);
      InsertByKeySorted(SortByKey(init, key), s[|s| - 1], key);
      InsertByKeyPermutes(SortByKey(init, key), s[|s| - 1], key);
      assert |SortByKey(s, key)| == |multiset(SortByKey(s, key))|;
    }
  }

  /** Stability: elements with equal keys keep their relative order. */
  lemma {:induction false} SortByKeyIsStable<T>(s: seq<T>, key: T -> int, k: int)
    ensures WithKey(SortByKey(s, key), key, k) == WithKey(s, key, k)
  {
    if s != [] {
      SortByKeyIsStable(s[..|s| - 1], key, k);
      InsertByKeyWithKey(SortByKey(s[..|s| - 1], key), s[|s| - 1], key, k);
    }
  }

  /** An input that is already ordered comes back unchanged. */
  lemma {:induction false} SortByKeyOfSorted<T>(s: seq<T>, key: T -> int)
    requires SortedBy(s, key)
    ensures SortByKey(s, key) == s
  {
    if s != [] {
      var init := s[..|s| - 1];
      assert SortedBy(init, key);
      SortByKeyOfSorted(init, key);
      assert s == init + [s[|s| - 1]];
    }
  }

  /** An element that comes first and has the least key stays first. */
  lemma {:induction false} SortByKeyKeepsLeastHead<T>(s: seq<T>, key: T -> int)
    requires |s| > 0
    requires forall i :: 0 <= i < |s| ==> key(s[0]) <= key(s[i])
    ensures SortByKey(s, key)[0] == s[0]
  {
    if |s| > 1 {
      var init := s[..|s| - 1];
      SortByKeyKeepsLeastHead(init, key);
      InsertByKeyKeepsHead(SortByKey(init, key), s[|s| - 1], key);
    }
  }

  /** An ordered sequence without its last element is ordered, and that element is not below the one before. */
  lemma SortedInit<T>(s: seq<T>, key: T -> int)
    requires SortedBy(s, key) && |s| >= 2
    ensures SortedBy(s[..|s| - 1], key) && key(s[|s| - 2]) <= key(s[|s| - 1])
  {
  }

  /** Appending an element whose key is not below the last one keeps a sequence ordered. */
  lemma SortedAppend<T>(r: seq<T>, x: T, key: T -> int)
    requires SortedBy(r, key) && (r != [] ==> key(r[|r| - 1]) <= key(x))
    ensures SortedBy(r + [x], key)
  {
  }

  /** Replacing the last element by one with the same key keeps a sequence ordered. */
  lemma SortedReplaceLast<T>(r: seq<T>, x: T, key: T -> int)
    requires SortedBy(r, key) && r != [] && key(x) == key(r[|r| - 1])
    ensures SortedBy(r[..|r| - 1] + [x], key)
  {
  }

  /**
   * Two sequences that are permutations of each other and begin with the
   * same element hold the same elements after it.
   */
  lemma SameTail<T>(r: seq<T>, s: seq<T>)
    requires |r| == |s| > 0 && multiset(r) == multiset(s) && r[0] == s[0]
    ensures forall j :: 1 <= j < |r| ==> r[j] in s[1..]
    ensures forall x :: x in s[1..] ==> exists j :: 1 <= j < |r| && r[j] == x
  {
    assert s == [s[0]] + s[1..];
    assert r == [r[0]] + r[1..];
    assert multiset(s) == multiset{s[0]} + multiset(s[1..]);
    assert multiset(r) == multiset{r[0]} + multiset(r[1..]);
    forall x
      ensures multiset(r[1..])[x] == multiset(s[1..])[x]
    {
      assert multiset(r)[x] == multiset{r[0]}[x] + multiset(r[1..])[x];
      assert multiset(s)[x] == multiset{s[0]}[x] + multiset(s[1..])[x];
    }
    assert multiset(r[1..]) == multiset(s[1..]);
    forall j | 1 <= j < |r|
      ensures r[j] in s[1..]
    {
      assert r[j] == r[1..][j - 1];
      assert r[j] in multiset(s[1..]);
    }
    forall x | x in s[1..]
      ensures exists j :: 1 <= j < |r| && r[j] == x
    {
      assert x in multiset(r[1..]);
      var j :| 0 <= j < |r[1..]| && r[1..][j] == x;
      assert r[j + 1] == x;
    }
  }
}
