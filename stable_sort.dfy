/**
 * The ordering that Array.prototype.sort gives with a date comparator: ascending
 * by key, and stable, so that rows with equal keys keep their input order.
 */
module StableSort {

  ghost predicate SortedBy<T>(s: seq<T>, key: T -> int) {
    forall i, j :: 0 <= i < j < |s| ==> key(s[i]) <= key(s[j])
  }

  /** The elements of s whose key is d, in their order in s. */
  function WithKey<T>(s: seq<T>, key: T -> int, d: int): seq<T> {
    if s == [] then []
    else (if key(s[0]) == d then [s[0]] else []) + WithKey(s[1..], key, d)
  }

  /** Puts x after every element whose key is not greater than its own. */
  function InsertBy<T>(s: seq<T>, x: T, key: T -> int): seq<T> {
    if s == [] then [x]
    else if key(x) < key(s[0]) then [x] + s
    else [s[0]] + InsertBy(s[1..], x, key)
  }

  /** Stable insertion sort, taking the elements in input order. */
  function SortBy<T>(s: seq<T>, key: T -> int): seq<T> {
    if s == [] then [] else InsertBy(SortBy(s[..|s| - 1], key), s[|s| - 1], key)
  }

  lemma {:induction false} WithKeyAppend<T>(a: seq<T>, b: seq<T>, key: T -> int, d: int)
    ensures WithKey(a + b, key, d) == WithKey(a, key, d) + WithKey(b, key, d)
  {
    if a != [] {
      WithKeyAppend(a[1..], b, key, d);
      assert (a + b)[1..] == a[1..] + b;
    } else {
      assert a + b == b;
    }
  }

  lemma {:induction false} WithKeyNone<T>(s: seq<T>, key: T -> int, d: int)
    requires forall i :: 0 <= i < |s| ==> key(s[i]) != d
    ensures WithKey(s, key, d) == []
  {
    if s != [] {
      WithKeyNone(s[1..], key, d);
    }
  }

  lemma {:induction false} InsertByPermutes<T>(s: seq<T>, x: T, key: T -> int)
    ensures multiset(InsertBy(s, x, key)) == multiset(s) + multiset{x}
  {
    if s != [] && key(s[0]) <= key(x) {
      InsertByPermutes(s[1..], x, key);
      assert s == [s[0]] + s[1..];
    }
  }

  lemma {:induction false} InsertBySorted<T>(s: seq<T>, x: T, key: T -> int)
    requires SortedBy(s, key)
    ensures SortedBy(InsertBy(s, x, key), key)
  {
    if s != [] && key(s[0]) <= key(x) {
      var t := InsertBy(s[1..], x, key);
      InsertBySorted(s[1..], x, key);
      InsertByPermutes(s[1..], x, key);
      var r := [s[0]] + t;
      forall j | 0 < j < |r| ensures key(r[0]) <= key(r[j]) {
        assert r[j] == t[j - 1];
        assert r[j] in multiset(s[1..]) + multiset{x};
        if r[j] != x {
          var m :| 0 <= m < |s[1..]| && s[1..][m] == r[j];
          assert s[1 + m] == r[j];
        }
      }
    }
  }

  lemma {:induction false} InsertByStable<T>(s: seq<T>, x: T, key: T -> int, d: int)
    requires SortedBy(s, key)
    ensures WithKey(InsertBy(s, x, key), key, d)
            == WithKey(s, key, d) + (if key(x) == d then [x] else [])
  {
    var r := InsertBy(s, x, key);
    var tail := if key(x) == d then [x] else [];
    if s == [] {
      assert r == [x] && r[1..] == [];
    } else if key(x) < key(s[0]) {
      assert r == [x] + s && r[1..] == s;
      if key(x) == d {
        WithKeyNone(s, key, d);
      }
    } else {
      var head := if key(s[0]) == d then [s[0]] else [];
      var t := InsertBy(s[1..], x, key);
      InsertByStable(s[1..], x, key, d);
      assert r == [s[0]] + t && r[1..] == t;
      calc {
        WithKey(r, key, d);
        head + WithKey(t, key, d);
        head + (WithKey(s[1..], key, d) + tail);
        (head + WithKey(s[1..], key, d)) + tail;
        WithKey(s, key, d) + tail;
      }
    }
  }

  /** The sort result is ordered by key. */
  lemma {:induction false} SortByIsSorted<T>(s: seq<T>, key: T -> int)
    ensures SortedBy(SortBy(s, key), key)
  {
    if s != [] {
      SortByIsSorted(s[..|s| - 1], key);
      InsertBySorted(SortBy(s[..|s| - 1], key), s[|s| - 1], key);
    }
  }

  /** The sort result holds the same elements as its input, each as often. */
  lemma {:induction false} SortByIsPermutation<T>(s: seq<T>, key: T -> int)
    ensures multiset(SortBy(s, key)) == multiset(s)
  {
    if s != [] {
      var init := s[..|s| - 1];
      SortByIsPermutation(init, key);
      InsertByPermutes(SortBy(init, key), s[|s| - 1], key);
      assert s == init + [s[|s| - 1]];
    }
  }

  /** Elements with equal keys keep their input order: the sort is stable. */
  lemma {:induction false} SortByIsStable<T>(s: seq<T>, key: T -> int, d: int)
    ensures WithKey(SortBy(s, key), key, d) == WithKey(s, key, d)
  {
    if s != [] {
      var init, last := s[..|s| - 1], s[|s| - 1];
      SortByIsStable(init, key, d);
      SortByIsSorted(init, key);
      InsertByStable(SortBy(init, key), last, key, d);
      WithKeySnoc(s, key, d);
    }
  }

  /** Taking one more element appends it to its key's list. */
  lemma WithKeySnoc<T>(s: seq<T>, key: T -> int, d: int)
    requires s != []
    ensures WithKey(s, key, d)
            == WithKey(s[..|s| - 1], key, d) + (if key(s[|s| - 1]) == d then [s[|s| - 1]] else [])
  {
    var init, last := s[..|s| - 1], s[|s| - 1];
    assert s == init + [last];
    WithKeyAppend(init, [last], key, d);
    assert [last][1..] == [];
  }

  lemma WithKeyLeading<T>(s: seq<T>, key: T -> int)
    requires s != []
    ensures WithKey(s, key, key(s[0])) != []
  {
  }

  /**
   * Sortedness and stability pin the result down: any two sequences that are
   * sorted by key and agree on every key's elements are equal.
   */
  lemma {:induction false} StableSortUnique<T>(r: seq<T>, t: seq<T>, key: T -> int)
    requires SortedBy(r, key) && SortedBy(t, key)
    requires forall d :: WithKey(r, key, d) == WithKey(t, key, d)
    ensures r == t
  {
    if r != [] && t != [] {
      if key(r[0]) < key(t[0]) {
        WithKeyNone(t, key, key(r[0]));
        assert false;
      } else if key(t[0]) < key(r[0]) {
        WithKeyNone(r, key, key(t[0]));
        assert false;
      }
      // the leading elements are the first of their key in both sequences
      assert WithKey(r, key, key(r[0]))[0] == r[0];
      assert WithKey(t, key, key(t[0]))[0] == t[0];
      forall e ensures WithKey(r[1..], key, e) == WithKey(t[1..], key, e) {
        var p := if key(r[0]) == e then [r[0]] else [];
        assert WithKey(r, key, e) == p + WithKey(r[1..], key, e);
        assert WithKey(t, key, e) == p + WithKey(t[1..], key, e);
        assert (p + WithKey(r[1..], key, e))[|p|..] == WithKey(r[1..], key, e);
        assert (p + WithKey(t[1..], key, e))[|p|..] == WithKey(t[1..], key, e);
      }
      StableSortUnique(r[1..], t[1..], key);
      assert r == [r[0]] + r[1..] && t == [t[0]] + t[1..];
    } else if r != [] {
      WithKeyLeading(r, key);
      assert false;
    } else if t != [] {
      WithKeyLeading(t, key);
      assert false;
    }
  }

  /** Input already in key order comes out unchanged. */
  lemma SortByKeepsSorted<T>(s: seq<T>, key: T -> int)
    requires SortedBy(s, key)
    ensures SortBy(s, key) == s
  {
    SortByIsSorted(s, key);
    forall d ensures WithKey(SortBy(s, key), key, d) == WithKey(s, key, d) {
      SortByIsStable(s, key, d);
    }
    StableSortUnique(SortBy(s, key), s, key);
  }
}
