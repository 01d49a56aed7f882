// A stable sort by an integer key.  JavaScript's `Array.prototype.sort` is
// stable, so the profile page's "oldest first" ordering keeps trips with the
// same timestamp in their stored order; the server's `ORDER BY created_at DESC`
// is modelled by the same sort on the negated key.

module Sorting {
  import opened Common

  predicate SortedBy<T>(s: seq<T>, key: T -> int)
  {
    forall i, j :: 0 <= i < j < |s| ==> key(s[i]) <= key(s[j])
  }

  /** The elements of `s` whose key is `k`, in their order in `s`. */
  function WithKey<T>(s: seq<T>, key: T -> int, k: int): seq<T>
  {
    if s == [] then [] else (if key(s[0]) == k then [s[0]] else []) + WithKey(s[1..], key, k)
  }

  /** Inserts `x` in front of the first element whose key is not smaller. */
  function InsertBy<T>(x: T, s: seq<T>, key: T -> int): (r: seq<T>)
    ensures |r| == |s| + 1
    ensures multiset(r) == multiset(s) + multiset{x}
  {
    if s == [] || key(x) <= key(s[0]) then [x] + s
    else
      assert s == [s[0]] + s[1..];
      [s[0]] + InsertBy(x, s[1..], key)
  }

  /** Insertion sort: stable, ascending by `key`. */
  function SortBy<T>(s: seq<T>, key: T -> int): (r: seq<T>)
    ensures multiset(r) == multiset(s)
    ensures |r| == |s|
  {
    if s == [] then []
    else
      assert s == [s[0]] + s[1..];
      InsertBy(s[0], SortBy(s[1..], key), key)
  }

  /** Inserting an element no smaller than `b` into elements no smaller than `b` keeps them so. */
  lemma {:induction false} InsertByLowerBound<T>(x: T, s: seq<T>, key: T -> int, b: int)
    requires b <= key(x)
    requires forall i :: 0 <= i < |s| ==> b <= key(s[i])
    ensures forall i :: 0 <= i < |InsertBy(x, s, key)| ==> b <= key(InsertBy(x, s, key)[i])
  {
    var r := InsertBy(x, s, key);
    if s == [] || key(x) <= key(s[0]) {
      forall i | 0 < i < |r|
        ensures b <= key(r[i])
      {
        assert r[i] == s[i - 1];
      }
    } else {
      var t := InsertBy(x, s[1..], key);
      InsertByLowerBound(x, s[1..], key, b);
      forall i | 0 < i < |r|
        ensures b <= key(r[i])
      {
        assert r[i] == t[i - 1];
      }
    }
  }

  lemma {:induction false} InsertBySorted<T>(x: T, s: seq<T>, key: T -> int)
    requires SortedBy(s, key)
    ensures SortedBy(InsertBy(x, s, key), key)
  {
    var r := InsertBy(x, s, key);
    if s == [] || key(x) <= key(s[0]) {
      forall i, j | 0 <= i < j < |r|
        ensures key(r[i]) <= key(r[j])
      {
        assert r[j] == s[j - 1];
        if i > 0 {
          assert r[i] == s[i - 1];
        }
      }
    } else {
      var t := InsertBy(x, s[1..], key);
      assert SortedBy(s[1..], key);
      InsertBySorted(x, s[1..], key);
      InsertByLowerBound(x, s[1..], key, key(s[0]));
      forall i, j | 0 <= i < j < |r|
        ensures key(r[i]) <= key(r[j])
      {
        assert r[j] == t[j - 1];
        if i > 0 {
          assert r[i] == t[i - 1];
        }
      }
    }
  }

  /** The result of `SortBy` is in ascending key order. */
  lemma {:induction false} SortBySorted<T>(s: seq<T>, key: T -> int)
    ensures SortedBy(SortBy(s, key), key)
  {
    if s != [] {
      SortBySorted(s[1..], key);
      InsertBySorted(s[0], SortBy(s[1..], key), key);
    }
  }

  lemma WithKeyCons<T>(h: T, t: seq<T>, key: T -> int, k: int)
    ensures WithKey([h] + t, key, k) == (if key(h) == k then [h] else []) + WithKey(t, key, k)
  {
    assert ([h] + t)[0] == h;
    assert ([h] + t)[1..] == t;
  }

  lemma {:induction false} InsertByWithKey<T>(x: T, s: seq<T>, key: T -> int, k: int)
    ensures WithKey(InsertBy(x, s, key), key, k)
         == (if key(x) == k then [x] else []) + WithKey(s, key, k)
  {
    if s == [] || key(x) <= key(s[0]) {
      WithKeyCons(x, s, key, k);
    } else {
      var t := InsertBy(x, s[1..], key);
      InsertByWithKey(x, s[1..], key, k);
      assert InsertBy(x, s, key) == [s[0]] + t;
      WithKeyCons(s[0], t, key, k);
      // x goes after s[0], whose key is smaller: at most one of them is collected
      if key(x) == k {
        assert WithKey(t, key, k) == [x] + WithKey(s[1..], key, k);
        assert WithKey([s[0]] + t, key, k) == WithKey(t, key, k);
        assert WithKey(s, key, k) == WithKey(s[1..], key, k);
      } else if key(s[0]) == k {
        assert WithKey(t, key, k) == WithKey(s[1..], key, k);
        assert WithKey([s[0]] + t, key, k) == [s[0]] + WithKey(t, key, k);
      } else {
        assert WithKey(t, key, k) == WithKey(s[1..], key, k);
        assert WithKey([s[0]] + t, key, k) == WithKey(t, key, k);
      }
    }
  }

  /**
   * Stability: for every key value, the elements carrying it appear in the
   * sorted result in the same order as in the input.
   */
  lemma {:induction false} SortByStable<T>(s: seq<T>, key: T -> int, k: int)
    ensures WithKey(SortBy(s, key), key, k) == WithKey(s, key, k)
  {
    if s != [] {
      SortByStable(s[1..], key, k);
      InsertByWithKey(s[0], SortBy(s[1..], key), key, k);
    }
  }

  // ---------------------------------------------------------------------
  // Sorting by a text key: `keys.sort()` and `a.code.localeCompare(b.code)`
  // on ASCII keys both order by character code.

  predicate SortedByText<T>(s: seq<T>, key: T -> string)
  {
    forall i, j :: 0 <= i < j < |s| ==> !StrLess(key(s[j]), key(s[i]))
  }

  function InsertByText<T>(x: T, s: seq<T>, key: T -> string): (r: seq<T>)
    ensures |r| == |s| + 1
    ensures multiset(r) == multiset(s) + multiset{x}
  {
    if s == [] || !StrLess(key(s[0]), key(x)) then [x] + s
    else
      assert s == [s[0]] + s[1..];
      [s[0]] + InsertByText(x, s[1..], key)
  }

  function SortByText<T>(s: seq<T>, key: T -> string): (r: seq<T>)
    ensures multiset(r) == multiset(s)
    ensures |r| == |s|
  {
    if s == [] then []
    else
      assert s == [s[0]] + s[1..];
      InsertByText(s[0], SortByText(s[1..], key), key)
  }

  /** Inserting an element not below `b` into elements not below `b` keeps them so. */
  lemma {:induction false} InsertByTextLowerBound<T>(x: T, s: seq<T>, key: T -> string, b: string)
    requires !StrLess(key(x), b)
    requires forall i :: 0 <= i < |s| ==> !StrLess(key(s[i]), b)
    ensures forall i :: 0 <= i < |InsertByText(x, s, key)| ==> !StrLess(key(InsertByText(x, s, key)[i]), b)
  {
    var r := InsertByText(x, s, key);
    if s == [] || !StrLess(key(s[0]), key(x)) {
      forall i | 0 < i < |r|
        ensures !StrLess(key(r[i]), b)
      {
        assert r[i] == s[i - 1];
      }
    } else {
      var t := InsertByText(x, s[1..], key);
      InsertByTextLowerBound(x, s[1..], key, b);
      forall i | 0 < i < |r|
        ensures !StrLess(key(r[i]), b)
      {
        assert r[i] == t[i - 1];
      }
    }
  }

  lemma {:induction false} InsertByTextSorted<T>(x: T, s: seq<T>, key: T -> string)
    requires SortedByText(s, key)
    ensures SortedByText(InsertByText(x, s, key), key)
  {
    var r := InsertByText(x, s, key);
    if s == [] || !StrLess(key(s[0]), key(x)) {
      forall i, j | 0 <= i < j < |r|
        ensures !StrLess(key(r[j]), key(r[i]))
      {
        if i == 0 {
          assert r[j] == s[j - 1];
          if StrLess(key(s[j - 1]), key(x)) {
            if j - 1 > 0 {
              StrLessTotal(key(s[0]), key(s[j - 1]));
              if StrLess(key(s[0]), key(s[j - 1])) {
                StrLessTransitive(key(s[0]), key(s[j - 1]), key(x));
              }
            }
          }
        } else {
          assert r[i] == s[i - 1] && r[j] == s[j - 1];
        }
      }
    } else {
      var t := InsertByText(x, s[1..], key);
      assert SortedByText(s[1..], key);
      InsertByTextSorted(x, s[1..], key);
      if StrLess(key(x), key(s[0])) {
        StrLessTransitive(key(x), key(s[0]), key(x));
        StrLessIrreflexive(key(x));
      }
      InsertByTextLowerBound(x, s[1..], key, key(s[0]));
      forall i, j | 0 <= i < j < |r|
        ensures !StrLess(key(r[j]), key(r[i]))
      {
        assert r[j] == t[j - 1];
        if i > 0 {
          assert r[i] == t[i - 1];
        }
      }
    }
  }

  /** The result of `SortByText` is in ascending order of its text key. */
  lemma {:induction false} SortByTextSorted<T>(s: seq<T>, key: T -> string)
    ensures SortedByText(SortByText(s, key), key)
  {
    if s != [] {
      SortByTextSorted(s[1..], key);
      InsertByTextSorted(s[0], SortByText(s[1..], key), key);
    }
  }
}
