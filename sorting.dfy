/** Python's `sorted(..., key=k, reverse=True)` / `list.sort(key=k,
    reverse=True)`: a stable sort by a key, largest key first. Stability means
    that elements with equal keys keep their input order. */
module Sorting {
  /** The elements of `s` whose key is `v`, in order. */
  function WithKey<T>(s: seq<T>, key: T -> int, v: int): (r: seq<T>)
    ensures |r| <= |s|
  {
    if s == [] then []
    else (if key(s[0]) == v then [s[0]] else []) + WithKey(s[1..], key, v)
  }

  predicate SortedDesc<T>(s: seq<T>, key: T -> int)
  {
    forall i, j :: 0 <= i < j < |s| ==> key(s[i]) >= key(s[j])
  }

  /** Puts `x` after every element whose key is at least `key(x)`. */
  function InsertDesc<T>(x: T, s: seq<T>, key: T -> int): (r: seq<T>)
    ensures |r| == |s| + 1
  {
    if s == [] then [x]
    else if key(s[0]) >= key(x) then [s[0]] + InsertDesc(x, s[1..], key)
    else [x] + s
  }

  /** Insertion sort that inserts each element after its equal-keyed
      predecessors. */
  function SortDesc<T>(s: seq<T>, key: T -> int): (r: seq<T>)
    ensures |r| == |s|
  {
    if s == [] then [] else InsertDesc(s[|s| - 1], SortDesc(s[..|s| - 1], key), key)
  }

  lemma {:induction false} WithKeyAppend<T>(a: seq<T>, b: seq<T>, key: T -> int, v: int)
    ensures WithKey(a + b, key, v) == WithKey(a, key, v) + WithKey(b, key, v)
    decreases |a|
  {
    if a == [] {
      assert a + b == b;
    } else {
      hide WithKey;
      var h := if key(a[0]) == v then [a[0]] else [];
      assert (a + b)[0] == a[0] && (a + b)[1..] == a[1..] + b;
      WithKeyCons(a + b, key, v);
      WithKeyCons(a, key, v);
      WithKeyAppend(a[1..], b, key, v);
      assert h + (WithKey(a[1..], key, v) + WithKey(b, key, v)) == (h + WithKey(a[1..], key, v)) + WithKey(b, key, v);
    }
  }

  lemma WithKeyCons<T>(s: seq<T>, key: T -> int, v: int)
    requires s != []
    ensures WithKey(s, key, v) == (if key(s[0]) == v then [s[0]] else []) + WithKey(s[1..], key, v)
  {
  }

  lemma {:induction false} SortedTail<T>(s: seq<T>, key: T -> int)
    requires s != [] && SortedDesc(s, key)
    ensures SortedDesc(s[1..], key)
    ensures forall i :: 0 <= i < |s| ==> key(s[i]) <= key(s[0])
  {
    forall i, j | 0 <= i < j < |s[1..]| ensures key(s[1..][i]) >= key(s[1..][j]) {
      assert s[1..][i] == s[i + 1] && s[1..][j] == s[j + 1];
    }
  }

  /** Inserting keeps every key under a common bound. */
  lemma {:induction false} InsertDescBound<T>(x: T, s: seq<T>, key: T -> int, m: int)
    requires key(x) <= m
    requires forall i :: 0 <= i < |s| ==> key(s[i]) <= m
    ensures forall i :: 0 <= i < |s| + 1 ==> key(InsertDesc(x, s, key)[i]) <= m
    decreases |s|
  {
    if s != [] && key(s[0]) >= key(x) {
      InsertDescBound(x, s[1..], key, m);
      var t := InsertDesc(x, s[1..], key);
      assert InsertDesc(x, s, key) == [s[0]] + t;
      forall i | 1 <= i < |s| + 1 ensures key(InsertDesc(x, s, key)[i]) <= m {
        assert InsertDesc(x, s, key)[i] == t[i - 1];
      }
    } else if s != [] {
      forall i | 1 <= i < |s| + 1 ensures key(InsertDesc(x, s, key)[i]) <= m {
        assert InsertDesc(x, s, key)[i] == s[i - 1];
      }
    }
  }

  lemma {:induction false} InsertDescSorted<T>(x: T, s: seq<T>, key: T -> int)
    requires SortedDesc(s, key)
    ensures SortedDesc(InsertDesc(x, s, key), key)
    decreases |s|
  {
    var r := InsertDesc(x, s, key);
    if s == [] {
    } else if key(s[0]) >= key(x) {
      SortedTail(s, key);
      InsertDescSorted(x, s[1..], key);
      var t := InsertDesc(x, s[1..], key);
      assert r == [s[0]] + t;
      InsertDescBound(x, s[1..], key, key(s[0]));
      forall i, j | 0 <= i < j < |r| ensures key(r[i]) >= key(r[j]) {
        assert r[j] == t[j - 1];
        if i > 0 { assert r[i] == t[i - 1]; }
      }
    } else {
      SortedTail(s, key);
      assert r == [x] + s;
      forall i, j | 0 <= i < j < |r| ensures key(r[i]) >= key(r[j]) {
        assert r[j] == s[j - 1];
        if i > 0 { assert r[i] == s[i - 1]; }
      }
    }
  }

  lemma {:induction false} InsertDescMultiset<T>(x: T, s: seq<T>, key: T -> int)
    ensures multiset(InsertDesc(x, s, key)) == multiset(s) + multiset{x}
    decreases |s|
  {
    if s != [] && key(s[0]) >= key(x) {
      InsertDescMultiset(x, s[1..], key);
      assert s == [s[0]] + s[1..];
    }
  }

  lemma {:induction false} InsertDescWithKey<T>(x: T, s: seq<T>, key: T -> int, v: int)
    requires SortedDesc(s, key)
    ensures WithKey(InsertDesc(x, s, key), key, v) == WithKey(s, key, v) + (if key(x) == v then [x] else [])
    decreases |s|
  {
    var r := InsertDesc(x, s, key);
    var e := if key(x) == v then [x] else [];
    if s == [] {
    } else if key(s[0]) >= key(x) {
      var h := if key(s[0]) == v then [s[0]] else [];
      SortedTail(s, key);
      InsertDescWithKey(x, s[1..], key, v);
      assert r == [s[0]] + InsertDesc(x, s[1..], key);
      hide WithKey, InsertDesc;
      assert r[0] == s[0] && r[1..] == InsertDesc(x, s[1..], key);
      WithKeyCons(r, key, v);
      WithKeyCons(s, key, v);
      assert h + (WithKey(s[1..], key, v) + e) == (h + WithKey(s[1..], key, v)) + e;
    } else {
      assert r == [x] + s;
      hide WithKey, InsertDesc;
      assert r[0] == x && r[1..] == s;
      WithKeyCons(r, key, v);
      if key(x) == v {
        WithKeyNoneAbove(s, key, v);
        assert WithKey(r, key, v) == e + [];
      }
    }
  }

  /** In a list sorted largest key first whose head key is below `v`, nothing
      has key `v`. */
  lemma {:induction false} WithKeyNoneAbove<T>(s: seq<T>, key: T -> int, v: int)
    requires SortedDesc(s, key)
    requires s != [] ==> key(s[0]) < v
    ensures WithKey(s, key, v) == []
    decreases |s|
  {
    if s != [] {
      SortedTail(s, key);
      WithKeyNoneAbove(s[1..], key, v);
    }
  }

  /** The sort orders its result largest key first. */
  lemma {:induction false} SortDescSorted<T>(s: seq<T>, key: T -> int)
    ensures SortedDesc(SortDesc(s, key), key)
    decreases |s|
  {
    if s != [] {
      SortDescSorted(s[..|s| - 1], key);
      InsertDescSorted(s[|s| - 1], SortDesc(s[..|s| - 1], key), key);
    }
  }

  /** The sort returns a permutation of its input. */
  lemma {:induction false} SortDescPermutation<T>(s: seq<T>, key: T -> int)
    ensures multiset(SortDesc(s, key)) == multiset(s)
    decreases |s|
  {
    if s != [] {
      SortDescPermutation(s[..|s| - 1], key);
      InsertDescMultiset(s[|s| - 1], SortDesc(s[..|s| - 1], key), key);
      assert s == s[..|s| - 1] + [s[|s| - 1]];
    }
  }

  /** The sort is stable: the elements with any one key come out in their
      input order. */
  lemma {:induction false} SortDescStable<T>(s: seq<T>, key: T -> int, v: int)
    ensures WithKey(SortDesc(s, key), key, v) == WithKey(s, key, v)
    decreases |s|
  {
    if s != [] {
      var init := s[..|s| - 1];
      var x := s[|s| - 1];
      SortDescStable(init, key, v);
      SortDescSorted(init, key);
      InsertDescWithKey(x, SortDesc(init, key), key, v);
      assert s == init + [x];
      WithKeyAppend(init, [x], key, v);
    }
  }
}
