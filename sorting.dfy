/** Python's `sorted(xs, key=k)` for an integer key: ascending and stable
    (elements with equal keys keep their input order). Modelled as an insertion
    sort, with lemmas that its result is sorted, is a permutation of its input,
    and keeps the relative order of every group of equal keys. */
module Sorting {

  ghost predicate SortedByKey<T>(s: seq<T>, key: T -> int)
  {
    forall i, j :: 0 <= i < j < |s| ==> key(s[i]) <= key(s[j])
  }

  /** The elements of `s` whose key is `v`, in their order in `s`. */
  function WithKey<T>(s: seq<T>, key: T -> int, v: int): seq<T>
    decreases |s|
  {
    if s == [] then []
    else (if key(s[0]) == v then [s[0]] else []) + WithKey(s[1..], key, v)
  }

  /** Places `x` before the first element whose key is not smaller than its own. */
  function InsertByKey<T>(x: T, s: seq<T>, key: T -> int): seq<T>
    decreases |s|
  {
    if s == [] || key(x) <= key(s[0]) then [x] + s
    else [s[0]] + InsertByKey(x, s[1..], key)
  }

  function SortByKey<T>(s: seq<T>, key: T -> int): seq<T>
    decreases |s|
  {
    if s == [] then [] else InsertByKey(s[0], SortByKey(s[1..], key), key)
  }

  lemma {:induction false} WithKeyCons<T>(x: T, s: seq<T>, key: T -> int, v: int)
    ensures WithKey([x] + s, key, v) == (if key(x) == v then [x] else []) + WithKey(s, key, v)
  {
    assert ([x] + s)[1..] == s;
  }

  lemma {:induction false} InsertKeepsElements<T>(x: T, s: seq<T>, key: T -> int)
    ensures multiset(InsertByKey(x, s, key)) == multiset([x] + s)
    ensures |InsertByKey(x, s, key)| == |s| + 1
    decreases |s|
  {
    if s != [] && key(x) > key(s[0]) {
      InsertKeepsElements(x, s[1..], key);
      assert s == [s[0]] + s[1..];
    }
  }

  lemma {:induction false} InsertKeepsSorted<T>(x: T, s: seq<T>, key: T -> int)
    requires SortedByKey(s, key)
    ensures SortedByKey(InsertByKey(x, s, key), key)
    ensures forall i :: 0 <= i < |InsertByKey(x, s, key)| ==>
              key(InsertByKey(x, s, key)[i]) >= (if s == [] || key(x) <= key(s[0]) then key(x) else key(s[0]))
    decreases |s|
  {
    var r := InsertByKey(x, s, key);
    if s != [] && key(x) > key(s[0]) {
      InsertKeepsSorted(x, s[1..], key);
      InsertKeepsElements(x, s[1..], key);
      var t := InsertByKey(x, s[1..], key);
      assert r == [s[0]] + t;
      forall i | 0 <= i < |t| ensures key(t[i]) >= key(s[0]) {
        if s[1..] != [] && key(x) > key(s[1..][0]) {
          assert key(t[i]) >= key(s[1]);
        }
      }
    }
  }

  /** Inserting `x` in front of the elements whose keys are not smaller keeps the
      order of each group of equal keys, with `x` first among its own group. */
  lemma {:induction false} InsertIsStable<T>(x: T, s: seq<T>, key: T -> int, v: int)
    ensures WithKey(InsertByKey(x, s, key), key, v) == WithKey([x] + s, key, v)
    decreases |s|
  {
    if s != [] && key(x) > key(s[0]) {
      var t := InsertByKey(x, s[1..], key);
      var rest := WithKey(s[1..], key, v);
      var fx := if key(x) == v then [x] else [];
      var f0 := if key(s[0]) == v then [s[0]] else [];
      assert WithKey(InsertByKey(x, s, key), key, v) == f0 + (fx + rest) by {
        assert InsertByKey(x, s, key) == [s[0]] + t;
        InsertIsStable(x, s[1..], key, v);
        WithKeyCons(s[0], t, key, v);
        WithKeyCons(x, s[1..], key, v);
      }
      assert WithKey([x] + s, key, v) == fx + (f0 + rest) by {
        WithKeyCons(x, s, key, v);
        assert s == [s[0]] + s[1..];
        WithKeyCons(s[0], s[1..], key, v);
      }
      assert f0 == [] || fx == [];
    }
  }

  /** `SortByKey` returns the input's elements in ascending key order. */
  lemma {:induction false} SortIsSortedPermutation<T>(s: seq<T>, key: T -> int)
    ensures SortedByKey(SortByKey(s, key), key)
    ensures multiset(SortByKey(s, key)) == multiset(s)
    ensures |SortByKey(s, key)| == |s|
    decreases |s|
  {
    if s != [] {
      SortIsSortedPermutation(s[1..], key);
      InsertKeepsSorted(s[0], SortByKey(s[1..], key), key);
      InsertKeepsElements(s[0], SortByKey(s[1..], key), key);
      assert s == [s[0]] + s[1..];
    }
  }

  /** `SortByKey` is stable: for every key value, the elements carrying it come out
      in the order they went in. */
  lemma {:induction false} SortIsStable<T>(s: seq<T>, key: T -> int, v: int)
    ensures WithKey(SortByKey(s, key), key, v) == WithKey(s, key, v)
    decreases |s|
  {
    if s != [] {
      SortIsStable(s[1..], key, v);
      InsertIsStable(s[0], SortByKey(s[1..], key), key, v);
      WithKeyCons(s[0], SortByKey(s[1..], key), key, v);
      WithKeyCons(s[0], s[1..], key, v);
      assert s == [s[0]] + s[1..];
    }
  }
}
