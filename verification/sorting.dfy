/** A stable sort by an integer key, the behaviour of Rust's `sort_by` / `sort_by_key`. */
module Sorting {

  /** Inserts `x` in front of the first element whose key is not smaller. */
  function Insert<T>(x: T, s: seq<T>, key: T -> int): (r: seq<T>)
    ensures |r| == |s| + 1
    decreases |s|
  {
    if s == [] || key(x) <= key(s[0]) then [x] + s else [s[0]] + Insert(x, s[1..], key)
  }

  /** Insertion sort; an element is placed before every later element with the same key. */
  function SortBy<T>(s: seq<T>, key: T -> int): (r: seq<T>)
    ensures |r| == |s|
    decreases |s|
  {
    if s == [] then [] else Insert(s[0], SortBy(s[1..], key), key)
  }

  ghost predicate SortedBy<T>(s: seq<T>, key: T -> int) {
    forall i, j :: 0 <= i < j < |s| ==> key(s[i]) <= key(s[j])
  }

  /** The elements of `s` whose key is `k`, in their order in `s`. */
  function WithKey<T>(s: seq<T>, key: T -> int, k: int): seq<T>
    decreases |s|
  {
    if s == [] then []
    else (if key(s[0]) == k then [s[0]] else []) + WithKey(s[1..], key, k)
  }

  lemma {:induction false} InsertSorted<T>(x: T, s: seq<T>, key: T -> int)
    requires SortedBy(s, key)
    ensures SortedBy(Insert(x, s, key), key)
    ensures s == [] || key(Insert(x, s, key)[0]) == key(x) || key(Insert(x, s, key)[0]) == key(s[0])
    decreases |s|
  {
    if s != [] && key(x) > key(s[0]) {
      InsertSorted(x, s[1..], key);
      var r := Insert(x, s, key);
      assert r == [s[0]] + Insert(x, s[1..], key);
      forall i, j | 0 <= i < j < |r| ensures key(r[i]) <= key(r[j]) {
        if i == 0 {
          if j == 1 && s[1..] != [] {
            assert key(s[0]) <= key(s[1]);
          }
        }
      }
    }
  }

  lemma {:induction false} InsertElements<T>(x: T, s: seq<T>, key: T -> int)
    ensures forall y :: y in Insert(x, s, key) <==> y == x || y in s
    decreases |s|
  {
    if s != [] && key(x) > key(s[0]) {
      InsertElements(x, s[1..], key);
      assert forall y :: y in s <==> y == s[0] || y in s[1..];
    }
  }

  lemma {:induction false} InsertMultiset<T>(x: T, s: seq<T>, key: T -> int)
    ensures multiset(Insert(x, s, key)) == multiset{x} + multiset(s)
    decreases |s|
  {
    if s != [] && key(x) > key(s[0]) {
      InsertMultiset(x, s[1..], key);
      assert s == [s[0]] + s[1..];
    }
  }

  lemma WithKeyAppend<T>(a: seq<T>, b: seq<T>, key: T -> int, k: int)
    ensures WithKey(a + b, key, k) == WithKey(a, key, k) + WithKey(b, key, k)
    decreases |a|
  {
    if a != [] {
      assert (a + b)[1..] == a[1..] + b;
      WithKeyAppend(a[1..], b, key, k);
    } else {
      assert a + b == b;
    }
  }

  /** Inserting into a sorted sequence puts `x` ahead of every element with its key. */
  lemma {:induction false} InsertWithKey<T>(x: T, s: seq<T>, key: T -> int, k: int)
    requires SortedBy(s, key)
    ensures WithKey(Insert(x, s, key), key, k) ==
      (if key(x) == k then [x] else []) + WithKey(s, key, k)
    decreases |s|
  {
    if s != [] && key(x) > key(s[0]) {
      var tail := s[1..];
      assert SortedBy(tail, key);
      InsertWithKey(x, tail, key, k);
      var xs: seq<T> := if key(x) == k then [x] else [];
      var hs: seq<T> := if key(s[0]) == k then [s[0]] else [];
      assert xs == [] || hs == [];
      calc {
        WithKey(Insert(x, s, key), key, k);
        WithKey([s[0]] + Insert(x, tail, key), key, k);
        { WithKeyAppend([s[0]], Insert(x, tail, key), key, k); }
        WithKey([s[0]], key, k) + WithKey(Insert(x, tail, key), key, k);
        hs + (xs + WithKey(tail, key, k));
        xs + (hs + WithKey(tail, key, k));
        { WithKeyAppend([s[0]], tail, key, k); assert s == [s[0]] + tail; }
        xs + WithKey(s, key, k);
      }
    } else {
      WithKeyAppend([x], s, key, k);
    }
  }

  /** `SortBy` yields a sequence ordered by key. */
  lemma {:induction false} SortBySorted<T>(s: seq<T>, key: T -> int)
    ensures SortedBy(SortBy(s, key), key)
    decreases |s|
  {
    if s != [] {
      SortBySorted(s[1..], key);
      InsertSorted(s[0], SortBy(s[1..], key), key);
    }
  }

  /** `SortBy` is a permutation of its input. */
  lemma {:induction false} SortByPermutes<T>(s: seq<T>, key: T -> int)
    ensures multiset(SortBy(s, key)) == multiset(s)
    decreases |s|
  {
    if s != [] {
      SortByPermutes(s[1..], key);
      InsertMultiset(s[0], SortBy(s[1..], key), key);
      assert s == [s[0]] + s[1..];
    }
  }

  /** `SortBy` is stable: the elements sharing a key keep their relative order. */
  lemma {:induction false} SortByStable<T>(s: seq<T>, key: T -> int, k: int)
    ensures WithKey(SortBy(s, key), key, k) == WithKey(s, key, k)
    decreases |s|
  {
    if s != [] {
      SortByStable(s[1..], key, k);
      SortBySorted(s[1..], key);
      InsertWithKey(s[0], SortBy(s[1..], key), key, k);
    }
  }

  lemma {:induction false} WithKeyElements<T>(s: seq<T>, key: T -> int, k: int)
    ensures forall y :: y in WithKey(s, key, k) <==> y in s && key(y) == k
    decreases |s|
  {
    if s != [] {
      WithKeyElements(s[1..], key, k);
      assert forall y :: y in s <==> y == s[0] || y in s[1..];
    }
  }

  /** Index of the first element of `s` with the smallest key. */
  function FirstMinIndex<T>(s: seq<T>, key: T -> int): (i: nat)
    requires s != []
    ensures i < |s|
    ensures forall j :: 0 <= j < |s| ==> key(s[i]) <= key(s[j])
    ensures forall j :: 0 <= j < i ==> key(s[j]) > key(s[i])
    decreases |s|
  {
    if |s| == 1 then 0
    else
      var m := FirstMinIndex(s[1..], key);
      if key(s[0]) <= key(s[1..][m]) then 0 else m + 1
  }

  lemma {:induction false} WithKeyHead<T>(s: seq<T>, key: T -> int, i: nat)
    requires i < |s|
    requires forall j :: 0 <= j < i ==> key(s[j]) != key(s[i])
    ensures WithKey(s, key, key(s[i])) != [] && WithKey(s, key, key(s[i]))[0] == s[i]
    decreases i
  {
    if i > 0 {
      WithKeyHead(s[1..], key, i - 1);
    }
  }

  /** The head of the sorted sequence is the first element of the input with the least key. */
  lemma SortByHead<T>(s: seq<T>, key: T -> int)
    requires s != []
    ensures SortBy(s, key)[0] == s[FirstMinIndex(s, key)]
  {
    var r := SortBy(s, key);
    var m := FirstMinIndex(s, key);
    var k := key(s[m]);
    SortBySorted(s, key);
    SortByPermutes(s, key);
    SortByStable(s, key, k);
    assert s[m] in multiset(s);
    assert r[0] in multiset(r);
    var j :| 0 <= j < |s| && s[j] == r[0];
    assert s[m] in r;
    var p :| 0 <= p < |r| && r[p] == s[m];
    assert key(r[0]) <= key(r[p]);
    assert key(r[0]) == k;
    WithKeyHead(r, key, 0);
    WithKeyHead(s, key, m);
  }
}
