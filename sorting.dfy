/** A stable insertion sort by a real-valued key.

    It models JavaScript's `Array.prototype.sort` called with a numeric
    comparator `(a, b) => key(a) - key(b)`: that sort is stable since
    ECMAScript 2019, so elements with equal keys keep their original order.
    A descending sort `(a, b) => key(b) - key(a)` is `SortBy` with the
    negated key. */
module Sorting {

  /** `s` is ordered by `key`, non-decreasing. */
  ghost predicate SortedBy<T>(s: seq<T>, key: T -> real) {
    forall i, j :: 0 <= i < j < |s| ==> key(s[i]) <= key(s[j])
  }

  /** Inserts `x` after every element whose key is not greater than its own. */
  function Insert<T>(x: T, s: seq<T>, key: T -> real): (r: seq<T>)
    ensures multiset(r) == multiset(s) + multiset{x}
    ensures |r| == |s| + 1
  {
    if s == [] || key(x) < key(s[0]) then [x] + s
    else
      assert s == [s[0]] + s[1..];
      [s[0]] + Insert(x, s[1..], key)
  }

  /** Every element of `Insert(x, s, key)` is `x` or an element of `s`. */
  lemma InsertElement<T>(x: T, s: seq<T>, key: T -> real, y: T)
    requires y in Insert(x, s, key)
    ensures y == x || y in s
  {
    assert y in multiset(Insert(x, s, key));
  }

  /** Insertion keeps an ordered sequence ordered. */
  lemma {:induction false} InsertSorted<T>(x: T, s: seq<T>, key: T -> real)
    requires SortedBy(s, key)
    ensures SortedBy(Insert(x, s, key), key)
  {
    if s != [] && key(x) >= key(s[0]) {
      var rest := Insert(x, s[1..], key);
      InsertSorted(x, s[1..], key);
      forall j | 0 <= j < |rest| ensures key(s[0]) <= key(rest[j]) {
        InsertElement(x, s[1..], key, rest[j]);
      }
    }
  }

  /** The elements of `s`, ordered by `key`; equal keys keep their order. */
  function SortBy<T>(s: seq<T>, key: T -> real): (r: seq<T>)
    ensures SortedBy(r, key)
    ensures multiset(r) == multiset(s)
    ensures |r| == |s|
  {
    if s == [] then []
    else
      assert s == s[..|s| - 1] + [s[|s| - 1]];
      var init := SortBy(s[..|s| - 1], key);
      InsertSorted(s[|s| - 1], init, key);
      Insert(s[|s| - 1], init, key)
  }

  /** Sorting keeps exactly the elements it was given. */
  lemma SortByElements<T>(s: seq<T>, key: T -> real, x: T)
    ensures x in SortBy(s, key) <==> x in s
  {
    var r := SortBy(s, key);
    assert x in r <==> x in multiset(r);
    assert x in s <==> x in multiset(s);
  }

  /** Inserting an element whose key is not below any key of `s` appends it. */
  lemma {:induction false} InsertLast<T>(x: T, s: seq<T>, key: T -> real)
    requires SortedBy(s, key)
    requires forall i :: 0 <= i < |s| ==> key(s[i]) <= key(x)
    ensures Insert(x, s, key) == s + [x]
  {
    if s != [] {
      InsertLast(x, s[1..], key);
      assert s == [s[0]] + s[1..];
    }
  }

  /** A non-empty sequence is its initial part followed by its last element. */
  lemma InitLast<T>(s: seq<T>)
    requires s != []
    ensures s[..|s| - 1] + [s[|s| - 1]] == s
  {
  }

  /** Concatenation is associative. */
  lemma AppendAssoc<T>(a: seq<T>, b: seq<T>, c: seq<T>)
    ensures a + (b + c) == (a + b) + c
  {
  }

  /** A prefix of an ordered sequence is ordered, and its keys are at most
      those of the elements after it. */
  lemma SortedPrefix<T>(s: seq<T>, n: nat, key: T -> real)
    requires SortedBy(s, key) && n < |s|
    ensures SortedBy(s[..n], key)
    ensures forall i :: 0 <= i < n ==> key(s[..n][i]) <= key(s[n])
  {
    forall i, j | 0 <= i < j < n ensures key(s[..n][i]) <= key(s[..n][j]) {
      assert s[..n][i] == s[i] && s[..n][j] == s[j];
    }
    forall i | 0 <= i < n ensures key(s[..n][i]) <= key(s[n]) {
      assert s[..n][i] == s[i];
    }
  }

  /** An input that is already ordered comes back unchanged. */
  lemma {:induction false} SortBySorted<T>(s: seq<T>, key: T -> real)
    requires SortedBy(s, key)
    ensures SortBy(s, key) == s
  {
    if s != [] {
      var init, last := s[..|s| - 1], s[|s| - 1];
      SortedPrefix(s, |s| - 1, key);
      SortBySorted(init, key);
      InsertLast(last, init, key);
      calc {
        SortBy(s, key);
        Insert(last, SortBy(init, key), key);
        Insert(last, init, key);
        init + [last];
        { InitLast(s); }
        s;
      }
    }
  }

  /** The elements of `s` whose key is `k`, in their order in `s`. */
  function WithKey<T>(s: seq<T>, key: T -> real, k: real): seq<T> {
    if s == [] then []
    else (if key(s[0]) == k then [s[0]] else []) + WithKey(s[1..], key, k)
  }

  lemma {:induction false} WithKeyAppend<T>(a: seq<T>, b: seq<T>, key: T -> real, k: real)
    ensures WithKey(a + b, key, k) == WithKey(a, key, k) + WithKey(b, key, k)
  {
    if a == [] {
      assert a + b == b;
    } else {
      var head := if key(a[0]) == k then [a[0]] else [];
      assert (a + b)[0] == a[0];
      assert (a + b)[1..] == a[1..] + b;
      WithKeyAppend(a[1..], b, key, k);
      assert WithKey(a + b, key, k) == head + (WithKey(a[1..], key, k) + WithKey(b, key, k));
      AppendAssoc(head, WithKey(a[1..], key, k), WithKey(b, key, k));
    }
  }

  /** An ordered sequence whose first key is above `k` has no element with key `k`. */
  lemma {:induction false} WithKeyAbove<T>(s: seq<T>, key: T -> real, k: real)
    requires SortedBy(s, key)
    requires s != [] ==> key(s[0]) > k
    ensures WithKey(s, key, k) == []
  {
    if s != [] {
      assert SortedBy(s[1..], key) by {
        forall i, j | 0 <= i < j < |s[1..]| ensures key(s[1..][i]) <= key(s[1..][j]) {
          assert s[1..][i] == s[i + 1] && s[1..][j] == s[j + 1];
        }
      }
      if |s| > 1 {
        assert key(s[0]) <= key(s[1]);
      }
      WithKeyAbove(s[1..], key, k);
    }
  }

  /** Insertion puts `x` after every element of equal key. */
  lemma {:induction false} WithKeyInsert<T>(x: T, s: seq<T>, key: T -> real, k: real)
    requires SortedBy(s, key)
    ensures WithKey(Insert(x, s, key), key, k) == WithKey(s, key, k) + (if key(x) == k then [x] else [])
  {
    if s == [] || key(x) < key(s[0]) {
      assert ([x] + s)[1..] == s;
      if key(x) == k {
        WithKeyAbove(s, key, k);
      }
    } else {
      assert SortedBy(s[1..], key) by {
        forall i, j | 0 <= i < j < |s[1..]| ensures key(s[1..][i]) <= key(s[1..][j]) {
          assert s[1..][i] == s[i + 1] && s[1..][j] == s[j + 1];
        }
      }
      WithKeyInsert(x, s[1..], key, k);
      var r := Insert(x, s, key);
      assert r == [s[0]] + Insert(x, s[1..], key);
      assert r[1..] == Insert(x, s[1..], key);
      var head := if key(s[0]) == k then [s[0]] else [];
      var tail := if key(x) == k then [x] else [];
      calc {
        WithKey(r, key, k);
        head + WithKey(r[1..], key, k);
        head + (WithKey(s[1..], key, k) + tail);
        { AppendAssoc(head, WithKey(s[1..], key, k), tail); }
        (head + WithKey(s[1..], key, k)) + tail;
        WithKey(s, key, k) + tail;
      }
    }
  }

  /** The sort is stable: for every key, the elements with that key come out
      in the order they went in. */
  lemma {:induction false} SortByStable<T>(s: seq<T>, key: T -> real, k: real)
    ensures WithKey(SortBy(s, key), key, k) == WithKey(s, key, k)
  {
    if s != [] {
      var init, last := s[..|s| - 1], s[|s| - 1];
      var sorted := SortBy(init, key);
      var tail := if key(last) == k then [last] else [];
      calc {
        WithKey(SortBy(s, key), key, k);
        WithKey(Insert(last, sorted, key), key, k);
        { WithKeyInsert(last, sorted, key, k); }
        WithKey(sorted, key, k) + tail;
        { SortByStable(init, key, k); }
        WithKey(init, key, k) + tail;
        { assert [last][1..] == []; }
        WithKey(init, key, k) + WithKey([last], key, k);
        { WithKeyAppend(init, [last], key, k); }
        WithKey(init + [last], key, k);
        { InitLast(s); }
        WithKey(s, key, k);
      }
    }
  }

  /** Keeping a prefix keeps a prefix of the elements of each key. */
  lemma WithKeyOfPrefix<T>(s: seq<T>, n: nat, key: T -> real, k: real)
    requires n <= |s|
    ensures WithKey(s[..n], key, k) <= WithKey(s, key, k)
  {
    assert s == s[..n] + s[n..];
    WithKeyAppend(s[..n], s[n..], key, k);
    var a, b := WithKey(s[..n], key, k), WithKey(s[n..], key, k);
    assert (a + b)[..|a|] == a;
  }

  /** `slice(0, n)`: the first `n` elements, or all of them when there are fewer. */
  function Take<T>(s: seq<T>, n: nat): (r: seq<T>)
    ensures |r| == if |s| < n then |s| else n
    ensures forall i :: 0 <= i < |r| ==> r[i] == s[i]
  {
    if |s| <= n then s else s[..n]
  }

  /** The first `n` elements after sorting are the `n` smallest by `key`: they
      come from `s`, are ordered, and any element left out has a key no
      smaller than the last one kept. */
  lemma TakeOfSortedIsSmallest<T>(s: seq<T>, key: T -> real, n: nat)
    requires n > 0
    ensures var t := Take(SortBy(s, key), n);
      && SortedBy(t, key)
      && (forall x :: x in t ==> x in s)
      && (forall x :: x in s && x !in t ==> |t| == n && key(t[n - 1]) <= key(x))
  {
    var sorted := SortBy(s, key);
    var t := Take(sorted, n);
    forall i, j | 0 <= i < j < |t| ensures key(t[i]) <= key(t[j]) {
      assert t[i] == sorted[i] && t[j] == sorted[j];
    }
    forall x | x in t ensures x in s {
      SortByElements(s, key, x);
    }
    forall x | x in s && x !in t ensures |t| == n && key(t[n - 1]) <= key(x) {
      SortByElements(s, key, x);
      var k :| 0 <= k < |sorted| && sorted[k] == x;
      assert k >= n;
      assert t[n - 1] == sorted[n - 1];
    }
  }

  /** No element occurs twice. */
  predicate Distinct<T(==)>(s: seq<T>) {
    forall i, j :: 0 <= i < j < |s| ==> s[i] != s[j]
  }

  /** An element of a sequence without duplicates occurs in it at most once. */
  lemma {:induction false} DistinctCount<T>(s: seq<T>, x: T)
    requires Distinct(s)
    ensures multiset(s)[x] <= 1
  {
    if s != [] {
      var init := s[..|s| - 1];
      assert s == init + [s[|s| - 1]];
      assert Distinct(init);
      DistinctCount(init, x);
      if s[|s| - 1] == x {
        assert x !in init;
      }
    }
  }

  /** An element at two positions occurs at least twice. */
  lemma DuplicateCount<T>(s: seq<T>, i: nat, j: nat)
    requires i < j < |s| && s[i] == s[j]
    ensures multiset(s)[s[i]] >= 2
  {
    assert s == s[..j] + [s[j]] + s[j + 1..];
    assert s[i] in s[..j];
    assert multiset(s) == multiset(s[..j]) + multiset{s[j]} + multiset(s[j + 1..]);
  }

  /** Sorting a sequence without duplicates gives one without duplicates. */
  lemma SortByDistinct<T>(s: seq<T>, key: T -> real)
    requires Distinct(s)
    ensures Distinct(SortBy(s, key))
  {
    var r := SortBy(s, key);
    forall i, j | 0 <= i < j < |r| ensures r[i] != r[j] {
      if r[i] == r[j] {
        DuplicateCount(r, i, j);
        DistinctCount(s, r[i]);
        assert false;
      }
    }
  }
}
