/**
 * Python's `list.sort(key=k, reverse=True)` as a value-level function: a
 * stable sort into descending key order.  Elements with equal keys keep their
 * relative input order, which is what Python guarantees for `reverse=True`.
 * main_live.py ranks plate candidates by confidence with it and
 * OCR_Templates/prototype_v2.py ranks plate rectangles by area.
 */
module StableSort {

  /** Every element's key is at least the key of every later element. */
  ghost predicate SortedDesc<T>(s: seq<T>, key: T -> real)
  {
    forall i, j :: 0 <= i < j < |s| ==> key(s[i]) >= key(s[j])
  }

  /** The in-order subsequence of the elements whose key is `v`. */
  function WithKey<T>(s: seq<T>, key: T -> real, v: real): seq<T>
  {
    if s == [] then [] else (if key(s[0]) == v then [s[0]] else []) + WithKey(s[1..], key, v)
  }

  /** Insert `x` in front of the first element whose key is at most `x`'s. */
  function Insert<T>(x: T, s: seq<T>, key: T -> real): (r: seq<T>)
    ensures |r| == |s| + 1
  {
    if s == [] || key(x) >= key(s[0]) then [x] + s
    else [s[0]] + Insert(x, s[1..], key)
  }

  /** Insertion sort into descending key order; the result is a sorted permutation of the input. */
  function SortDesc<T>(s: seq<T>, key: T -> real): (r: seq<T>)
    ensures |r| == |s|
    ensures multiset(r) == multiset(s)
    ensures SortedDesc(r, key)
  {
    if s == [] then []
    else
      var rest := SortDesc(s[1..], key);
      InsertPerm(s[0], rest, key);
      InsertSorted(s[0], rest, key);
      HeadThenTail(s);
      Insert(s[0], rest, key)
  }

  /**
   * Cutting a descending list after `m` elements keeps the largest ones: the
   * prefix is a descending sub-multiset, and every element left out has a key
   * at most that of every element kept.
   */
  lemma PrefixKeepsLargest<T>(s: seq<T>, key: T -> real, m: int)
    requires SortedDesc(s, key) && 0 <= m <= |s|
    ensures SortedDesc(s[..m], key)
    ensures multiset(s[..m]) <= multiset(s)
    ensures forall c, k :: c in multiset(s) - multiset(s[..m]) && 0 <= k < m ==> key(c) <= key(s[k])
  {
    assert s == s[..m] + s[m..];
    assert multiset(s) == multiset(s[..m]) + multiset(s[m..]);
    forall c, k | c in multiset(s) - multiset(s[..m]) && 0 <= k < m
      ensures key(c) <= key(s[k])
    {
      assert c in multiset(s[m..]);
      var j :| 0 <= j < |s[m..]| && s[m..][j] == c;
      assert s[m + j] == c;
    }
  }

  lemma {:induction false} InsertPerm<T>(x: T, s: seq<T>, key: T -> real)
    ensures multiset(Insert(x, s, key)) == multiset(s) + multiset{x}
  {
    if s != [] && key(x) < key(s[0]) {
      InsertPerm(x, s[1..], key);
      assert s == [s[0]] + s[1..];
    }
  }

  lemma InsertHead<T>(x: T, s: seq<T>, key: T -> real)
    ensures Insert(x, s, key)[0] == x || (s != [] && Insert(x, s, key)[0] == s[0])
  {
  }

  lemma {:induction false} InsertSorted<T>(x: T, s: seq<T>, key: T -> real)
    requires SortedDesc(s, key)
    ensures SortedDesc(Insert(x, s, key), key)
  {
    if s != [] && key(x) < key(s[0]) {
      var rest := Insert(x, s[1..], key);
      InsertSorted(x, s[1..], key);
      InsertHead(x, s[1..], key);
      assert forall k :: 0 < k < |rest| ==> key(rest[0]) >= key(rest[k]);
      assert key(s[0]) >= key(rest[0]);
      var r := [s[0]] + rest;
      forall i, j | 0 <= i < j < |r| ensures key(r[i]) >= key(r[j]) {
        if i > 0 {
          assert r[i] == rest[i - 1] && r[j] == rest[j - 1];
        } else {
          assert r[j] == rest[j - 1];
        }
      }
    }
  }

  lemma {:induction false} WithKeyAppend<T>(a: seq<T>, b: seq<T>, key: T -> real, v: real)
    ensures WithKey(a + b, key, v) == WithKey(a, key, v) + WithKey(b, key, v)
  {
    if a == [] {
      assert a + b == b;
    } else {
      var head := if key(a[0]) == v then [a[0]] else [];
      assert (a + b)[0] == a[0] && (a + b)[1..] == a[1..] + b;
      assert WithKey(a + b, key, v) == head + WithKey(a[1..] + b, key, v);
      WithKeyAppend(a[1..], b, key, v);
      assert WithKey(a, key, v) == head + WithKey(a[1..], key, v);
    }
  }

  lemma WithKeySingle<T>(y: T, key: T -> real, v: real)
    ensures WithKey([y], key, v) == if key(y) == v then [y] else []
  {
    assert [y][1..] == [];
  }

  /** Two pieces of which one is empty can be swapped in front of a tail. */
  lemma SwapEmpty<T>(a: seq<T>, b: seq<T>, t: seq<T>)
    requires a == [] || b == []
    ensures a + (b + t) == b + (a + t)
  {
    if a == [] {
      assert a + (b + t) == b + t && a + t == t;
    } else {
      assert b + (a + t) == a + t && b + t == t;
    }
  }

  /**
   * One step past a head with a larger key: it stays in front, and since
   * its key differs from `x`'s at most one of the two lies in class `v`.
   */
  lemma InsertWithKeyStep<T>(x: T, s: seq<T>, rest: seq<T>, key: T -> real, v: real)
    requires s != [] && key(x) < key(s[0])
    requires WithKey(rest, key, v) == WithKey([x] + s[1..], key, v)
    ensures WithKey([s[0]] + rest, key, v) == WithKey([x] + s, key, v)
  {
    var wx := WithKey([x], key, v);
    var ws := WithKey([s[0]], key, v);
    var tail := WithKey(s[1..], key, v);
    WithKeySingle(x, key, v);
    WithKeySingle(s[0], key, v);
    WithKeyAppend([s[0]], rest, key, v);
    WithKeyAppend([x], s[1..], key, v);
    HeadThenTail(s);
    WithKeyAppend([s[0]], s[1..], key, v);
    WithKeyAppend([x], s, key, v);
    SwapEmpty(ws, wx, tail);
  }

  /** Inserting `x` leaves each class of equal keys as if `x` had been put first. */
  lemma {:induction false} InsertWithKey<T>(x: T, s: seq<T>, key: T -> real, v: real)
    ensures WithKey(Insert(x, s, key), key, v) == WithKey([x] + s, key, v)
  {
    if s != [] && key(x) < key(s[0]) {
      var rest := Insert(x, s[1..], key);
      assert Insert(x, s, key) == [s[0]] + rest;
      InsertWithKey(x, s[1..], key, v);
      InsertWithKeyStep(x, s, rest, key, v);
    }
  }

  /** Inserting into a stably sorted tail keeps the head first among its equals. */
  lemma InsertKeepsStable<T>(x: T, tail: seq<T>, sortedTail: seq<T>, key: T -> real, v: real)
    requires WithKey(sortedTail, key, v) == WithKey(tail, key, v)
    ensures WithKey(Insert(x, sortedTail, key), key, v) == WithKey([x] + tail, key, v)
  {
    InsertWithKey(x, sortedTail, key, v);
    WithKeyAppend([x], sortedTail, key, v);
    WithKeyAppend([x], tail, key, v);
  }

  /** A non-empty sequence is its head followed by its tail. */
  lemma HeadThenTail<T>(s: seq<T>)
    requires s != []
    ensures [s[0]] + s[1..] == s
  {
  }

  /**
   * Stability: for every key value, the elements with that key appear in the
   * sorted output in exactly the order they had in the input.
   */
  lemma {:induction false} SortDescStable<T>(s: seq<T>, key: T -> real, v: real)
    ensures WithKey(SortDesc(s, key), key, v) == WithKey(s, key, v)
  {
    if s != [] {
      var rest := SortDesc(s[1..], key);
      assert SortDesc(s, key) == Insert(s[0], rest, key);
      SortDescStable(s[1..], key, v);
      InsertKeepsStable(s[0], s[1..], rest, key, v);
      HeadThenTail(s);
    }
  }
}
