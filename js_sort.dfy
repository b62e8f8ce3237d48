/**
 * `Array.prototype.sort` with a numeric comparator `(a, b) => key(a) - key(b)`.
 * The ECMAScript sort is stable, so its result is determined: the elements
 * ordered by key, equal keys keeping their original order.  `SortByKey`
 * is that result as a function (insertion from the back), `Sort` computes
 * it in place on an array.
 */
module JsSort {

  /** Insert `x` behind every trailing element whose key is larger than its own. */
  function InsertByKey<T>(s: seq<T>, x: T, key: T -> int): seq<T>
    decreases |s|
  {
    if s == [] || key(s[|s| - 1]) <= key(x) then s + [x]
    else InsertByKey(s[..|s| - 1], x, key) + [s[|s| - 1]]
  }

  /** The stable sort of `s` by `key`. */
  function SortByKey<T>(s: seq<T>, key: T -> int): seq<T>
    decreases |s|
  {
    if s == [] then [] else InsertByKey(SortByKey(s[..|s| - 1], key), s[|s| - 1], key)
  }

  predicate SortedByKey<T>(s: seq<T>, key: T -> int) {
    forall i, j :: 0 <= i < j < |s| ==> key(s[i]) <= key(s[j])
  }

  /** The elements of `s` whose key is `k`, in their order in `s`. */
  function WithKey<T>(s: seq<T>, key: T -> int, k: int): seq<T>
    decreases |s|
  {
    if s == [] then []
    else WithKey(s[..|s| - 1], key, k) + (if key(s[|s| - 1]) == k then [s[|s| - 1]] else [])
  }

  // ---------------------------------------------------------------------
  // Insertion
  // ---------------------------------------------------------------------

  lemma {:induction false} InsertPermutes<T>(s: seq<T>, x: T, key: T -> int)
    ensures multiset(InsertByKey(s, x, key)) == multiset(s) + multiset{x}
    decreases |s|
  {
    if s == [] || key(s[|s| - 1]) <= key(x) {
    } else {
      InsertPermutes(s[..|s| - 1], x, key);
      assert s == s[..|s| - 1] + [s[|s| - 1]];
    }
  }

  /** Every element the insertion steps over has a larger key than `x`. */
  lemma {:induction false} InsertSorted<T>(s: seq<T>, x: T, key: T -> int)
    requires SortedByKey(s, key)
    ensures SortedByKey(InsertByKey(s, x, key), key)
    ensures forall y :: y in InsertByKey(s, x, key) ==> y in s || y == x
    decreases |s|
  {
    if s == [] || key(s[|s| - 1]) <= key(x) {
    } else {
      var init, last := s[..|s| - 1], s[|s| - 1];
      InsertSorted(init, x, key);
      var r := InsertByKey(init, x, key);
      forall y | y in r ensures key(y) <= key(last) {
        if y in init {
          var i :| 0 <= i < |init| && init[i] == y;
          assert s[i] == y;
        }
      }
      var r2 := r + [last];
      forall i, j | 0 <= i < j < |r2| ensures key(r2[i]) <= key(r2[j]) {
        if j == |r| { assert r2[i] in r; }
      }
    }
  }

  /** Insertion keeps the elements of every key in order, and puts `x`
      after those of its own key. */
  lemma {:induction false} InsertWithKey<T>(s: seq<T>, x: T, key: T -> int, k: int)
    ensures WithKey(InsertByKey(s, x, key), key, k) == WithKey(s, key, k) + (if key(x) == k then [x] else [])
    decreases |s|
  {
    var r := InsertByKey(s, x, key);
    if s == [] || key(s[|s| - 1]) <= key(x) {
      assert r[..|r| - 1] == s;
    } else {
      var init, last := s[..|s| - 1], s[|s| - 1];
      InsertWithKey(init, x, key, k);
      assert r[..|r| - 1] == InsertByKey(init, x, key);
    }
  }

  // ---------------------------------------------------------------------
  // Sorting
  // ---------------------------------------------------------------------

  /** The sort is a permutation of its input. */
  lemma {:induction false} SortPermutes<T>(s: seq<T>, key: T -> int)
    ensures multiset(SortByKey(s, key)) == multiset(s)
    decreases |s|
  {
    if s != [] {
      SortPermutes(s[..|s| - 1], key);
      InsertPermutes(SortByKey(s[..|s| - 1], key), s[|s| - 1], key);
      assert s == s[..|s| - 1] + [s[|s| - 1]];
    }
  }

  /** The sort orders by key. */
  lemma {:induction false} SortSorted<T>(s: seq<T>, key: T -> int)
    ensures SortedByKey(SortByKey(s, key), key)
    decreases |s|
  {
    if s != [] {
      SortSorted(s[..|s| - 1], key);
      InsertSorted(SortByKey(s[..|s| - 1], key), s[|s| - 1], key);
    }
  }

  /** The sort is stable: elements of equal key keep their relative order. */
  lemma {:induction false} SortStable<T>(s: seq<T>, key: T -> int, k: int)
    ensures WithKey(SortByKey(s, key), key, k) == WithKey(s, key, k)
    decreases |s|
  {
    if s != [] {
      SortStable(s[..|s| - 1], key, k);
      InsertWithKey(SortByKey(s[..|s| - 1], key), s[|s| - 1], key, k);
    }
  }

  /** The sort keeps the length. */
  lemma SortLength<T>(s: seq<T>, key: T -> int)
    ensures |SortByKey(s, key)| == |s|
  {
    SortPermutes(s, key);
    assert |multiset(SortByKey(s, key))| == |multiset(s)|;
  }

  /** One step of the inner loop: `x` moves in front of `t[j - 1]`. */
  lemma InsertStep<T>(t: seq<T>, x: T, key: T -> int, j: nat)
    requires 0 < j <= |t| && key(t[j - 1]) > key(x)
    ensures InsertByKey(t[..j], x, key) + t[j..] == InsertByKey(t[..j - 1], x, key) + t[j - 1..]
  {
    assert t[..j][..j - 1] == t[..j - 1];
    assert [t[j - 1]] + t[j..] == t[j - 1..];
  }

  /** Swapping `x` with the element before it. */
  lemma SwapStep<T>(t: seq<T>, x: T, rest: seq<T>, j: nat, a: seq<T>)
    requires 0 < j <= |t| && a == t[..j] + [x] + t[j..] + rest
    ensures a[j - 1 := x][j := t[j - 1]] == t[..j - 1] + [x] + t[j - 1..] + rest
  {
    assert t[..j] == t[..j - 1] + [t[j - 1]];
    assert t[j - 1..] == [t[j - 1]] + t[j..];
  }

  /** One step of the outer loop: the sorted prefix grows by `s[i]`. */
  lemma SortStep<T>(s: seq<T>, key: T -> int, i: nat)
    requires i < |s|
    ensures |SortByKey(s[..i], key)| == i
    ensures SortByKey(s[..i], key) + s[i..] == SortByKey(s[..i], key) + [s[i]] + s[i + 1..]
    ensures InsertByKey(SortByKey(s[..i], key), s[i], key) + s[i + 1..] == SortByKey(s[..i + 1], key) + s[i + 1..]
  {
    SortLength(s[..i], key);
    assert s[..i + 1][..i] == s[..i];
    assert s[i..] == [s[i]] + s[i + 1..];
  }

  /** Moves `a[i]` down past the larger keys before it: when `a[..i]` is
      `t`, `a[..i + 1]` becomes `InsertByKey(t, a[i])`. */
  method InsertAt<T>(a: array<T>, key: T -> int, i: nat, ghost t: seq<T>, ghost rest: seq<T>)
    requires i < a.Length && |t| == i
    requires a[..] == t + [a[i]] + rest
    modifies a
    ensures a[..] == InsertByKey(t, old(a[i]), key) + rest
  {
    ghost var x := a[i];
    assert t[..i] == t && t[i..] == [];
    var j := i;
    while j > 0 && key(a[j - 1]) > key(a[j])
      invariant 0 <= j <= i
      invariant a[..] == t[..j] + [x] + t[j..] + rest
      invariant InsertByKey(t, x, key) == InsertByKey(t[..j], x, key) + t[j..]
    {
      assert a[j - 1] == (t[..j] + [x] + t[j..] + rest)[j - 1] == t[j - 1];
      assert a[j] == x;
      InsertStep(t, x, key, j);
      SwapStep(t, x, rest, j, a[..]);
      a[j - 1], a[j] := a[j], a[j - 1];
      j := j - 1;
    }
    assert j > 0 ==> a[j - 1] == t[j - 1] && a[j] == x;
    assert InsertByKey(t[..j], x, key) == t[..j] + [x];
  }

  /** Stable in-place insertion sort; its result is exactly `SortByKey`. */
  method Sort<T>(a: array<T>, key: T -> int)
    modifies a
    ensures a[..] == SortByKey(old(a[..]), key)
  {
    ghost var s := a[..];
    var i := 0;
    while i < a.Length
      invariant 0 <= i <= a.Length
      invariant a[..] == SortByKey(s[..i], key) + s[i..]
    {
      SortStep(s, key, i);
      ghost var t := SortByKey(s[..i], key);
      assert a[i] == s[i] by { assert a[..][i] == (t + [s[i]] + s[i + 1..])[i]; }
      InsertAt(a, key, i, t, s[i + 1..]);
      i := i + 1;
    }

    assert s[..a.Length] == s;
  }
}
