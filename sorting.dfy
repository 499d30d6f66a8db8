/**
 * Stable sorting by a descending key, the ordering both rankings of the
 * system use: the donation leaderboard (largest total first) and the
 * matched-job list (Python's `list.sort(key=..., reverse=True)`, which is
 * stable). `SortDesc` is the specification; `InsertionSortDesc` sorts an
 * array in place and is proved to produce exactly `SortDesc`.
 */
module Sorting {

  /** Every element's key is at least the key of every later element. */
  ghost predicate SortedDesc<T>(s: seq<T>, key: T -> real) {
    forall i, j :: 0 <= i < j < |s| ==> key(s[i]) >= key(s[j])
  }

  /** Inserts `x` after every element of `s` whose key is at least `key(x)`, scanning from the right. */
  function InsertDesc<T>(s: seq<T>, x: T, key: T -> real): seq<T>
  {
    if s == [] || key(s[|s| - 1]) >= key(x) then s + [x]
    else InsertDesc(s[..|s| - 1], x, key) + [s[|s| - 1]]
  }

  /** Where `InsertDesc` puts `x`. */
  function InsertPos<T>(s: seq<T>, x: T, key: T -> real): (p: nat)
    ensures p <= |s|
  {
    if s == [] || key(s[|s| - 1]) >= key(x) then |s|
    else InsertPos(s[..|s| - 1], x, key)
  }

  /** Insertion sort, one element at a time from the left. */
  function SortDesc<T>(s: seq<T>, key: T -> real): seq<T>
  {
    if s == [] then [] else InsertDesc(SortDesc(s[..|s| - 1], key), s[|s| - 1], key)
  }

  /** The elements of `s` whose key is `v`, in their order in `s`. */
  function WithKey<T>(s: seq<T>, v: real, key: T -> real): seq<T>
  {
    if s == [] then []
    else WithKey(s[..|s| - 1], v, key) + (if key(s[|s| - 1]) == v then [s[|s| - 1]] else [])
  }

  /** `InsertDesc` splits `s` at `InsertPos`: larger-or-equal keys on the left, smaller on the right. */
  lemma {:induction false} InsertDescAt<T>(s: seq<T>, x: T, key: T -> real)
    requires SortedDesc(s, key)
    ensures InsertDesc(s, x, key) == s[..InsertPos(s, x, key)] + [x] + s[InsertPos(s, x, key)..]
    ensures forall k :: 0 <= k < InsertPos(s, x, key) ==> key(s[k]) >= key(x)
    ensures forall k :: InsertPos(s, x, key) <= k < |s| ==> key(s[k]) < key(x)
  {
    if s == [] || key(s[|s| - 1]) >= key(x) {
    } else {
      var init := s[..|s| - 1];
      InsertDescAt(init, x, key);
      var p := InsertPos(init, x, key);
      assert init[..p] == s[..p];
      assert init[p..] + [s[|s| - 1]] == s[p..];
    }
  }

  /** Placing `x` between the larger-or-equal keys and the smaller ones keeps a sorted sequence sorted. */
  lemma SortedSplice<T>(t: seq<T>, p: nat, x: T, key: T -> real)
    requires SortedDesc(t, key) && p <= |t|
    requires forall k :: 0 <= k < p ==> key(t[k]) >= key(x)
    requires forall k :: p <= k < |t| ==> key(t[k]) < key(x)
    ensures SortedDesc(t[..p] + [x] + t[p..], key)
  {
    var r := t[..p] + [x] + t[p..];
    assert forall k :: 0 <= k < |r| ==> r[k] == if k < p then t[k] else if k == p then x else t[k - 1];
    forall i, j | 0 <= i < j < |r| ensures key(r[i]) >= key(r[j]) {
      if j < p || i > p {
      } else if i == p {
        assert key(t[j - 1]) < key(x);
      } else if j == p {
        assert key(t[i]) >= key(x);
      }
    }
  }

  /** Inserting into a sorted sequence keeps it sorted and adds exactly `x`. */
  lemma InsertDescSorted<T>(t: seq<T>, x: T, key: T -> real)
    requires SortedDesc(t, key)
    ensures |InsertDesc(t, x, key)| == |t| + 1
    ensures multiset(InsertDesc(t, x, key)) == multiset(t) + multiset{x}
    ensures SortedDesc(InsertDesc(t, x, key), key)
  {
    InsertDescAt(t, x, key);
    var p := InsertPos(t, x, key);
    assert t == t[..p] + t[p..];
    SortedSplice(t, p, x, key);
  }

  /** `SortDesc` returns a sorted permutation of its input. */
  lemma {:induction false} SortDescPermutes<T>(s: seq<T>, key: T -> real)
    ensures |SortDesc(s, key)| == |s|
    ensures multiset(SortDesc(s, key)) == multiset(s)
    ensures SortedDesc(SortDesc(s, key), key)
  {
    if s != [] {
      var init, x := s[..|s| - 1], s[|s| - 1];
      SortDescPermutes(init, key);
      InsertDescSorted(SortDesc(init, key), x, key);
      assert s == init + [x];
    }
  }

  lemma {:induction false} WithKeyAppend<T>(a: seq<T>, b: seq<T>, v: real, key: T -> real)
    ensures WithKey(a + b, v, key) == WithKey(a, v, key) + WithKey(b, v, key)
  {
    if b != [] {
      var bi := b[..|b| - 1];
      assert (a + b)[..|a + b| - 1] == a + bi;
      WithKeyAppend(a, bi, v, key);
    } else {
      assert a + b == a;
    }
  }

  lemma WithKeySingle<T>(x: T, v: real, key: T -> real)
    ensures WithKey([x], v, key) == if key(x) == v then [x] else []
  {
    assert [x][..0] == [];
  }

  /** Inserting `x` adds `x` after the elements of its own key: it only ever passes elements of a smaller key. */
  lemma {:induction false} InsertDescWithKey<T>(s: seq<T>, x: T, v: real, key: T -> real)
    ensures WithKey(InsertDesc(s, x, key), v, key) == WithKey(s, v, key) + WithKey([x], v, key)
  {
    WithKeySingle(x, v, key);
    if s == [] || key(s[|s| - 1]) >= key(x) {
      WithKeyAppend(s, [x], v, key);
    } else {
      var init, last := s[..|s| - 1], s[|s| - 1];
      var r := InsertDesc(init, x, key) + [last];
      InsertDescWithKey(init, x, v, key);
      assert r[..|r| - 1] == InsertDesc(init, x, key);
    }
  }

  /** Stability: among the elements of one key, sorting keeps their original order. */
  lemma {:induction false} SortDescStable<T>(s: seq<T>, v: real, key: T -> real)
    ensures WithKey(SortDesc(s, key), v, key) == WithKey(s, v, key)
  {
    if s != [] {
      var init, x := s[..|s| - 1], s[|s| - 1];
      SortDescStable(init, v, key);
      InsertDescWithKey(SortDesc(init, key), x, v, key);
      assert s == init + [x];
      WithKeyAppend(init, [x], v, key);
    }
  }

  /** One shift of the insertion loop: `x` moves left past `s[j - 1]`, whose key is smaller. */
  lemma InsertDescShift<T>(s: seq<T>, j: nat, x: T, key: T -> real)
    requires 0 < j <= |s| && key(s[j - 1]) < key(x)
    ensures InsertDesc(s[..j], x, key) + s[j..] == InsertDesc(s[..j - 1], x, key) + s[j - 1..]
  {
    assert s[..j][..j - 1] == s[..j - 1];
    assert s[j - 1..] == [s[j - 1]] + s[j..];
  }

  /** The insertion loop stops: `x` belongs right after `s[..j]`. */
  lemma InsertDescStop<T>(s: seq<T>, j: nat, x: T, key: T -> real)
    requires j <= |s| && (j == 0 || key(s[j - 1]) >= key(x))
    ensures InsertDesc(s[..j], x, key) == s[..j] + [x]
  {
  }

  /** One swap of the insertion loop moves `x` one place left, past `p[j - 1]`. */
  lemma SwapLeft<T>(p: seq<T>, j: nat, x: T, q: seq<T>)
    requires 0 < j <= |p|
    ensures (p[..j] + [x] + p[j..] + q)[j - 1 := x][j := p[j - 1]] == p[..j - 1] + [x] + p[j - 1..] + q
  {
  }

  /** Swaps `a[i]` left past every earlier element with a smaller key: one step of insertion sort. */
  method InsertInPlace<T>(a: array<T>, i: nat, key: T -> real)
    requires i < a.Length
    modifies a
    ensures a[..i + 1] == InsertDesc(old(a[..i]), old(a[i]), key)
    ensures a[i + 1..] == old(a[i + 1..])
  {
    ghost var prefix, suffix := a[..i], a[i + 1..];
    var x := a[i];
    var j := i;
    assert prefix[..j] == prefix && prefix[j..] == [];
    assert a[..] == prefix[..j] + [x] + prefix[j..] + suffix;
    while j > 0 && key(a[j - 1]) < key(x)
      invariant 0 <= j <= i
      invariant a[..] == prefix[..j] + [x] + prefix[j..] + suffix
      invariant InsertDesc(prefix, x, key) == InsertDesc(prefix[..j], x, key) + prefix[j..]
    {
      assert a[j - 1] == prefix[j - 1] && a[j] == x;
      InsertDescShift(prefix, j, x, key);
      SwapLeft(prefix, j, x, suffix);
      a[j - 1], a[j] := a[j], a[j - 1];
      j := j - 1;
    }
    InsertDescStop(prefix, j, x, key);
    ghost var w := InsertDesc(prefix, x, key);
    assert a[..] == w + suffix && |w| == i + 1;
    assert a[..i + 1] == (w + suffix)[..i + 1] == w;
    assert a[i + 1..] == (w + suffix)[i + 1..] == suffix;
  }

  /** Sorts `a` in place, largest key first, keeping equal keys in their original order. */
  method InsertionSortDesc<T>(a: array<T>, key: T -> real)
    modifies a
    ensures a[..] == SortDesc(old(a[..]), key)
  {
    ghost var input := a[..];
    var i := 0;
    while i < a.Length
      invariant 0 <= i <= a.Length
      invariant a[..i] == SortDesc(input[..i], key)
      invariant a[i..] == input[i..]
    {
      assert a[i] == input[i];
      InsertInPlace(a, i, key);
      assert input[..i + 1][..i] == input[..i];
      i := i + 1;
    }
    assert input[..a.Length] == input;
  }
}
