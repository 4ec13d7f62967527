/** Stable sorting by a "less than" comparator, as std::stable_sort does
    it: the specification (a stable insertion sort on sequences), its
    properties, and the in-place array algorithm that meets it. */
module StableSort {

  /** The comparator requirements of std::stable_sort: irreflexive,
      transitive, and with transitive incomparability. */
  ghost predicate StrictWeakOrder<T(!new)>(less: (T, T) -> bool) {
    && (forall a :: !less(a, a))
    && (forall a, b, c :: less(a, b) && less(b, c) ==> less(a, c))
    && (forall a, b, c :: !less(a, b) && !less(b, c) ==> !less(a, c))
  }

  /** No element is less than one before it. */
  ghost predicate Sorted<T>(s: seq<T>, less: (T, T) -> bool) {
    forall i, j :: 0 <= i < j < |s| ==> !less(s[j], s[i])
  }

  /** Neither is less than the other: equal keys. */
  predicate Equivalent<T>(a: T, b: T, less: (T, T) -> bool) {
    !less(a, b) && !less(b, a)
  }

  /** The elements of `s` whose key equals that of `x`, in order. */
  function Equivalents<T>(s: seq<T>, x: T, less: (T, T) -> bool): seq<T> {
    if s == [] then []
    else Equivalents(s[..|s| - 1], x, less) + (if Equivalent(s[|s| - 1], x, less) then [s[|s| - 1]] else [])
  }

  /** Insert `x` into `s`, moving it in front of the trailing elements it
      is less than and behind every element with an equal key. */
  function Insert<T>(s: seq<T>, x: T, less: (T, T) -> bool): seq<T> {
    if s == [] then [x]
    else if less(x, s[|s| - 1]) then Insert(s[..|s| - 1], x, less) + [s[|s| - 1]]
    else s + [x]
  }

  /** The stable sort of `s`. */
  function Sort<T>(s: seq<T>, less: (T, T) -> bool): seq<T> {
    if s == [] then []
    else Insert(Sort(s[..|s| - 1], less), s[|s| - 1], less)
  }

  /** Inserting adds exactly the new element. */
  lemma {:induction false} InsertPermutes<T>(s: seq<T>, x: T, less: (T, T) -> bool)
    ensures multiset(Insert(s, x, less)) == multiset(s) + multiset{x}
  {
    if s != [] {
      assert s == s[..|s| - 1] + [s[|s| - 1]];
      if less(x, s[|s| - 1]) {
        InsertPermutes(s[..|s| - 1], x, less);
      }
    }
  }

  /** The sort is a permutation of its input. */
  lemma {:induction false} SortPermutes<T>(s: seq<T>, less: (T, T) -> bool)
    ensures multiset(Sort(s, less)) == multiset(s)
  {
    if s != [] {
      assert s == s[..|s| - 1] + [s[|s| - 1]];
      SortPermutes(s[..|s| - 1], less);
      InsertPermutes(Sort(s[..|s| - 1], less), s[|s| - 1], less);
    }
  }

  lemma {:induction false} InsertSorted<T(!new)>(s: seq<T>, x: T, less: (T, T) -> bool)
    requires StrictWeakOrder(less) && Sorted(s, less)
    ensures Sorted(Insert(s, x, less), less)
  {
    if s != [] {
      var init, last := s[..|s| - 1], s[|s| - 1];
      if less(x, last) {
        InsertSorted(init, x, less);
        InsertPermutes(init, x, less);
        var r := Insert(init, x, less);
        forall i | 0 <= i < |r|
          ensures !less(last, r[i])
        {
          assert r[i] in multiset(r);
          if r[i] != x {
            assert r[i] in multiset(init);
            var k :| 0 <= k < |init| && init[k] == r[i];
            assert s[k] == r[i];
          }
        }
        assert Insert(s, x, less) == r + [last];
      } else {
        forall i | 0 <= i < |s|
          ensures !less(x, s[i])
        {
          if i < |s| - 1 {
            assert !less(last, s[i]);
          }
        }
      }
    }
  }

  /** The result is sorted. */
  lemma {:induction false} SortIsSorted<T(!new)>(s: seq<T>, less: (T, T) -> bool)
    requires StrictWeakOrder(less)
    ensures Sorted(Sort(s, less), less)
  {
    if s != [] {
      SortIsSorted(s[..|s| - 1], less);
      InsertSorted(Sort(s[..|s| - 1], less), s[|s| - 1], less);
    }
  }

  /** An element less than `z` has a different key from `z`, and so does
      everything with its key. */
  lemma LessSeparates<T(!new)>(y: T, x: T, z: T, less: (T, T) -> bool)
    requires StrictWeakOrder(less)
    requires less(y, z) && Equivalent(y, x, less)
    ensures !Equivalent(z, x, less)
  {
    assert !less(y, x) && !less(x, z) ==> !less(y, z);
  }

  lemma {:induction false} InsertStable<T(!new)>(s: seq<T>, y: T, x: T, less: (T, T) -> bool)
    requires StrictWeakOrder(less)
    ensures Equivalents(Insert(s, y, less), x, less) ==
      Equivalents(s, x, less) + (if Equivalent(y, x, less) then [y] else [])
  {
    if s == [] {
      assert [y][..0] == [];
    } else {
      var init, last := s[..|s| - 1], s[|s| - 1];
      if less(y, last) {
        var r := Insert(init, y, less);
        InsertStable(init, y, x, less);
        assert (r + [last])[..|r|] == r;
        if Equivalent(y, x, less) {
          LessSeparates(y, x, last, less);
        }
      } else {
        assert (s + [y])[..|s|] == s;
      }
    }
  }

  /** Stability: the elements with any one key keep their input order. */
  lemma {:induction false} SortIsStable<T(!new)>(s: seq<T>, x: T, less: (T, T) -> bool)
    requires StrictWeakOrder(less)
    ensures Equivalents(Sort(s, less), x, less) == Equivalents(s, x, less)
  {
    if s != [] {
      SortIsStable(s[..|s| - 1], x, less);
      InsertStable(Sort(s[..|s| - 1], less), s[|s| - 1], x, less);
    }
  }

  /** Two sorted sequences of one length whose equal-key elements come in
      the same order are the same sequence. */
  lemma {:induction false} SortedStableUnique<T(!new)>(p: seq<T>, q: seq<T>, less: (T, T) -> bool)
    requires StrictWeakOrder(less)
    requires Sorted(p, less) && Sorted(q, less) && |p| == |q|
    requires forall x :: Equivalents(p, x, less) == Equivalents(q, x, less)
    ensures p == q
  {
    if p != [] {
      var n := |p|;
      var a, b := p[n - 1], q[n - 1];
      var p', q' := p[..n - 1], q[..n - 1];
      assert p == p' + [a] && q == q' + [b];
      assert Equivalents(p, a, less) == Equivalents(q, a, less);
      assert Equivalents(p, b, less) == Equivalents(q, b, less);
      // b ends q, and some element of q has a's key, so b is not below a
      assert Equivalents(p, a, less) == Equivalents(p', a, less) + [a];
      EquivalentsIn(q, a, less);
      var k :| 0 <= k < n && Equivalent(q[k], a, less);
      assert !less(b, a) by {
        if k < n - 1 {
          assert !less(b, q[k]);
        }
      }
      // symmetrically a is not below b
      assert Equivalents(q, b, less) == Equivalents(q', b, less) + [b];
      EquivalentsIn(p, b, less);
      var m :| 0 <= m < n && Equivalent(p[m], b, less);
      assert !less(a, b) by {
        if m < n - 1 {
          assert !less(a, p[m]);
        }
      }
      assert Equivalents(q, a, less) == Equivalents(q', a, less) + [b];
      assert a == Equivalents(p, a, less)[|Equivalents(p, a, less)| - 1];
      assert a == b;
      forall x
        ensures Equivalents(p', x, less) == Equivalents(q', x, less)
      {
        var t := if Equivalent(a, x, less) then [a] else [];
        var ep, eq := Equivalents(p', x, less), Equivalents(q', x, less);
        assert Equivalents(p, x, less) == ep + t;
        assert Equivalents(q, x, less) == eq + t;
        assert ep == (ep + t)[..|ep|];
        assert eq == (eq + t)[..|eq|];
      }
      SortedStableUnique(p', q', less);
    }
  }

  /** An element with the key of `x` lies in `s` whenever the list of such
      elements is not empty. */
  lemma {:induction false} EquivalentsIn<T>(s: seq<T>, x: T, less: (T, T) -> bool)
    ensures Equivalents(s, x, less) != [] ==> exists k :: 0 <= k < |s| && Equivalent(s[k], x, less)
  {
    if s != [] && !Equivalent(s[|s| - 1], x, less) {
      EquivalentsIn(s[..|s| - 1], x, less);
      if Equivalents(s, x, less) != [] {
        var k :| 0 <= k < |s| - 1 && Equivalent(s[..|s| - 1][k], x, less);
        assert Equivalent(s[k], x, less);
      }
    }
  }

  /** Any sort that is stable gives the result of Sort: which algorithm
      std::stable_sort runs does not matter. */
  lemma StableSortIsUnique<T(!new)>(s: seq<T>, p: seq<T>, less: (T, T) -> bool)
    requires StrictWeakOrder(less)
    requires Sorted(p, less) && |p| == |s|
    requires forall x :: Equivalents(p, x, less) == Equivalents(s, x, less)
    ensures p == Sort(s, less)
  {
    SortIsSorted(s, less);
    forall x
      ensures Equivalents(p, x, less) == Equivalents(Sort(s, less), x, less)
    {
      SortIsStable(s, x, less);
    }
    SortPermutes(s, less);
    assert |Sort(s, less)| == |multiset(Sort(s, less))| == |multiset(s)| == |s|;
    SortedStableUnique(p, Sort(s, less), less);
  }

  /** Insert places `x` right after the last element it is not less
      than. */
  lemma {:induction false} InsertSkips<T>(s: seq<T>, j: nat, x: T, less: (T, T) -> bool)
    requires j <= |s|
    requires forall k :: j <= k < |s| ==> less(x, s[k])
    requires j == 0 || !less(x, s[j - 1])
    ensures Insert(s, x, less) == s[..j] + [x] + s[j..]
  {
    if j < |s| {
      var init, last := s[..|s| - 1], s[|s| - 1];
      assert less(x, last);
      assert Insert(s, x, less) == Insert(init, x, less) + [last];
      forall k | j <= k < |init|
        ensures less(x, init[k])
      {
        assert init[k] == s[k];
      }
      if j > 0 {
        assert init[j - 1] == s[j - 1];
      }
      InsertSkips(init, j, x, less);
      assert init[..j] == s[..j];
      assert init[j..] + [last] == s[j..];
    } else if s != [] {
      assert s[..j] == s;
    }
  }

  /** A sequence that agrees with `s` below `j`, holds `x` at `j` and `s`
      shifted up by one above it is `s` with `x` spliced in at `j`. */
  lemma ShiftedIsSpliced<T>(r: seq<T>, s: seq<T>, j: nat, x: T)
    requires j <= |s| && |r| == |s| + 1
    requires forall k :: 0 <= k < j ==> r[k] == s[k]
    requires r[j] == x
    requires forall k :: j < k < |r| ==> r[k] == s[k - 1]
    ensures r == s[..j] + [x] + s[j..]
  {
    var spliced := s[..j] + [x] + s[j..];
    forall k | 0 <= k < |r|
      ensures r[k] == spliced[k]
    {
      if k > j {
        assert spliced[k] == s[j..][k - j - 1];
      }
    }
  }

  /** Move a[i] down in front of the trailing elements of a[..i] that it
      is less than, shifting them up by one. */
  method InsertAt<T>(a: array<T>, i: nat, less: (T, T) -> bool)
    requires i < a.Length
    modifies a
    ensures a[..i + 1] == Insert(old(a[..i]), old(a[i]), less)
    ensures a[i + 1..] == old(a[i + 1..])
  {
    ghost var sorted := a[..i];
    var x := a[i];
    var j := i;
    while j > 0 && less(x, a[j - 1])
      invariant 0 <= j <= i
      invariant forall k :: 0 <= k < j ==> a[k] == sorted[k]
      invariant forall k :: j < k <= i ==> a[k] == sorted[k - 1]
      invariant forall k :: j <= k < i ==> less(x, sorted[k])
      invariant forall k :: i < k < a.Length ==> a[k] == old(a[k])
    {
      a[j] := a[j - 1];
      j := j - 1;
    }
    a[j] := x;
    InsertSkips(sorted, j, x, less);
    ShiftedIsSpliced(a[..i + 1], sorted, j, x);
    assert a[i + 1..] == old(a[i + 1..]);
  }

  /** The in-place algorithm: insertion sort by shifting. */
  method InsertionSort<T>(a: array<T>, less: (T, T) -> bool)
    modifies a
    ensures a[..] == Sort(old(a[..]), less)
  {
    var i := 0;
    while i < a.Length
      invariant 0 <= i <= a.Length
      invariant a[..i] == Sort(old(a[..])[..i], less)
      invariant a[i..] == old(a[..])[i..]
    {
      assert old(a[..])[..i + 1] == old(a[..])[..i] + [a[i]];
      InsertAt(a, i, less);
      i := i + 1;
    }
    assert a[..] == a[..a.Length];
    assert old(a[..])[..a.Length] == old(a[..]);
  }
}
