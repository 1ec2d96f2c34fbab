/** The contract of Go's `sort.Slice`, kept by an in-place insertion sort, and the uniqueness of a strictly sorted
    sequence, which makes every correct sort agree whenever no two elements tie. */
module Sorting {

  ghost predicate WeakOrder<T(!new)>(less: (T, T) -> bool) {
    && (forall x: T :: !less(x, x))
    && (forall x: T, y: T, z: T :: less(x, y) && less(y, z) ==> less(x, z))
    && (forall x: T, y: T, z: T :: !less(x, y) && !less(y, z) ==> !less(x, z))
  }

  ghost predicate Sorted<T>(s: seq<T>, less: (T, T) -> bool) {
    forall i, j :: 0 <= i < j < |s| ==> !less(s[j], s[i])
  }

  ghost predicate StrictlySorted<T>(s: seq<T>, less: (T, T) -> bool) {
    forall i, j :: 0 <= i < j < |s| ==> less(s[i], s[j])
  }

  ghost function Elements<T>(s: seq<T>): set<T> {
    set i | 0 <= i < |s| :: s[i]
  }

  ghost predicate Distinct<T>(s: seq<T>) {
    forall i, j :: 0 <= i < j < |s| ==> s[i] != s[j]
  }

  method Swap<T>(a: array<T>, k: nat)
    requires 0 < k < a.Length
    modifies a
    ensures a[..] == old(a[..])[k - 1 := old(a[k])][k := old(a[k - 1])]
    ensures multiset(a[..]) == multiset(old(a[..]))
  {
    a[k - 1], a[k] := a[k], a[k - 1];
  }

  /** Sinks `a[i]` into the sorted prefix before it. */
  method Sink<T(!new)>(a: array<T>, i: nat, less: (T, T) -> bool)
    requires WeakOrder(less)
    requires i < a.Length
    requires Sorted(a[..i], less)
    modifies a
    ensures Sorted(a[..i + 1], less)
    ensures multiset(a[..]) == multiset(old(a[..]))
  {
    var k := i;
    assert forall p, q :: 0 <= p < q < i ==> !less(a[..i][q], a[..i][p]);
    while k > 0 && less(a[k], a[k - 1])
      invariant 0 <= k <= i
      invariant forall p, q :: 0 <= p < q <= i && q != k ==> !less(a[q], a[p])
      invariant multiset(a[..]) == multiset(old(a[..]))
    {
      Swap(a, k);
      k := k - 1;
    }
  }

  method SortInPlace<T(!new)>(a: array<T>, less: (T, T) -> bool)
    requires WeakOrder(less)
    modifies a
    ensures Sorted(a[..], less)
    ensures multiset(a[..]) == multiset(old(a[..]))
  {
    var i := 0;
    while i < a.Length
      invariant 0 <= i <= a.Length
      invariant Sorted(a[..i], less)
      invariant multiset(a[..]) == multiset(old(a[..]))
    {
      Sink(a, i, less);
      i := i + 1;
    }
    assert a[..a.Length] == a[..];
  }

  lemma {:induction false} PermutationKeepsElements<T>(s: seq<T>, t: seq<T>)
    requires multiset(s) == multiset(t)
    ensures Elements(s) == Elements(t)
    ensures |s| == |t|
  {
    assert |multiset(s)| == |s| && |multiset(t)| == |t|;
    forall x ensures x in Elements(s) <==> x in Elements(t) {
      assert x in s <==> x in multiset(s);
      assert x in t <==> x in multiset(t);
    }
  }

  /** Two strictly sorted sequences with the same elements are equal. */
  lemma {:induction false} StrictlySortedIsUnique<T(!new)>(s: seq<T>, t: seq<T>, less: (T, T) -> bool)
    requires WeakOrder(less)
    requires StrictlySorted(s, less) && StrictlySorted(t, less)
    requires Elements(s) == Elements(t)
    ensures s == t
  {
    assert |t| > 0 ==> t[0] in Elements(t);
    if s != [] {
      assert s[0] in Elements(s) && s[0] in Elements(t);
      var j :| 0 <= j < |t| && t[j] == s[0];
      assert t[0] in Elements(s);
      var i :| 0 <= i < |s| && s[i] == t[0];
      assert s[0] == t[0];
      assert Elements(s[1..]) == Elements(s) - {s[0]} by { TailElements(s, less); }
      assert Elements(t[1..]) == Elements(t) - {t[0]} by { TailElements(t, less); }
      StrictlySortedIsUnique(s[1..], t[1..], less);
    }
  }

  lemma {:induction false} TailElements<T(!new)>(s: seq<T>, less: (T, T) -> bool)
    requires WeakOrder(less) && StrictlySorted(s, less) && |s| > 0
    ensures Elements(s[1..]) == Elements(s) - {s[0]}
  {
    forall x ensures x in Elements(s[1..]) <==> x in Elements(s) - {s[0]} {
      if x in Elements(s[1..]) {
        var i :| 0 <= i < |s[1..]| && s[1..][i] == x;
        assert s[i + 1] == x && less(s[0], s[i + 1]);
      }
      if x in Elements(s) - {s[0]} {
        var i :| 0 <= i < |s| && s[i] == x;
        assert s[1..][i - 1] == x;
      }
    }
  }

  // ---- elements and repetition ----

  lemma {:induction false} SnocElements<T>(s: seq<T>, x: T, t: seq<T>)
    requires t == s + [x]
    ensures Elements(t) == Elements(s) + {x}
  {
    assert t[|s|] == x;
    assert forall i :: 0 <= i < |s| ==> t[i] == s[i];
    forall y | y in Elements(s) ensures y in Elements(t) {
      var i :| 0 <= i < |s| && s[i] == y;
      assert t[i] == y;
    }
  }

  lemma {:induction false} DistinctCounts<T>(s: seq<T>, x: T)
    requires Distinct(s)
    ensures multiset(s)[x] <= 1
  {
    if x in s {
      var k :| 0 <= k < |s| && s[k] == x;
      assert s == s[..k] + [s[k]] + s[k + 1..];
      assert x !in s[..k] && x !in s[k + 1..];
    }
  }

  lemma {:induction false} PermutationKeepsDistinct<T>(s: seq<T>, t: seq<T>)
    requires multiset(s) == multiset(t)
    requires Distinct(s)
    ensures Distinct(t)
  {
    forall i, j | 0 <= i < j < |t| ensures t[i] != t[j] {
      assert t == t[..j] + [t[j]] + t[j + 1..];
      assert multiset(t)[t[j]] == multiset(t[..j])[t[j]] + 1 + multiset(t[j + 1..])[t[j]];
      DistinctCounts(s, t[j]);
      assert t[i] in t[..j];
      assert t[i] in multiset(t[..j]);
    }
  }

  lemma {:induction false} ConcatElements<T>(s: seq<T>, t: seq<T>)
    ensures Elements(s + t) == Elements(s) + Elements(t)
  {
    forall x ensures x in Elements(s + t) <==> x in Elements(s) + Elements(t) {
      assert x in Elements(s + t) <==> x in s + t;
      assert x in Elements(s) <==> x in s;
      assert x in Elements(t) <==> x in t;
    }
  }
}
