/** Python's `list.sort(reverse=...)` on a list of ints: a reference definition
    (insertion into an ordered sequence) and the in-place sort proved equal to it. */
module Sorting {

  /** x may stand before y: non-decreasing order, or non-increasing when `reverse`. */
  predicate InOrder(x: int, y: int, reverse: bool) {
    if reverse then y <= x else x <= y
  }

  predicate Ordered(s: seq<int>, reverse: bool) {
    forall p, q :: 0 <= p < q < |s| ==> InOrder(s[p], s[q], reverse)
  }

  /** Inserts x before the first element it may stand before. */
  function Insert(x: int, s: seq<int>, reverse: bool): (r: seq<int>)
    ensures |r| == |s| + 1
  {
    if s == [] then [x]
    else if InOrder(x, s[0], reverse) then [x] + s
    else [s[0]] + Insert(x, s[1..], reverse)
  }

  /** The list as `sort(reverse=reverse)` leaves it. */
  function Sorted(s: seq<int>, reverse: bool): (r: seq<int>)
    ensures |r| == |s|
  {
    if s == [] then [] else Insert(s[0], Sorted(s[1..], reverse), reverse)
  }

  lemma {:induction false} InsertPermutes(x: int, s: seq<int>, reverse: bool)
    ensures multiset(Insert(x, s, reverse)) == multiset(s) + multiset{x}
  {
    if s != [] && !InOrder(x, s[0], reverse) {
      InsertPermutes(x, s[1..], reverse);
      assert s == [s[0]] + s[1..];
    }
  }

  lemma {:induction false} InsertOrdered(x: int, s: seq<int>, reverse: bool)
    requires Ordered(s, reverse)
    ensures Ordered(Insert(x, s, reverse), reverse)
  {
    if s != [] && !InOrder(x, s[0], reverse) {
      var rest := Insert(x, s[1..], reverse);
      InsertOrdered(x, s[1..], reverse);
      InsertPermutes(x, s[1..], reverse);
      forall q | 0 <= q < |rest| ensures InOrder(s[0], rest[q], reverse) {
        assert rest[q] in multiset(rest);
        if rest[q] != x {
          assert rest[q] in multiset(s[1..]);
          var k :| 0 <= k < |s[1..]| && s[1..][k] == rest[q];
          assert s[k + 1] == rest[q];
        }
      }
    }
  }

  /** The sorted list is ordered in the requested direction. */
  lemma {:induction false} SortedOrdered(s: seq<int>, reverse: bool)
    ensures Ordered(Sorted(s, reverse), reverse)
  {
    if s != [] {
      SortedOrdered(s[1..], reverse);
      InsertOrdered(s[0], Sorted(s[1..], reverse), reverse);
    }
  }

  /** The sorted list holds exactly the elements of the input. */
  lemma {:induction false} SortedPermutes(s: seq<int>, reverse: bool)
    ensures multiset(Sorted(s, reverse)) == multiset(s)
  {
    if s != [] {
      SortedPermutes(s[1..], reverse);
      InsertPermutes(s[0], Sorted(s[1..], reverse), reverse);
      assert s == [s[0]] + s[1..];
    }
  }

  /** Two ordered arrangements of the same elements are the same list, so any
      correct sort agrees with `Sorted`. */
  lemma {:induction false} OrderedUnique(s: seq<int>, t: seq<int>, reverse: bool)
    requires Ordered(s, reverse) && Ordered(t, reverse)
    requires multiset(s) == multiset(t)
    ensures s == t
  {
    if s == [] {
      assert |t| == |multiset(t)| == 0;
    } else {
      assert |t| == |multiset(t)| == |multiset(s)| == |s|;
      assert s[0] in multiset(t);
      var k :| 0 <= k < |t| && t[k] == s[0];
      assert t[0] in multiset(s);
      var m :| 0 <= m < |s| && s[m] == t[0];
      assert InOrder(t[0], s[0], reverse) by {
        if k > 0 { assert InOrder(t[0], t[k], reverse); }
      }
      assert InOrder(s[0], t[0], reverse) by {
        if m > 0 { assert InOrder(s[0], s[m], reverse); }
      }
      assert s[0] == t[0];
      assert s == [s[0]] + s[1..];
      assert t == [t[0]] + t[1..];
      assert multiset(s) == multiset{s[0]} + multiset(s[1..]);
      assert multiset(t) == multiset{t[0]} + multiset(t[1..]);
      assert multiset(s[1..]) == multiset(s) - multiset{s[0]};
      assert multiset(t[1..]) == multiset(t) - multiset{t[0]};
      OrderedUnique(s[1..], t[1..], reverse);
    }
  }

  /** An ordered permutation of `s` is `Sorted(s)`. */
  lemma OrderedPermutationIsSorted(r: seq<int>, s: seq<int>, reverse: bool)
    requires Ordered(r, reverse)
    requires multiset(r) == multiset(s)
    ensures r == Sorted(s, reverse)
  {
    SortedOrdered(s, reverse);
    SortedPermutes(s, reverse);
    OrderedUnique(r, Sorted(s, reverse), reverse);
  }

  /** `a.sort(reverse=reverse)`, by insertion with adjacent swaps. */
  method SortInPlace(a: array<int>, reverse: bool)
    modifies a
    ensures a[..] == Sorted(old(a[..]), reverse)
  {
    var i := 0;
    while i < a.Length
      invariant 0 <= i <= a.Length
      invariant Ordered(a[..i], reverse)
      invariant multiset(a[..]) == multiset(old(a[..]))
    {
      var j := i;
      while j > 0 && !InOrder(a[j - 1], a[j], reverse)
        invariant 0 <= j <= i
        invariant forall p, q :: 0 <= p < q <= i && p != j && q != j ==> InOrder(a[p], a[q], reverse)
        invariant forall q :: j < q <= i ==> InOrder(a[j], a[q], reverse)
        invariant multiset(a[..]) == multiset(old(a[..]))
      {
        a[j - 1], a[j] := a[j], a[j - 1];
        j := j - 1;
      }
      i := i + 1;
    }
    assert a[..a.Length] == a[..];
    OrderedPermutationIsSorted(a[..], old(a[..]), reverse);
  }
}
