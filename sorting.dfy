/** An ascending sort of a sequence of naturals, standing for `Vec::sort`. */
module Sorting {

  predicate IsSorted(s: seq<nat>) {
    forall i, j | 0 <= i < j < |s| :: s[i] <= s[j]
  }

  /** `x` placed into the sorted `s` so that the result stays sorted. */
  function Insert(x: nat, s: seq<nat>): (r: seq<nat>)
    requires IsSorted(s)
    ensures IsSorted(r)
    ensures multiset(r) == multiset(s) + multiset{x}
    ensures |r| == |s| + 1
  {
    if |s| == 0 then [x]
    else if x <= s[0] then
      ConsSorted(x, s);
      [x] + s
    else
      var rest := Insert(x, s[1..]);
      InsertBehind(x, s, rest);
      [s[0]] + rest
  }

  /** Putting `s[0]`, smaller than `x`, in front of `x` inserted into the
      rest of `s` gives a sorted sequence holding `x` and the elements of `s`. */
  lemma InsertBehind(x: nat, s: seq<nat>, rest: seq<nat>)
    requires IsSorted(s) && |s| > 0 && s[0] < x
    requires IsSorted(rest) && multiset(rest) == multiset(s[1..]) + multiset{x}
    ensures IsSorted([s[0]] + rest)
    ensures multiset([s[0]] + rest) == multiset(s) + multiset{x}
  {
    assert s == [s[0]] + s[1..];
    LowerBoundKept(s[0], rest, s[1..] + [x]);
    ConsSorted(s[0], rest);
  }

  /** A lower bound of every element survives reordering. */
  lemma LowerBoundKept(y: nat, t: seq<nat>, u: seq<nat>)
    requires multiset(t) == multiset(u)
    requires forall k | 0 <= k < |u| :: y <= u[k]
    ensures forall k | 0 <= k < |t| :: y <= t[k]
  {
    forall k | 0 <= k < |t| ensures y <= t[k] {
      assert t[k] in multiset(u);
    }
  }

  /** An element no larger than any of a sorted sequence, put in front of
      it, keeps it sorted. */
  lemma ConsSorted(y: nat, t: seq<nat>)
    requires IsSorted(t)
    requires forall k | 0 <= k < |t| :: y <= t[k]
    ensures IsSorted([y] + t)
  {
  }

  /** The elements of `s` in ascending order: sorted, and a permutation of `s`. */
  function Sort(s: seq<nat>): (r: seq<nat>)
    ensures IsSorted(r)
    ensures multiset(r) == multiset(s)
    ensures |r| == |s|
  {
    if |s| == 0 then []
    else
      assert s == [s[0]] + s[1..];
      Insert(s[0], Sort(s[1..]))
  }


  /** Swaps `a[i]` back into the sorted prefix `a[..i]`, so that `a[..i + 1]`
      is sorted; the elements of `a` are the same, and those after `i` stay
      where they were. */
  method InsertInPlace(a: array<nat>, i: nat)
    requires i < a.Length
    requires forall p, q | 0 <= p < q < i :: a[p] <= a[q]
    modifies a
    ensures forall p, q | 0 <= p < q <= i :: a[p] <= a[q]
    ensures multiset(a[..]) == multiset(old(a[..]))
    ensures a[i + 1..] == old(a[i + 1..])
  {
    var j := i;
    while j > 0 && a[j - 1] > a[j]
      invariant 0 <= j <= i < a.Length
      invariant Inserting(a[..], i, j)
      invariant multiset(a[..]) == multiset(old(a[..]))
      invariant a[i + 1..] == old(a[i + 1..])
    {
      ghost var before := a[..];
      a[j - 1], a[j] := a[j], a[j - 1];
      SwapStep(before, a[..], i, j);
      j := j - 1;
    }
    InsertDone(a[..], i, j);
  }

  /** The state of `InsertInPlace`'s loop: `s[..i + 1]` is sorted but for
      the element at `j`, which is no larger than anything after it. */
  predicate Inserting(s: seq<nat>, i: nat, j: nat)
    requires j <= i < |s|
  {
    && (forall p, q | 0 <= p < q <= i && p != j && q != j :: s[p] <= s[q])
    && (forall p, q | 0 <= p < j < q <= i :: s[p] <= s[q])
    && (forall q | j < q <= i :: s[j] <= s[q])
  }

  /** Swapping the element at `j` with a larger one before it moves the
      state of the loop one place down. */
  lemma SwapStep(s: seq<nat>, t: seq<nat>, i: nat, j: nat)
    requires 0 < j <= i < |s| && Inserting(s, i, j) && s[j - 1] > s[j]
    requires t == s[j - 1 := s[j]][j := s[j - 1]]
    ensures Inserting(t, i, j - 1)
    ensures multiset(t) == multiset(s)
  {
  }

  /** Once nothing larger stands right before it, the element at `j` is in
      place. */
  lemma InsertDone(s: seq<nat>, i: nat, j: nat)
    requires j <= i < |s| && Inserting(s, i, j)
    requires j == 0 || s[j - 1] <= s[j]
    ensures forall p, q | 0 <= p < q <= i :: s[p] <= s[q]
  {
  }

  /** Sorts `a` in place, ascending, by swapping each element back into the
      sorted prefix; the result is the one sorted permutation, `Sort`. */
  method SortInPlace(a: array<nat>)
    modifies a
    ensures a[..] == Sort(old(a[..]))
  {
    ghost var orig := a[..];
    for i := 0 to a.Length
      invariant forall p, q | 0 <= p < q < i :: a[p] <= a[q]
      invariant multiset(a[..]) == multiset(orig)
    {
      InsertInPlace(a, i);
    }
    assert IsSorted(a[..]);
    SortedUnique(a[..], Sort(orig));
  }

  /** Two sorted sequences holding the same elements are equal: a sorted
      permutation is unique. */
  lemma {:induction false} SortedUnique(a: seq<nat>, b: seq<nat>)
    requires IsSorted(a) && IsSorted(b)
    requires multiset(a) == multiset(b)
    ensures a == b
  {
    if |a| > 0 {
      SameHead(a, b);
      TailMultiset(a);
      TailMultiset(b);
      SortedUnique(a[1..], b[1..]);
      assert a == [a[0]] + a[1..];
      assert b == [b[0]] + b[1..];
    }
  }

  /** Two non-empty sorted sequences with the same elements start alike. */
  lemma SameHead(a: seq<nat>, b: seq<nat>)
    requires IsSorted(a) && IsSorted(b) && |a| > 0
    requires multiset(a) == multiset(b)
    ensures |b| > 0 && a[0] == b[0]
  {
    assert a[0] in multiset(b);
    var i :| 0 <= i < |b| && b[i] == a[0];
    assert b[0] in multiset(a);
    var j :| 0 <= j < |a| && a[j] == b[0];
  }

  lemma TailMultiset(s: seq<nat>)
    requires |s| > 0
    ensures multiset(s[1..]) == multiset(s) - multiset{s[0]}
  {
    assert s == [s[0]] + s[1..];
  }

  /** `Sort` gives the one sorted permutation of its input. */
  lemma SortIsUnique(s: seq<nat>, t: seq<nat>)
    requires IsSorted(t) && multiset(s) == multiset(t)
    ensures Sort(s) == t
  {
    SortedUnique(Sort(s), t);
  }

  /** The sum of a sequence of naturals. */
  function SeqSum(s: seq<nat>): nat {
    if |s| == 0 then 0 else SeqSum(s[..|s| - 1]) + s[|s| - 1]
  }

  lemma {:induction false} SeqSumAppend(a: seq<nat>, b: seq<nat>)
    ensures SeqSum(a + b) == SeqSum(a) + SeqSum(b)
  {
    if |b| == 0 {
      assert a + b == a;
    } else {
      assert (a + b)[..|a + b| - 1] == a + b[..|b| - 1];
      SeqSumAppend(a, b[..|b| - 1]);
    }
  }

  /** Reordering a sequence does not change its sum. */
  lemma {:induction false} SumOfPermutation(a: seq<nat>, b: seq<nat>)
    requires multiset(a) == multiset(b)
    ensures SeqSum(a) == SeqSum(b)
  {
    if |a| > 0 {
      var x := a[|a| - 1];
      var init := a[..|a| - 1];
      assert a == init + [x];
      assert x in multiset(b) by {
        assert x in multiset(a);
      }
      var j :| 0 <= j < |b| && b[j] == x;
      var rest := b[..j] + b[j + 1..];
      assert b == b[..j] + [x] + b[j + 1..];
      assert multiset(b) == multiset(b[..j]) + multiset{x} + multiset(b[j + 1..]);
      assert multiset(a) == multiset(init) + multiset{x};
      assert multiset(rest) == multiset(b[..j]) + multiset(b[j + 1..]);
      assert multiset(rest) == multiset(b) - multiset{x};
      assert multiset(init) == multiset(a) - multiset{x};
      SumOfPermutation(init, rest);
      SeqSumAppend(init, [x]);
      SeqSumAppend(b[..j] + [x], b[j + 1..]);
      SeqSumAppend(b[..j], [x]);
      SeqSumAppend(b[..j], b[j + 1..]);
    }
  }
}
