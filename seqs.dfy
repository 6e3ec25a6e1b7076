/**
 * The Swift array operations the model needs: `filter` / `removeAll(where:)`,
 * `firstIndex(where:)`, `remove(at:)`, and removal of an `IndexSet` one index
 * at a time.
 */
module Seqs {
  import opened Common

  /** `a` is `b` with some elements left out, the rest in their original order. */
  ghost predicate IsSubsequence<T>(a: seq<T>, b: seq<T>)
    decreases |b|
  {
    if a == [] then true
    else if b == [] then false
    else (a[|a| - 1] == b[|b| - 1] && IsSubsequence(a[..|a| - 1], b[..|b| - 1]))
         || IsSubsequence(a, b[..|b| - 1])
  }

  lemma {:induction false} SubsequenceOfItself<T>(s: seq<T>)
    ensures IsSubsequence(s, s)
    decreases |s|
  {
    if s != [] {
      SubsequenceOfItself(s[..|s| - 1]);
    }
  }

  ghost predicate NoDuplicates<T>(s: seq<T>) {
    forall i, j :: 0 <= i < j < |s| ==> s[i] != s[j]
  }

  /** Swift's `filter(p)`; `removeAll(where: q)` is `Filter(s, x => !q(x))`. */
  function Filter<T(==)>(s: seq<T>, p: T -> bool): (r: seq<T>)
    ensures |r| <= |s|
    ensures forall i :: 0 <= i < |r| ==> r[i] in s && p(r[i])
    ensures forall i :: 0 <= i < |s| && p(s[i]) ==> s[i] in r
    ensures IsSubsequence(r, s)
    ensures (forall i :: 0 <= i < |s| ==> p(s[i])) ==> r == s
    decreases |s|
  {
    if s == [] then []
    else
      var kept := Filter(s[..|s| - 1], p);
      var last := s[|s| - 1];
      assert s == s[..|s| - 1] + [last];
      if p(last) then
        assert (kept + [last])[..|kept|] == kept;
        kept + [last]
      else kept
  }

  /** `filter` keeps each satisfying element as often as it occurs, and no other. */
  lemma {:induction false} FilterCounts<T>(s: seq<T>, p: T -> bool)
    ensures forall x :: multiset(Filter(s, p))[x] == if p(x) then multiset(s)[x] else 0
    decreases |s|
  {
    if s != [] {
      var front := s[..|s| - 1];
      FilterCounts(front, p);
      assert s == front + [s[|s| - 1]];
    }
  }

  /** Swift's `firstIndex(where: p)`. */
  function FirstIndexWhere<T>(s: seq<T>, p: T -> bool): (r: Option<nat>)
    ensures r.Some? ==> r.value < |s| && p(s[r.value])
    ensures r.Some? ==> forall j :: 0 <= j < r.value ==> !p(s[j])
    ensures r.None? <==> forall j :: 0 <= j < |s| ==> !p(s[j])
  {
    if s == [] then None
    else if p(s[0]) then Some(0)
    else
      match FirstIndexWhere(s[1..], p)
      case None => None
      case Some(k) => Some(k + 1)
  }

  /** Swift's `firstIndex(of: x)`. */
  function FirstIndexOf<T(==)>(s: seq<T>, x: T): (r: Option<nat>)
    ensures r.Some? ==> r.value < |s| && s[r.value] == x && x !in s[..r.value]
    ensures r.None? ==> x !in s
    decreases |s|
  {
    if s == [] then None
    else if s[0] == x then Some(0)
    else
      match FirstIndexOf(s[1..], x)
      case None => None
      case Some(k) =>
        assert s[..k + 1] == [s[0]] + s[1..][..k];
        Some(k + 1)
  }

  /** Swift's `remove(at: i)`, which traps unless `i` is a valid index. */
  function RemoveAt<T>(s: seq<T>, i: nat): (r: seq<T>)
    requires i < |s|
    ensures |r| == |s| - 1
    ensures forall j :: 0 <= j < i ==> r[j] == s[j]
    ensures forall j :: i <= j < |r| ==> r[j] == s[j + 1]
  {
    s[..i] + s[i + 1..]
  }

  lemma MultisetRemoveAt<T>(s: seq<T>, i: nat)
    requires i < |s|
    ensures multiset(RemoveAt(s, i)) + multiset{s[i]} == multiset(s)
  {
    assert s == s[..i] + [s[i]] + s[i + 1..];
  }

  /**
   * Removing the indices of `idx` one after the other, each from the list the
   * previous removals left, never traps: the k-th index must be below the
   * length after k removals.
   */
  ghost predicate Fits(n: nat, idx: seq<nat>) {
    forall k :: 0 <= k < |idx| ==> idx[k] + k < n
  }

  /** The iteration `for i in indexSet { list.remove(at: i) }`. */
  function RemoveIndices<T>(s: seq<T>, idx: seq<nat>): (r: seq<T>)
    requires Fits(|s|, idx)
    ensures |r| == |s| - |idx|
    decreases |idx|
  {
    if idx == [] then s
    else RemoveAt(RemoveIndices(s, idx[..|idx| - 1]), idx[|idx| - 1])
  }

  /** Every element left by `RemoveIndices` was in the list, as often as it was. */
  lemma {:induction false} RemoveIndicesShrinks<T>(s: seq<T>, idx: seq<nat>)
    requires Fits(|s|, idx)
    ensures multiset(RemoveIndices(s, idx)) <= multiset(s)
    decreases |idx|
  {
    if idx != [] {
      var front := idx[..|idx| - 1];
      RemoveIndicesShrinks(s, front);
      MultisetRemoveAt(RemoveIndices(s, front), idx[|idx| - 1]);
    }
  }

  /** IndexSet iterates its members in strictly increasing order. */
  ghost predicate Ascending(idx: seq<nat>) {
    forall i, j :: 0 <= i < j < |idx| ==> idx[i] < idx[j]
  }

  /**
   * Removes the elements at the given offsets of the ORIGINAL list, which is
   * what a deletion of several selected rows means.
   */
  function RemoveOffsets<T>(s: seq<T>, offsets: set<nat>): (r: seq<T>)
    ensures |r| <= |s|
    ensures (forall i :: i in offsets ==> i >= |s|) ==> r == s
    decreases |s|
  {
    if s == [] then []
    else RemoveOffsets(s[..|s| - 1], offsets) + (if |s| - 1 in offsets then [] else [s[|s| - 1]])
  }

  /**
   * `RemoveOffsets` keeps the surviving elements in their order and never
   * invents or repeats one.
   */
  lemma {:induction false} RemoveOffsetsIsSubsequence<T>(s: seq<T>, offsets: set<nat>)
    ensures IsSubsequence(RemoveOffsets(s, offsets), s)
    ensures multiset(RemoveOffsets(s, offsets)) <= multiset(s)
    decreases |s|
  {
    if s != [] {
      var n := |s| - 1;
      var front := s[..n];
      var r0 := RemoveOffsets(front, offsets);
      var r := RemoveOffsets(s, offsets);
      RemoveOffsetsIsSubsequence(front, offsets);
      assert s == front + [s[n]];
      if n in offsets {
        assert r == r0;
        if r0 != [] {
          SubsequenceOfPrefix(r0, front, s[n]);
        }
      } else {
        assert r == r0 + [s[n]];
        assert r[..|r| - 1] == r0;
      }
    }
  }

  /** Every element at an offset that was not selected survives `RemoveOffsets`. */
  lemma {:induction false} RemoveOffsetsKeepsUnselected<T>(s: seq<T>, offsets: set<nat>, i: nat)
    requires i < |s| && i !in offsets
    ensures s[i] in RemoveOffsets(s, offsets)
    decreases |s|
  {
    var n := |s| - 1;
    if i < n {
      RemoveOffsetsKeepsUnselected(s[..n], offsets, i);
    }
  }

  /** In a list without duplicates, no element at a selected offset survives `RemoveOffsets`. */
  lemma {:induction false} RemoveOffsetsDropsSelected<T>(s: seq<T>, offsets: set<nat>, i: nat)
    requires NoDuplicates(s)
    requires i < |s| && i in offsets
    ensures s[i] !in RemoveOffsets(s, offsets)
    decreases |s|
  {
    var n := |s| - 1;
    var front := s[..n];
    var r0 := RemoveOffsets(front, offsets);
    var tail: seq<T> := if n in offsets then [] else [s[n]];
    assert RemoveOffsets(s, offsets) == r0 + tail;
    if i < n {
      assert NoDuplicates(front);
      RemoveOffsetsDropsSelected(front, offsets, i);
      assert s[i] == front[i];
      assert s[i] != s[n];
    } else {
      assert tail == [];
      assert s[n] !in front;
      RemoveOffsetsIsSubsequence(front, offsets);
      SubsequenceMembers(r0, front);
    }
  }

  lemma SubsequenceOfPrefix<T>(a: seq<T>, b: seq<T>, x: T)
    requires a != []
    requires IsSubsequence(a, b)
    ensures IsSubsequence(a, b + [x])
  {
    assert (b + [x])[..|b|] == b;
  }

  lemma {:induction false} SubsequenceMembers<T>(a: seq<T>, b: seq<T>)
    requires IsSubsequence(a, b)
    ensures forall x :: x in a ==> x in b
    decreases |b|
  {
    if a != [] && b != [] {
      if a[|a| - 1] == b[|b| - 1] && IsSubsequence(a[..|a| - 1], b[..|b| - 1]) {
        SubsequenceMembers(a[..|a| - 1], b[..|b| - 1]);
        assert a == a[..|a| - 1] + [a[|a| - 1]];
        assert b == b[..|b| - 1] + [b[|b| - 1]];
      } else {
        SubsequenceMembers(a, b[..|b| - 1]);
        assert b == b[..|b| - 1] + [b[|b| - 1]];
      }
    }
  }

  /**
   * Removing indices in ascending order from the shortened list is not the
   * same as removing the selected offsets: selecting rows 0 and 1 of a
   * three-element list removes the elements of rows 0 and 2, and selecting
   * rows 0 and 2 traps.
   */
  lemma AscendingRemovalMissesSelection()
    ensures Ascending([0, 1]) && Fits(3, [0, 1])
    ensures RemoveIndices([10, 20, 30], [0, 1]) == [20]
    ensures RemoveOffsets([10, 20, 30], {0, 1}) == [30]
    ensures Ascending([0, 2]) && !Fits(3, [0, 2])
  {
    var s := [10, 20, 30];
    assert RemoveIndices(s, [0]) == [20, 30] by {
      assert [0][..0] == [];
    }
    assert [0, 1][..1] == [0];
    assert RemoveAt([20, 30], 1) == [20];
    assert s[..2] == [10, 20];
    assert [10, 20][..1] == [10];
    assert [10][..0] == [];
    assert RemoveOffsets([10], {0, 1}) == [];
    assert RemoveOffsets([10, 20], {0, 1}) == [];
    assert [0, 2][1] + 1 >= 3;
  }
}
