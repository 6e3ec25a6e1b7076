/**
 * Bookmark.swift: a bookmarked image, named by its file name and the path of
 * the directory it was found in, and stamped with its creation time.
 */
module Bookmarks {

  /** `Date`, as a point on a clock. */
  type Date = int

  /** `Bookmark`; Dafny's structural equality is the synthesized `==` over all three fields. */
  datatype Bookmark = Bookmark(name: string, parentPath: string, date: Date) {

    /** `id`: the name alone. */
    function Id(): string {
      name
    }
  }

  /** Two bookmarks are equal exactly when name, path and date all agree. */
  lemma EqualityComparesAllFields(a: Bookmark, b: Bookmark)
    ensures a == b <==> a.name == b.name && a.parentPath == b.parentPath && a.date == b.date
  {
  }

  /** Bookmarks of the same image in two directories are different bookmarks with the same id. */
  lemma SameIdDifferentPaths(name: string, p: string, q: string, d: Date)
    requires p != q
    ensures Bookmark(name, p, d).Id() == Bookmark(name, q, d).Id()
    ensures Bookmark(name, p, d) != Bookmark(name, q, d)
  {
  }

  /** How many characters other than '/' open `s`. */
  function PieceLength(s: string): (n: nat)
    ensures n <= |s|
    ensures forall i :: 0 <= i < n ==> s[i] != '/'
    ensures n < |s| ==> s[n] == '/'
    decreases |s|
  {
    if s == [] || s[0] == '/' then 0 else 1 + PieceLength(s[1..])
  }

  /**
   * `split(separator: "/")`: the maximal runs of characters other than '/',
   * in order; empty pieces are dropped.
   */
  function Split(s: string): (r: seq<string>)
    ensures forall k :: 0 <= k < |r| ==> r[k] != [] && '/' !in r[k]
    decreases |s|
  {
    if s == [] then []
    else if s[0] == '/' then Split(s[1..])
    else
      var n := PieceLength(s);
      [s[..n]] + Split(s[n..])
  }

  /** `split` gives no piece at all exactly when the string holds nothing but '/'. */
  lemma {:induction false} SplitEmptyIff(s: string)
    ensures Split(s) == [] <==> forall i :: 0 <= i < |s| ==> s[i] == '/'
    decreases |s|
  {
    if s != [] && s[0] == '/' {
      SplitEmptyIff(s[1..]);
      assert forall i :: 1 <= i < |s| ==> s[i] == s[1..][i - 1];
    }
  }

  /** The bookmark's path names at least one directory, so `lastPathComponent` has a piece to take. */
  predicate HasComponent(b: Bookmark) {
    exists i :: 0 <= i < |b.parentPath| && b.parentPath[i] != '/'
  }

  /** The last piece of `s`, when it has one (`.last!`). */
  function LastPiece(s: string): string
    requires Split(s) != []
  {
    Split(s)[|Split(s)| - 1]
  }

  /**
   * `lastPathComponent`: the last piece of the path. The force-unwrap traps
   * when the path has no piece, hence the precondition.
   */
  function LastPathComponent(b: Bookmark): (r: string)
    requires HasComponent(b)
    ensures r != [] && '/' !in r
  {
    SplitEmptyIff(b.parentPath);
    LastPiece(b.parentPath)
  }

  /**
   * `r` sits in `s` at offset `k`, right after a '/' (or at the start), and
   * only '/' follows it.
   */
  predicate TailPieceAt(s: string, r: string, k: nat) {
    k + |r| <= |s| && s[k..k + |r|] == r &&
    (k == 0 || s[k - 1] == '/') &&
    forall j :: k + |r| <= j < |s| ==> s[j] == '/'
  }

  /** A tail piece of a suffix of `s` is a tail piece of `s`. */
  lemma TailPieceShift(s: string, d: nat, r: string, k: nat)
    requires d <= |s| && TailPieceAt(s[d..], r, k)
    requires k > 0 || d == 0 || s[d - 1] == '/'
    ensures TailPieceAt(s, r, d + k)
  {
    assert s[d + k..d + k + |r|] == s[d..][k..k + |r|];
    assert k > 0 ==> s[d + k - 1] == s[d..][k - 1];
    assert forall j :: d + k + |r| <= j < |s| ==> s[j] == s[d..][j - d];
  }

  /** The last piece of `s` is its tail piece. */
  lemma {:induction false} LastPieceIsTail(s: string)
    requires Split(s) != []
    ensures exists k: nat :: TailPieceAt(s, LastPiece(s), k)
    decreases |s|
  {
    var last := LastPiece(s);
    if s[0] == '/' {
      LastPieceIsTail(s[1..]);
      var k: nat :| TailPieceAt(s[1..], last, k);
      TailPieceShift(s, 1, last, k);
    } else {
      var n := PieceLength(s);
      var rest := s[n..];
      SplitEmptyIff(rest);
      if Split(rest) == [] {
        TailPieceShift(s, 0, last, 0);
      } else {
        LastPieceIsTail(rest);
        var k: nat :| TailPieceAt(rest, last, k);
        assert rest[k] == last[0];
        TailPieceShift(s, n, last, k);
      }
    }
  }

  /** `lastPathComponent` is the last directory named in the path, whatever '/' trail it. */
  lemma LastPathComponentIsLastDirectory(b: Bookmark)
    requires HasComponent(b)
    ensures exists k: nat :: TailPieceAt(b.parentPath, LastPathComponent(b), k)
  {
    SplitEmptyIff(b.parentPath);
    LastPieceIsTail(b.parentPath);
    var k: nat :| TailPieceAt(b.parentPath, LastPiece(b.parentPath), k);
    assert TailPieceAt(b.parentPath, LastPathComponent(b), k);
  }
}
