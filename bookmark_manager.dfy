/**
 * BookmarManager.swift: the list of bookmarked images, mirrored after every
 * change into the "bookmarks" entry of the manager's own preferences suite.
 * `lastNodePath`, the directory the user opened last, is a static variable
 * of the class; the singleton manager keeps it here as a field, and the
 * clock's `Date.now` is passed in as `now`.
 */
module BookmarkManagers {
  import opened Common
  import opened Seqs
  import opened Bookmarks

  /** Some bookmark in `list` names the image `name` in the directory `path`. */
  predicate IsBookmarkedIn(list: seq<Bookmark>, name: string, path: string) {
    exists i :: 0 <= i < |list| && list[i].name == name && list[i].parentPath == path
  }

  /** No two bookmarks of `list` name the same image in the same directory. */
  ghost predicate PlacesUnique(list: seq<Bookmark>) {
    forall i, j :: 0 <= i < j < |list| ==>
      list[i].name != list[j].name || list[i].parentPath != list[j].parentPath
  }

  /**
   * The list after `toggleBookmark`, as written: the first bookmark EQUAL to
   * `b` (date included) is removed; when there is none, `b` is appended.
   */
  function Toggled(list: seq<Bookmark>, b: Bookmark): (r: seq<Bookmark>)
    ensures b !in list ==> r == list + [b]
    ensures b in list ==>
      exists i :: 0 <= i < |list| && list[i] == b && b !in list[..i] && r == list[..i] + list[i + 1..]
  {
    match FirstIndexOf(list, b)
    case Some(i) => RemoveAt(list, i)
    case None => list + [b]
  }

  /** Toggling a bookmark that is not in the list twice gives the list back. */
  lemma ToggleTwiceRestores(list: seq<Bookmark>, b: Bookmark)
    requires b !in list
    ensures Toggled(Toggled(list, b), b) == list
  {
    var l := list + [b];
    assert l[..|list|] == list;
    assert b !in l[..|list|];
  }

  /**
   * `toggleBookmark` stamps the bookmark it looks for with the current time,
   * so when every stored bookmark is older it removes none: it appends, and
   * the image is bookmarked afterwards whether or not it was before.
   */
  lemma ToggleNeverUnbookmarks(list: seq<Bookmark>, name: string, path: string, now: Date)
    requires forall i :: 0 <= i < |list| ==> list[i].date < now
    ensures Toggled(list, Bookmark(name, path, now)) == list + [Bookmark(name, path, now)]
    ensures IsBookmarkedIn(Toggled(list, Bookmark(name, path, now)), name, path)
  {
    var b := Bookmark(name, path, now);
    forall i | 0 <= i < |list|
      ensures list[i] != b
    {
      assert list[i].date < b.date;
    }
    assert (list + [b])[|list|] == b;
  }

  /**
   * The toggle as evidently intended: the bookmark of `name` in `path`, of
   * whatever date, is removed; when there is none, a new one is appended.
   */
  function ToggledByPlace(list: seq<Bookmark>, name: string, path: string, now: Date): (r: seq<Bookmark>)
    ensures !IsBookmarkedIn(list, name, path) ==> r == list + [Bookmark(name, path, now)]
    ensures IsBookmarkedIn(list, name, path) ==> |r| == |list| - 1
  {
    match FirstIndexWhere(list, (x: Bookmark) => x.name == name && x.parentPath == path)
    case Some(i) => RemoveAt(list, i)
    case None => list + [Bookmark(name, path, now)]
  }

  /** With at most one bookmark per image and directory, the intended toggle flips `isBookmarked`. */
  lemma ToggleByPlaceFlips(list: seq<Bookmark>, name: string, path: string, now: Date)
    requires PlacesUnique(list)
    ensures IsBookmarkedIn(ToggledByPlace(list, name, path, now), name, path) <==> !IsBookmarkedIn(list, name, path)
    ensures PlacesUnique(ToggledByPlace(list, name, path, now))
  {
    var r := ToggledByPlace(list, name, path, now);
    var f := FirstIndexWhere(list, (x: Bookmark) => x.name == name && x.parentPath == path);
    if f.Some? {
      var i := f.value;
      assert r == RemoveAt(list, i);
      forall j | 0 <= j < |r|
        ensures r[j].name != name || r[j].parentPath != path
      {
        if j < i {
          assert r[j] == list[j];
        } else {
          assert r[j] == list[j + 1];
        }
      }
    } else {
      var b := Bookmark(name, path, now);
      assert r == list + [b];
      assert r[|list|] == b;
      forall i, j | 0 <= i < j < |r|
        ensures r[i].name != r[j].name || r[i].parentPath != r[j].parentPath
      {
        if j == |list| {
          assert r[i] == list[i];
        }
      }
    }
  }

  /** `removeBookmark(for:)`: drops every bookmark of the same image and directory, whatever its date. */
  function WithoutPlace(list: seq<Bookmark>, b: Bookmark): (r: seq<Bookmark>)
    ensures !IsBookmarkedIn(r, b.name, b.parentPath)
    ensures IsSubsequence(r, list)
    ensures forall i :: 0 <= i < |list| && (list[i].name != b.name || list[i].parentPath != b.parentPath) ==>
      list[i] in r
    ensures forall x :: multiset(r)[x] ==
                        (if x.name != b.name || x.parentPath != b.parentPath then multiset(list)[x] else 0)
  {
    var keep := (x: Bookmark) => !(x.name == b.name && x.parentPath == b.parentPath);
    var r := Filter(list, keep);
    FilterCounts(list, keep);
    assert forall i :: 0 <= i < |r| ==> keep(r[i]);
    r
  }

  class BookmarkManager {
    var bookmarks: seq<Bookmark>
    /** The "bookmarks" entry of the "BookmarkManager" suite. */
    var saved: Stored<seq<Bookmark>>
    /** `BookmarkManager.lastNodePath`. */
    var lastNodePath: Option<string>

    /** What is saved is the list (`syncBookmarks` ran after the last change). */
    ghost predicate Synced()
      reads this
    {
      saved == Saved(bookmarks)
    }

    /**
     * `init()` with `loadBookmarks()`: the saved list when there is one; an
     * empty list, with nothing saved, otherwise. The decoding is `try!`, so a
     * saved entry that does not decode traps.
     */
    constructor (saved: Stored<seq<Bookmark>>, lastNodePath: Option<string>)
      requires !saved.Undecodable?
      ensures bookmarks == saved.DecodedOr([])
      ensures this.saved == saved && this.lastNodePath == lastNodePath
      ensures saved.Saved? ==> Synced()
    {
      bookmarks := saved.DecodedOr([]);
      this.saved := saved;
      this.lastNodePath := lastNodePath;
    }

    /** `syncBookmarks()`. */
    method Sync()
      modifies this
      ensures bookmarks == old(bookmarks) && lastNodePath == old(lastNodePath)
      ensures Synced()
    {
      saved := Saved(bookmarks);
    }

    /** `toggleBookmark(for:)`: nothing happens while no directory has been opened. */
    method ToggleBookmark(imageName: string, now: Date)
      modifies this
      ensures lastNodePath == old(lastNodePath)
      ensures lastNodePath.None? ==> bookmarks == old(bookmarks) && saved == old(saved)
      ensures lastNodePath.Some? ==>
        bookmarks == Toggled(old(bookmarks), Bookmark(imageName, lastNodePath.value, now)) && Synced()
    {
      if lastNodePath.None? {
        return;
      }
      var b := Bookmark(imageName, lastNodePath.value, now);
      var index := FirstIndexOf(bookmarks, b);
      if index.Some? {
        bookmarks := RemoveAt(bookmarks, index.value);
      } else {
        bookmarks := bookmarks + [b];
      }
      Sync();
    }

    /**
     * `addBookmark(imageName:parent:)`: the new bookmark goes first. The index
     * returned is the new count minus one, the position of the oldest
     * bookmark, which is the new one only when the list was empty.
     */
    method AddBookmark(imageName: string, parent: string, now: Date) returns (r: int)
      modifies this
      ensures bookmarks == [Bookmark(imageName, parent, now)] + old(bookmarks)
      ensures r == |old(bookmarks)| && 0 <= r < |bookmarks|
      ensures old(bookmarks) != [] ==> bookmarks[r] == old(bookmarks)[|old(bookmarks)| - 1]
      ensures IsBookmarkedIn(bookmarks, imageName, parent)
      ensures lastNodePath == old(lastNodePath) && Synced()
    {
      var newBookmark := Bookmark(imageName, parent, now);
      bookmarks := [newBookmark] + bookmarks;
      Sync();
      r := |bookmarks| - 1;
      assert bookmarks[0] == newBookmark;
    }

    /**
     * `removeBookmark(at:)`: each index of the set, in increasing order, is
     * removed from the list the previous removals left; an index past its end
     * traps.
     */
    method RemoveBookmarksAt(indices: seq<nat>)
      requires Ascending(indices) && Fits(|bookmarks|, indices)
      modifies this
      ensures bookmarks == RemoveIndices(old(bookmarks), indices)
      ensures lastNodePath == old(lastNodePath) && Synced()
    {
      var k := 0;
      while k < |indices|
        invariant 0 <= k <= |indices|
        invariant Fits(|old(bookmarks)|, indices[..k])
        invariant bookmarks == RemoveIndices(old(bookmarks), indices[..k])
        invariant lastNodePath == old(lastNodePath)
      {
        assert indices[..k + 1][..k] == indices[..k];
        bookmarks := RemoveAt(bookmarks, indices[k]);
        k := k + 1;
      }
      assert indices[..k] == indices;
      Sync();
    }

    /** `removeBookmark(for:)`. */
    method RemoveBookmark(b: Bookmark)
      modifies this
      ensures bookmarks == WithoutPlace(old(bookmarks), b)
      ensures lastNodePath.Some? && lastNodePath.value == b.parentPath ==> !IsBookmarked(b.name)
      ensures lastNodePath == old(lastNodePath) && Synced()
    {
      bookmarks := WithoutPlace(bookmarks, b);
      Sync();
    }

    /** `clearBookmarks()`. */
    method ClearBookmarks()
      modifies this
      ensures bookmarks == []
      ensures lastNodePath == old(lastNodePath) && Synced()
    {
      bookmarks := [];
      Sync();
    }

    /** `isBookmarked(_:)`: false while no directory has been opened. */
    function IsBookmarked(imageName: string): (r: bool)
      reads this
      ensures r <==>
        (lastNodePath.Some? && exists b :: b in bookmarks && b.name == imageName && b.parentPath == lastNodePath.value)
    {
      lastNodePath.Some? && IsBookmarkedIn(bookmarks, imageName, lastNodePath.value)
    }

    /** `isBookmarkEmpty`. */
    function IsBookmarkEmpty(): (r: bool)
      reads this
      ensures r ==> forall imageName :: !IsBookmarked(imageName)
    {
      bookmarks == []
    }
  }
}
