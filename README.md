# HeaderViewer, modelled in Dafny

HeaderViewer is an iOS app for browsing the Objective-C runtime. It shows a
tree of the system's frameworks and bundles (`NamedNode`). For each image it
lists the classes and protocols, which can be searched and narrowed by scope.
It renders a generated header as numbered, coloured lines whose class and
protocol names link onwards. It keeps a bounded history of opened objects and
a list of bookmarked images in the preferences store. Its code-viewer
preferences hold colour themes, a light/dark theme toggle, an app colour
scheme and a font size.

This project models the app's plain logic and proves what that logic promises.
The external class-dump library, SwiftUI and the preferences store are
abstracted away:

- the token stream of a generated header becomes a sequence of `Chunk`s;
- colours are the expressions that build them;
- the preferences store is a map, or a `Stored` value per key;
- whatever the runtime reports (class and protocol names, whether an image is
  loaded, a load error) is passed in as a parameter.

Each Swift file is one module:

| module | Swift file |
|---|---|
| `SemanticLines`, `SemanticOptimize` | `SemanticStringView.swift` |
| `HistoryManagers` | `HistoryManager.swift` |
| `Bookmarks` | `Bookmark.swift` |
| `BookmarkManagers` | `BookmarManager.swift` |
| `NamedNodes` | `NamedNode.swift` |
| `NamedNodeRows` | `NamedNodeRow.swift` |
| `RuntimeObjectTypes` | `RuntimeObjectType.swift` |
| `SearchScopes` | `RuntimeTypeSearchScope.swift` |
| `RuntimeObjectLists` | `RuntimeObjectsViewModel.swift` |
| `ImageRuntimeObjects` | `ImageRuntimeObjectsViewModel.swift` |
| `Themes` | `Theme.swift` |
| `SemanticColors` | `SemanticColor.swift` |
| `Preferences` | `CodePreferences.swift` |
| `Settings` | `SettingsManager.swift` |
| `AppearancePopover` | `AppearancePopover.swift` |
| `RuntimeObjectDetails` | `RuntimeObjectDetail.swift` |

`Common`, `Seqs`, `Strings` and `SemanticTypes` hold the Swift and Foundation
operations the modules share.

Objects whose fields the app updates in place are Dafny classes, with
`modifies` clauses on their methods. These are:

- `HistoryManager`, `BookmarkManager`, `SettingsManager` and `CodePreferences`;
- the two view models;
- `NamedNode`;
- the local state that `semanticLines` and `optimize` share with their nested
  functions (`LineBuilder`, `Optimizer`).

Each such method states its whole new state, either outright or through a
function on the old state. The properties the app relies on are proved about
those functions.

The loops of `semanticLines`, `optimize`, `getFileContent` and the index-set
removals are `for`/`while` loops with invariants. The state between steps of
`semanticLines` is `Consistent`: joining the finished lines and the line in
progress gives back the text read so far, and there is one finished line per
line break. The state of `optimize` is `Tracks`: the entries show every run
read, in order, and each text group is bounded. The round trip
`getFileContent(semanticLines(s)) == text of s` follows from these.

Where the code and the behaviour its authors evidently intended differ, the
class methods follow the code as written. The intended behaviour is modelled
separately, and both are listed under "## Findings".

## Model

| member | source | states |
|---|---|---|
| SemanticLines.LongestLine | HeaderViewer/Content/SemanticStringView.swift:291-303 | the index is the first line of strictly greatest length; it is absent exactly when every line is empty; when present it is below the line count |
| SemanticLines.LongestLineAppend | HeaderViewer/Content/SemanticStringView.swift:297-303 | finishing a line replaces the best line only when the new line is strictly longer |
| SemanticLines.PushRunKeepsConsistent | HeaderViewer/Content/SemanticStringView.swift:309-312 | adding a break-free run to the line in progress keeps the lines spelling the text read, with run ids equal to their positions |
| SemanticLines.PushLineKeepsConsistent | HeaderViewer/Content/SemanticStringView.swift:297-306 | finishing a line keeps the state consistent with the text read plus one line break: the new line is numbered by its index, and the longest-line record is updated |
| SemanticLines.PushLineKeepsShape | HeaderViewer/Content/SemanticStringView.swift:297-299 | line numbers and run ids stay equal to their positions, and no run holds a line break |
| SemanticLines.PushLineKeepsSpelling | HeaderViewer/Content/SemanticStringView.swift:297-305 | finishing a line adds exactly one line break to the joined text and one to the line count |
| SemanticLines.SplitAtBreak | HeaderViewer/Content/SemanticStringView.swift:315-319 | cutting a chunk at a line break and dropping the break loses no text |
| SemanticLines.ChunkTokensAlternate | HeaderViewer/Content/SemanticStringView.swift:314-321 | cutting a chunk at its line breaks gives pieces and breaks alternating, starting and ending with a piece |
| SemanticLines.ChunkTokensPieces | HeaderViewer/Content/SemanticStringView.swift:314-321 | every piece of a cut chunk has the chunk's type and holds no line break |
| SemanticLines.ChunkTokensSpell | HeaderViewer/Content/SemanticStringView.swift:313-321 | spelling the pieces and breaks of a cut chunk gives the chunk's text back |
| SemanticLines.StreamTokensSpell | HeaderViewer/Content/SemanticStringView.swift:308-322 | spelling the tokens of the whole stream gives the stream's text |
| SemanticLines.RunTokens | HeaderViewer/Content/SemanticStringView.swift:309-312 | one piece per run, with the run's text and type, in order |
| SemanticLines.PushRunKeepsTokens | HeaderViewer/Content/SemanticStringView.swift:309-312 | adding a run to the line in progress adds exactly its piece to the tokens the lines show |
| SemanticLines.PushLineKeepsTokens | HeaderViewer/Content/SemanticStringView.swift:297-306 | finishing a line adds exactly one break to the tokens the lines show |
| SemanticLines.LineBuilder.constructor | HeaderViewer/Content/SemanticStringView.swift:290-295 | no lines, an empty line in progress, and no longest line: consistent with the empty text |
| SemanticLines.LineBuilder.PushRun | HeaderViewer/Content/SemanticStringView.swift:309-312 | the run gets the next id in the line in progress, and consistency is kept |
| SemanticLines.LineBuilder.PushLine | HeaderViewer/Content/SemanticStringView.swift:297-306 | the line in progress becomes the next numbered line; a new empty line begins; consistency is kept |
| SemanticLines.LineBuilder.BreakLine | HeaderViewer/Content/SemanticStringView.swift:316-317 | the text before a break becomes the last run of the line in progress, which is appended as the next numbered line; a new empty line begins; the text read grows by that text and the break, and the tokens seen by that piece, with the chunk's type, and a break |
| SemanticLines.LineBuilder.PushText | HeaderViewer/Content/SemanticStringView.swift:308-322 | after one chunk, the text read grows by exactly the chunk's text and the tokens seen by exactly the chunk's tokens (its pieces, each with the chunk's type, and its breaks); finished lines are only added; consistency is kept and the line in progress is non-empty |
| SemanticLines.EnumerateTypes | HeaderViewer/Content/SemanticStringView.swift:308-322 | after the loop over the chunks, the text read is the stream's text and the tokens seen are the stream's tokens; an empty stream leaves no lines and an empty line in progress, any other a non-empty line in progress |
| SemanticLines.SemanticLinesOf | HeaderViewer/Content/SemanticStringView.swift:289-327 | lines are numbered by their index, run ids count from 0, and no run holds a line break; an empty stream gives no lines, any other one more line than it has line breaks; joining the lines gives the stream's text back; the runs of the lines, each line followed by a break, are exactly the pieces and breaks of the chunks, each piece with its chunk's type, and one final break; `longestLineIndex` is the first strictly longest line |
| SemanticLines.GetFileContent | HeaderViewer/Content/SemanticStringView.swift:116-128 | the content is each line's runs concatenated, the lines joined by line breaks |
| SemanticLines.FileContent | HeaderViewer/Content/SemanticStringView.swift:116-128 | round trip: the file content of the lines computed from a stream is exactly the stream's text |
| SemanticOptimize.RoleOf | HeaderViewer/Content/SemanticStringView.swift:241-278 | numeric runs take the number colour, class and protocol runs their own roles, and exactly the unnamed types take the default colour |
| SemanticOptimize.RoleOfDistinguishesNamedTypes | HeaderViewer/Content/SemanticStringView.swift:241-273 | two different named semantic types are never coloured by the same role |
| SemanticOptimize.Target | HeaderViewer/Content/SemanticStringView.swift:262-269 | a navigation entry's object is named by the run's text, and is a class exactly for a class run |
| SemanticOptimize.Flushed | HeaderViewer/Content/SemanticStringView.swift:202-208 | closing a pending group appends it as one entry whose id is the entry count; with no pending group nothing changes |
| SemanticOptimize.AppendShaped | HeaderViewer/Content/SemanticStringView.swift:236-238 | an entry with the next id, correctly coloured, keeps the output numbered, bounded, placed, and split only after long groups |
| SemanticOptimize.GrownGroupBounded | HeaderViewer/Content/SemanticStringView.swift:221-227 | a group closed for passing 512 characters was at most 512 characters before its last run |
| SemanticOptimize.PendingGroupBounded | HeaderViewer/Content/SemanticStringView.swift:221-227 | a pending group of at most 512 characters is bounded once closed |
| SemanticOptimize.FlushKeepsShape | HeaderViewer/Content/SemanticStringView.swift:202-208 | closing the pending group keeps the output numbered and bounded, and still showing every run read |
| SemanticOptimize.TextStepTracks | HeaderViewer/Content/SemanticStringView.swift:211-228 | a plain run joins the pending group, which is closed exactly when it passes 512 characters; the invariant is kept |
| SemanticOptimize.GrownPlaced | HeaderViewer/Content/SemanticStringView.swift:211-216 | a plain run added to a group keeps the group free of class and protocol colours |
| SemanticOptimize.TextStepCloses | HeaderViewer/Content/SemanticStringView.swift:221-227 | a plain run that takes the pending group past 512 characters closes it as the next entry; the invariant is kept |
| SemanticOptimize.TextStepPends | HeaderViewer/Content/SemanticStringView.swift:211-221 | a plain run that keeps the pending group within 512 characters joins it and adds its length; the invariant is kept |
| SemanticOptimize.TextStepShows | HeaderViewer/Content/SemanticStringView.swift:211-228 | after a plain run, the output and the pending group show the runs read, in order, whether or not the group is closed |
| SemanticOptimize.NavigationStepTracks | HeaderViewer/Content/SemanticStringView.swift:230-239 | a class or protocol run first closes the pending group and then becomes one navigation entry; the invariant is kept |
| SemanticOptimize.StyledAllText | HeaderViewer/Content/SemanticStringView.swift:212-213 | the characters of the styled runs are the characters of the runs |
| SemanticOptimize.StepKeepsTracks | HeaderViewer/Content/SemanticStringView.swift:241-278 | one step of the switch, of any run type, keeps the invariant: output numbered, bounded, split only for length and placed, showing every run read |
| SemanticOptimize.StepTracks | HeaderViewer/Content/SemanticStringView.swift:210-279 | the loop's state after one more run still keeps the invariant for all runs read |
| SemanticOptimize.ReplayTracks | HeaderViewer/Content/SemanticStringView.swift:210-279 | the state after the loop has read any prefix of the runs keeps the invariant for that prefix |
| SemanticOptimize.FinalFlush | HeaderViewer/Content/SemanticStringView.swift:281-283 | the last `pushRun()` leaves entries numbered, bounded, split only for length and placed, showing every run styled and in order, with the runs' characters, and one navigation entry per class or protocol run |
| SemanticOptimize.Optimizer.constructor | HeaderViewer/Content/SemanticStringView.swift:197-200 | no entries, no pending group, length 0 |
| SemanticOptimize.Optimizer.PushRun | HeaderViewer/Content/SemanticStringView.swift:202-208 | the pending group, if any, becomes the next entry, and the pending length is reset |
| SemanticOptimize.Optimizer.PushText | HeaderViewer/Content/SemanticStringView.swift:211-228 | the styled run joins the pending group; when the group passes 512 characters it is closed and the length reset; the invariant is kept |
| SemanticOptimize.Optimizer.PushNavigation | HeaderViewer/Content/SemanticStringView.swift:230-239 | the pending group is closed first, then one navigation entry is appended with the next id |
| SemanticOptimize.Optimizer.Consume | HeaderViewer/Content/SemanticStringView.swift:241-278 | the state after one run is `Step` of the state before: a class or protocol run closes the pending group and appends one navigation entry titled by the run in the class or protocol colour; any other run joins the pending group, which is closed once it passes 512 characters |
| SemanticOptimize.Optimize | HeaderViewer/Content/SemanticStringView.swift:196-284 | entry ids are 0..n-1; the entries show every run once, in order, coloured by role, with the same characters as the input; each class or protocol run becomes exactly one navigation entry named by its text; a text group holds at most 512 characters before its last run, and is followed by another text group only when it passed 512; a navigation entry's title has the class colour for a class and the protocol colour for a protocol, and no piece of a text group has either colour |
| HistoryManagers.Restored | HeaderViewer/Services/HistoryManager.swift:99-105 | the stored list when it decodes, otherwise the empty list |
| HistoryManagers.Added | HeaderViewer/Services/HistoryManager.swift:28-62 | the object is in the result; an object already present changes nothing and is not moved; otherwise it becomes element 0 and the rest is a prefix of the old list, the same length at a reached non-zero limit, and the whole old list otherwise |
| HistoryManagers.AddedWithinLimit | HeaderViewer/Services/HistoryManager.swift:47-52 | under a positive limit, a history within the limit stays within it |
| HistoryManagers.ZeroLimitIsUnbounded | HeaderViewer/Services/HistoryManager.swift:47-48 | a limit of 0 never evicts: a new object lengthens the history by one |
| HistoryManagers.EvictionDropsOldest | HeaderViewer/Services/HistoryManager.swift:48-51 | eviction removes exactly the oldest entry and keeps every other one |
| HistoryManagers.AddedKeepsDistinct | HeaderViewer/Services/HistoryManager.swift:43-57 | a history without duplicates stays without duplicates |
| HistoryManagers.Without | HeaderViewer/Services/HistoryManager.swift:65-72 | every occurrence of the object goes; every other element stays, in order and as often as it occurred |
| HistoryManagers.HistoryManager.constructor | HeaderViewer/Services/HistoryManager.swift:19-21 | the list shown is the stored list, or empty when nothing decodes |
| HistoryManagers.HistoryManager.AddObject | HeaderViewer/Services/HistoryManager.swift:24-63 | `nil` changes nothing; otherwise the shown list becomes `Added` of the old one; an object already present leaves the store as it was; the list shown stays the list stored |
| HistoryManagers.HistoryManager.RemoveObject | HeaderViewer/Services/HistoryManager.swift:65-73 | the object leaves both lists and the rest keep their order; the store holds the new list |
| HistoryManagers.HistoryManager.RemoveObjectsAt | HeaderViewer/Services/HistoryManager.swift:75-85 | each index, in increasing order, is removed from the lists the earlier removals left; both lists stay equal; an empty set stores nothing |
| HistoryManagers.HistoryManager.RefreshHistory | HeaderViewer/Services/HistoryManager.swift:87-89 | the list shown is reloaded from the store, or is empty when nothing decodes |
| HistoryManagers.HistoryManager.ClearHistory | HeaderViewer/Services/HistoryManager.swift:91-96 | an empty history changes nothing; otherwise the list is emptied and the stored entry deleted |
| HistoryManagers.HistoryManager.HistoryCount | HeaderViewer/Services/HistoryManager.swift:16 | while the list shown is the list stored, the count is the stored list's length |
| HistoryManagers.HistoryManager.IsHistoryEmpty | HeaderViewer/Services/HistoryManager.swift:17 | empty exactly when the count is 0, and then no object is in the history |
| Seqs.Filter | HeaderViewer/Services/HistoryManager.swift:70 | `filter` keeps exactly the elements satisfying the predicate, in order |
| Seqs.FilterCounts | HeaderViewer/Services/HistoryManager.swift:70 | `filter` keeps each satisfying element exactly as often as it occurs, and drops every other one |
| Seqs.FirstIndexWhere | HeaderViewer/Models/NamedNode.swift:28 | `first(where:)` finds the first matching position, and none exactly when nothing matches |
| Seqs.FirstIndexOf | HeaderViewer/Services/BookmarManager.swift:32 | `firstIndex(of:)` finds the first position holding the element, and none exactly when it is absent |
| Seqs.RemoveAt | HeaderViewer/Services/BookmarManager.swift:33 | `remove(at:)` drops exactly the element at the index and shifts the rest down |
| Seqs.RemoveIndices | HeaderViewer/Services/BookmarManager.swift:50-55 | removing the indices of a set one at a time shortens the list by the set's size |
| Seqs.RemoveIndicesShrinks | HeaderViewer/Services/HistoryManager.swift:75-85 | removal by index set only ever removes elements |
| Seqs.RemoveOffsets | HeaderViewer/Services/BookmarManager.swift:50-55 | intended: removing the selected rows never lengthens the list, and a selection outside the list leaves it unchanged |
| Seqs.AscendingRemovalMissesSelection | HeaderViewer/Services/BookmarManager.swift:50-55 | as written: selecting rows 0 and 1 of `[10,20,30]` leaves `[20]`, not `[30]`; selecting rows 0 and 2 traps |
| Seqs.RemoveOffsetsIsSubsequence | HeaderViewer/Services/BookmarManager.swift:50-55 | the intended removal keeps the survivors in order and invents nothing |
| Seqs.RemoveOffsetsKeepsUnselected | HeaderViewer/Services/BookmarManager.swift:50-55 | the intended removal keeps every row that was not selected |
| Seqs.RemoveOffsetsDropsSelected | HeaderViewer/Services/BookmarManager.swift:50-55 | in a list without duplicates, the intended removal drops every selected row |
| Bookmarks.EqualityComparesAllFields | HeaderViewer/Models/Bookmark.swift:9-23 | two bookmarks are equal exactly when name, path and date all agree |
| Bookmarks.SameIdDifferentPaths | HeaderViewer/Models/Bookmark.swift:19-23 | `id` is defined as the name alone, so one image bookmarked in two directories gives two different bookmarks with the same id |
| Bookmarks.PieceLength | HeaderViewer/Models/Bookmark.swift:15 | the length of the run of non-'/' characters at the start |
| Bookmarks.Split | HeaderViewer/Models/Bookmark.swift:15 | `split(separator: "/")` yields only non-empty pieces without '/' |
| Bookmarks.SplitEmptyIff | HeaderViewer/Models/Bookmark.swift:15 | the split is empty exactly when the path holds nothing but '/' |
| Bookmarks.LastPathComponent | HeaderViewer/Models/Bookmark.swift:14-16 | defined exactly when the path has a non-'/' character (the force-unwrap traps otherwise); non-empty and free of '/' |
| Bookmarks.LastPieceIsTail | HeaderViewer/Models/Bookmark.swift:15 | the last piece sits right after a '/' (or at the start), and only '/' follows it |
| Bookmarks.LastPathComponentIsLastDirectory | HeaderViewer/Models/Bookmark.swift:14-16 | `lastPathComponent` is the last directory named in the path, whatever '/' trail it |
| BookmarkManagers.Toggled | HeaderViewer/Services/BookmarManager.swift:30-36 | as written: the first bookmark equal to the new one, date included, is removed; when there is none the new one is appended at the end |
| BookmarkManagers.ToggleTwiceRestores | HeaderViewer/Services/BookmarManager.swift:30-36 | toggling the same absent bookmark twice gives the list back |
| BookmarkManagers.ToggleNeverUnbookmarks | HeaderViewer/Services/BookmarManager.swift:28-36 | as written: when every stored bookmark is older than now, toggling appends, and the image is bookmarked afterwards even when it already was |
| BookmarkManagers.ToggledByPlace | HeaderViewer/Services/BookmarManager.swift:28-36 | intended: a bookmark of that image and directory, whatever its date, is removed; when there is none a new one is appended |
| BookmarkManagers.ToggleByPlaceFlips | HeaderViewer/Services/BookmarManager.swift:28-40 | intended: with one bookmark per image and directory, the toggle flips `isBookmarked` and keeps that uniqueness |
| BookmarkManagers.WithoutPlace | HeaderViewer/Services/BookmarManager.swift:57-58 | no bookmark of that image and directory remains, whatever its date; the rest stay, in order and as often as they occurred |
| BookmarkManagers.BookmarkManager.constructor | HeaderViewer/Services/BookmarManager.swift:22-26 | the saved list when there is one, otherwise empty; an undecodable saved entry traps |
| BookmarkManagers.BookmarkManager.Sync | HeaderViewer/Services/BookmarManager.swift:72-75 | the store holds the list, and nothing else changes |
| BookmarkManagers.BookmarkManager.ToggleBookmark | HeaderViewer/Services/BookmarManager.swift:28-40 | nothing changes while no directory is open; otherwise the list becomes `Toggled` with a bookmark stamped now, and is saved |
| BookmarkManagers.BookmarkManager.AddBookmark | HeaderViewer/Services/BookmarManager.swift:43-48 | the new bookmark goes first and the list is saved; the result is the new count minus one, the oldest bookmark's position |
| BookmarkManagers.BookmarkManager.RemoveBookmarksAt | HeaderViewer/Services/BookmarManager.swift:50-55 | each index, in increasing order, is removed from the list the earlier removals left; then the list is saved |
| BookmarkManagers.BookmarkManager.RemoveBookmark | HeaderViewer/Services/BookmarManager.swift:57-60 | the list becomes `WithoutPlace`; the image is no longer bookmarked in the open directory; the list is saved |
| BookmarkManagers.BookmarkManager.ClearBookmarks | HeaderViewer/Services/BookmarManager.swift:62-65 | the list is empty and saved |
| BookmarkManagers.BookmarkManager.IsBookmarked | HeaderViewer/Services/BookmarManager.swift:67-69 | true exactly when a directory is open and some bookmark names the image in that directory; false while none is open |
| BookmarkManagers.BookmarkManager.IsBookmarkEmpty | HeaderViewer/Services/BookmarManager.swift:86-88 | with no bookmarks, no image is bookmarked |
| NamedNodes.NamedNode.constructor | HeaderViewer/Models/NamedNode.swift:14-19 | a node with the given name and parent and no children, so `isLeaf` (defined as having no children) holds |
| NamedNodes.NamedNode.Path | HeaderViewer/Models/NamedNode.swift:21-25 | a root's path is its own name |
| NamedNodes.NamedNode.Ancestry | HeaderViewer/Models/NamedNode.swift:21-25 | the names from the root down, one per level, ending with the node's own |
| NamedNodes.NamedNode.Child | HeaderViewer/Models/NamedNode.swift:27-36 | returns the first child of that name, the children unchanged; otherwise appends exactly one fresh leaf of that name whose parent is this node; either way the node is no longer a leaf; child names stay unique |
| NamedNodes.NamedNode.Equals | HeaderViewer/Models/NamedNode.swift:40-42 | equal nodes (same name, identical parent) have the same path |
| NamedNodes.PathEndsWithName | HeaderViewer/Models/NamedNode.swift:21-25 | the path ends with the node's name, and below a root that name follows a '/' |
| NamedNodes.PathOfChild | HeaderViewer/Models/NamedNode.swift:21-25 | below a root, the path is the parent's path, a '/' and the node's name |
| NamedNodes.JoinPath | HeaderViewer/Models/NamedNode.swift:21-25 | joining names with '/' gives their total length plus one character per separator |
| NamedNodes.PathJoinsAncestry | HeaderViewer/Models/NamedNode.swift:21-25 | the path is the names from the root down to the node, joined by '/' |
| NamedNodes.PathSteps | HeaderViewer/Models/NamedNode.swift:21-25 | the path's length is the total length of the names from the root down, plus one '/' per level |
| NamedNodes.EqualsIsEquivalence | HeaderViewer/Models/NamedNode.swift:40-42 | `==` (same name, identical parent) is an equivalence, and equal nodes have the same path |
| NamedNodeRows.Children | HeaderViewer/Content/NamedNodeRow.swift:56-59 | an empty search gives the children unchanged; otherwise the result keeps the children's order and holds exactly those whose name contains the text, ignoring case |
| NamedNodeRows.EmptySearchMatchesNothing | HeaderViewer/Content/NamedNodeRow.swift:57-58 | no name contains the empty search text, which is why the empty search is handled apart |
| NamedNodeRows.SearchIgnoresCase | HeaderViewer/Content/NamedNodeRow.swift:58 | a name matches a search text exactly when it matches the text's lower-case form |
| NamedNodeRows.CouldLoad | HeaderViewer/Content/NamedNodeRow.swift:61-63 | a directory with entries is never loadable, and neither is an image the runtime has loaded |
| NamedNodeRows.Title | HeaderViewer/Content/NamedNodeRow.swift:47 | "/" for a nameless root, otherwise the node's name |
| RuntimeObjectTypes.RuntimeObjectType.Name | HeaderViewer/Models/RuntimeObjectType.swift:13-18 | the payload string, whichever the case |
| RuntimeObjectTypes.RuntimeObjectType.SystemImageName | HeaderViewer/Models/RuntimeObjectType.swift:20-25 | "c.square.fill" exactly for classes, "p.square.fill" exactly for protocols |
| RuntimeObjectTypes.EqualityByCaseAndName | HeaderViewer/Models/RuntimeObjectType.swift:8-11 | equality (and so `id`) needs the same case and the same name |
| SearchScopes.SearchScope.IncludesClasses | HeaderViewer/Models/RuntimeTypeSearchScope.swift:15-21 | every scope except `.protocols` lists classes |
| SearchScopes.SearchScope.IncludesProtocols | HeaderViewer/Models/RuntimeTypeSearchScope.swift:23-29 | every scope except `.classes` lists protocols |
| SearchScopes.ScopeIncludesSomething | HeaderViewer/Models/RuntimeTypeSearchScope.swift:15-29 | every scope lists some kind, and only `.all` lists both |
| RuntimeObjectLists.ClassesOf | HeaderViewer/Services/RuntimeObjectsViewModel.swift:20 | one `.class` per name, in input order |
| RuntimeObjectLists.ProtocolsOf | HeaderViewer/Services/RuntimeObjectsViewModel.swift:23 | one `.protocol` per name, in input order |
| RuntimeObjectLists.Listed | HeaderViewer/Services/RuntimeObjectsViewModel.swift:18-24 | a class is listed exactly when the scope includes classes and the name is given, and likewise for protocols; classes come before protocols |
| RuntimeObjectLists.RuntimeObjectsFor | HeaderViewer/Services/RuntimeObjectsViewModel.swift:17-27 | an empty search gives the unfiltered list; otherwise the result keeps the listed order and holds exactly the listed objects whose name contains the text, ignoring case, each as often as it is listed |
| RuntimeObjectLists.UnfilteredByScope | HeaderViewer/Services/ImageRuntimeObjectsViewModel.swift:30-38 | with no search, `.all` lists all classes then all protocols, and `.classes` and `.protocols` list one kind each |
| RuntimeObjectLists.RuntimeObjectsViewModel.constructor | HeaderViewer/Services/RuntimeObjectsViewModel.swift:29-40 | an empty search, scope `.all`, and every class then every protocol |
| RuntimeObjectLists.RuntimeObjectsViewModel.Refresh | HeaderViewer/Services/RuntimeObjectsViewModel.swift:42-51 | the list is recomputed for the current search, scope and listings |
| ImageRuntimeObjects.InitialLoadState | HeaderViewer/Services/ImageRuntimeObjectsViewModel.swift:65 | `.loaded` exactly when the image is already loaded, `.notLoaded` otherwise |
| ImageRuntimeObjects.AfterLoadAttempt | HeaderViewer/Services/ImageRuntimeObjectsViewModel.swift:102-110 | a thrown error ends in `.loadError` with that error; a successful load stays `.loading` |
| ImageRuntimeObjects.AfterImageListChange | HeaderViewer/Services/ImageRuntimeObjectsViewModel.swift:91-99 | the pipeline only ever sets `.loaded`, and only when the list holds the image |
| ImageRuntimeObjects.LoadedIsStable | HeaderViewer/Services/ImageRuntimeObjectsViewModel.swift:91-99 | the pipeline never moves a loaded image out of `.loaded` |
| ImageRuntimeObjects.FailureRecoveredOnlyByImageList | HeaderViewer/Services/ImageRuntimeObjectsViewModel.swift:91-110 | after a failed load, the state becomes `.loaded` exactly when the runtime reports the image loaded |
| ImageRuntimeObjects.ImageRuntimeObjectsViewModel.constructor | HeaderViewer/Services/ImageRuntimeObjectsViewModel.swift:42-65 | the node's path and name, an empty search, scope `.all`, every class then every protocol, and the initial load state |
| ImageRuntimeObjects.ImageRuntimeObjectsViewModel.IsImageEmpty | HeaderViewer/Services/ImageRuntimeObjectsViewModel.swift:26-28 | empty exactly when the image lists nothing in every scope |
| ImageRuntimeObjects.ImageRuntimeObjectsViewModel.EmptyImageListsNothing | HeaderViewer/Services/ImageRuntimeObjectsViewModel.swift:26-40 | an image without classes and protocols lists nothing, whatever the search and scope |
| ImageRuntimeObjects.ImageRuntimeObjectsViewModel.TryLoadImage | HeaderViewer/Services/ImageRuntimeObjectsViewModel.swift:102-110 | the load state becomes `AfterLoadAttempt`, and nothing else changes |
| ImageRuntimeObjects.ImageRuntimeObjectsViewModel.ImageListChanged | HeaderViewer/Services/ImageRuntimeObjectsViewModel.swift:91-99 | the load state becomes `AfterImageListChange`, and nothing else changes |
| ImageRuntimeObjects.ImageRuntimeObjectsViewModel.NamesChanged | HeaderViewer/Services/ImageRuntimeObjectsViewModel.swift:67-89 | new names, and the list recomputed for them |
| ImageRuntimeObjects.ImageRuntimeObjectsViewModel.SearchChanged | HeaderViewer/Services/ImageRuntimeObjectsViewModel.swift:79-89 | a new search and scope, and the list recomputed for them |
| Themes.PresetNamesDistinct | HeaderViewer/Models/Theme.swift:25-114 | the seven preset names are pairwise distinct |
| Themes.PresetDefaultIsStandard | HeaderViewer/Models/Theme.swift:25-114 | every preset's fallback colour is its standard colour |
| Themes.SolarizedShareAccents | HeaderViewer/Models/Theme.swift:90-114 | the Solarized presets share the variable, number, record name, class and protocol colours |
| Themes.DarkPresetsAreNamedDark | HeaderViewer/Models/Theme.swift:51-104 | the lower-cased names of the three dark presets contain "dark" |
| Themes.LightPresetsAreNotNamedDark | HeaderViewer/Models/Theme.swift:38-91 | the lower-cased names of the three light presets do not contain "dark" |
| SemanticColors.Key | HeaderViewer/Models/SemanticColor.swift:52-65 | the key is empty exactly for the types the app does not name |
| SemanticColors.KeysDistinct | HeaderViewer/Models/SemanticColor.swift:44-62 | the eight named types have eight different keys, none of them "default_color" |
| SemanticColors.ThemedColor.Get | HeaderViewer/Models/SemanticColor.swift:79-85 | the default while the key holds no string, otherwise the colour decoded from the stored hex string |
| SemanticColors.ThemedColor.Set | HeaderViewer/Models/SemanticColor.swift:86-88 | the key now holds the colour's hex string |
| SemanticColors.GetAfterSet | HeaderViewer/Models/SemanticColor.swift:79-88 | reading after a write gives the colour decoded from the hex string written |
| SemanticColors.SetLeavesOtherKeys | HeaderViewer/Models/SemanticColor.swift:79-88 | a write under one key leaves the colour under any other key as it was |
| SemanticColors.RoleKey | HeaderViewer/Models/SemanticColor.swift:10-46 | only the fallback role is kept under "default_color" |
| SemanticColors.RoleKeysDistinct | HeaderViewer/Models/SemanticColor.swift:10-46 | the nine roles are kept under nine different keys |
| SemanticColors.Wrapper | HeaderViewer/Models/SemanticColor.swift:10-46 | each role's property uses that role's key |
| SemanticColors.DefaultsAreSystemTheme | HeaderViewer/Models/SemanticColor.swift:10-46 | with nothing stored, every role shows the System theme's colour |
| Preferences.WriteIndex | HeaderViewer/Services/CodePreferences.swift:24-33 | every role is among the nine written |
| Preferences.WriteAllReadsBack | HeaderViewer/Services/CodePreferences.swift:24-33 | with distinct keys, each write done is what its key holds afterwards |
| Preferences.WriteAllKeepsOtherKeys | HeaderViewer/Services/CodePreferences.swift:24-33 | a key no write names is left as it was |
| Preferences.ThemeWrites | HeaderViewer/Services/CodePreferences.swift:24-33 | `apply(from:)` makes nine writes |
| Preferences.ThemeWritesDistinct | HeaderViewer/Services/CodePreferences.swift:24-33 | the nine writes go to nine different keys |
| Preferences.AppliedReadsBack | HeaderViewer/Services/CodePreferences.swift:24-33 | after applying a theme, every role shows that theme's colour, as decoded from its hex string |
| Preferences.AppliedKeepsOtherKeys | HeaderViewer/Services/CodePreferences.swift:24-33 | applying a theme touches no key except the nine colour keys |
| Preferences.WriteColors | HeaderViewer/Services/CodePreferences.swift:25-33 | the nine property writes, in the source's order, give the applied store |
| Preferences.ToggleTargetFlipsDarkness | HeaderViewer/Services/CodePreferences.swift:39-75 | the toggle applies only non-System presets, and it flips darkness: a name containing "dark" gets a preset whose name does not, and the other way round |
| Preferences.ToggleTarget | HeaderViewer/Services/CodePreferences.swift:39-75 | a preset is picked exactly when the lower-cased name is not "system" and contains "xcode", "github" or "solarized"; the preset picked is never System |
| Preferences.ToggleIgnoresOtherNames | HeaderViewer/Services/CodePreferences.swift:39-75 | a name containing none of "xcode", "github", "solarized" is left alone |
| Preferences.SystemNotToggled | HeaderViewer/Services/CodePreferences.swift:40-41 | the System theme is never toggled |
| Preferences.XcodeLightToggles | HeaderViewer/Services/CodePreferences.swift:43-51 | Xcode Light toggles to Xcode Dark |
| Preferences.XcodeDarkToggles | HeaderViewer/Services/CodePreferences.swift:43-47 | Xcode Dark toggles to Xcode Light |
| Preferences.GithubLightToggles | HeaderViewer/Services/CodePreferences.swift:54-62 | Github Light toggles to GithubDark |
| Preferences.GithubDarkToggles | HeaderViewer/Services/CodePreferences.swift:54-58 | GithubDark toggles to Github Light |
| Preferences.SolarizedLightToggles | HeaderViewer/Services/CodePreferences.swift:65-73 | Solarized Light toggles to Solarized Dark |
| Preferences.SolarizedDarkToggles | HeaderViewer/Services/CodePreferences.swift:65-69 | Solarized Dark toggles to Solarized Light |
| Preferences.XcodeTogglesBack | HeaderViewer/Services/CodePreferences.swift:43-52 | the two Xcode presets toggle into each other |
| Preferences.GithubTogglesBack | HeaderViewer/Services/CodePreferences.swift:54-63 | the two Github presets toggle into each other |
| Preferences.SolarizedTogglesBack | HeaderViewer/Services/CodePreferences.swift:65-74 | the two Solarized presets toggle into each other |
| Preferences.ToggleTwiceReturns | HeaderViewer/Services/CodePreferences.swift:39-75 | from any preset other than System, toggling twice returns to that preset |
| Preferences.CodePreferences.constructor | HeaderViewer/Services/CodePreferences.swift:13-21 | each stored setting, or its default: theme "system", line numbers hidden, 16 points, SFMono-Regular; bounds 8 and 24 |
| Preferences.CodePreferences.Apply | HeaderViewer/Services/CodePreferences.swift:24-37 | the nine colours of the theme are written and its name remembered; the other settings are kept |
| Preferences.CodePreferences.ToggleThemeBasedOnColorScheme | HeaderViewer/Services/CodePreferences.swift:39-75 | applies the preset `ToggleTarget` picks, or changes nothing when it picks none |
| RuntimeObjectDetails.GenerationOptionsFor | HeaderViewer/Content/RuntimeObjectDetail.swift:23-33 | constructors and destructors are always stripped, and the five switches pass through unchanged |
| RuntimeObjectDetails.GenerationOptionsInjective | HeaderViewer/Content/RuntimeObjectDetail.swift:23-33 | different switch settings give different options |
| RuntimeObjectDetails.DefaultGenerationOptions | HeaderViewer/Content/RuntimeObjectDetail.swift:14-33 | a fresh scene strips duplicates, synthesized members, constructors and destructors, and nothing else |
| RuntimeObjectDetails.SmallerSize | HeaderViewer/Content/RuntimeObjectDetail.swift:92-95 | one point smaller only when above the minimum, otherwise unchanged |
| RuntimeObjectDetails.LargerSize | HeaderViewer/Content/RuntimeObjectDetail.swift:99-102 | one point larger only when below the maximum, otherwise unchanged |
| RuntimeObjectDetails.SizeStaysInBounds | HeaderViewer/Content/RuntimeObjectDetail.swift:91-103 | a size within the bounds stays within them under either button |
| RuntimeObjectDetails.ButtonsUndoEachOther | HeaderViewer/Content/RuntimeObjectDetail.swift:91-103 | within the bounds, each button undoes the other |
| RuntimeObjectDetails.ButtonsStopAtBounds | HeaderViewer/Content/RuntimeObjectDetail.swift:91-103 | pressing a button at its bound changes nothing |
| RuntimeObjectDetails.Smaller | HeaderViewer/Content/RuntimeObjectDetail.swift:92-95 | the font size becomes `SmallerSize`, stays in bounds, and no other preference changes |
| RuntimeObjectDetails.Larger | HeaderViewer/Content/RuntimeObjectDetail.swift:99-102 | the font size becomes `LargerSize`, stays in bounds, and no other preference changes |
| RuntimeObjectDetails.DefaultFontSizeInBounds | HeaderViewer/Services/CodePreferences.swift:17-21 | the default size 16 lies within the bounds 8 and 24 |
| Settings.AppSettings.ColorScheme | HeaderViewer/Services/SettingsManager.swift:117-124 | "light" and "dark", in any case, give that scheme; every other string, "nil" included, gives none |
| Settings.DefaultSettings | HeaderViewer/Services/SettingsManager.swift:39-53 | history and its badge on, limit 0, scheme "nil" |
| Settings.DefaultsFollowSystem | HeaderViewer/Services/SettingsManager.swift:40-45 | the default settings follow the system's scheme |
| Settings.SchemeIgnoresCase | HeaderViewer/Services/SettingsManager.swift:117-124 | "Dark", "LIGHT" and "NIL" read as dark, light and none |
| Settings.SettingsManager.constructor | HeaderViewer/Services/SettingsManager.swift:20-31 | the saved settings when they decode; otherwise the defaults, which are saved |
| Settings.SettingsManager.SetSettings | HeaderViewer/Services/SettingsManager.swift:13-15 | every assignment is saved |
| Settings.SettingsManager.SetPreferredColorScheme | HeaderViewer/Services/SettingsManager.swift:13-15 | only the scheme field changes, and the whole is saved |
| AppearancePopover.SystemSchemeValue | HeaderViewer/Content/Settings/AppearancePopover.swift:39-41 | the switch stores "nil" when on and "dark" when off |
| AppearancePopover.SystemSchemeReadsBack | HeaderViewer/Content/Settings/AppearancePopover.swift:36-42 | reading the switch after setting it gives the value set |
| AppearancePopover.SystemSchemeMeaning | HeaderViewer/Content/Settings/AppearancePopover.swift:36-42 | switching on follows the system's scheme; switching off selects dark |
| AppearancePopover.SystemSchemeOn | HeaderViewer/Content/Settings/AppearancePopover.swift:37-38 | while the switch is on, the app follows the system's scheme |
| AppearancePopover.IsChecked | HeaderViewer/Content/Settings/AppearancePopover.swift:67 | a checked scheme button means the "System" switch is off |
| AppearancePopover.PressedButtonIsChecked | HeaderViewer/Content/Settings/AppearancePopover.swift:44-67 | after a button is pressed, exactly that button shows as checked |
| AppearancePopover.ChecksExclusive | HeaderViewer/Content/Settings/AppearancePopover.swift:19-67 | at most one of the two buttons is checked, and neither while the switch is on |
| AppearancePopover.SetSystemScheme | HeaderViewer/Content/Settings/AppearancePopover.swift:39-41 | the switch's setter stores its value, and the switch then reads that value |
| AppearancePopover.PressSchemeButton | HeaderViewer/Content/Settings/AppearancePopover.swift:45-46 | the button stores its scheme, which then shows as checked |

## Left out

- SwiftUI views, layout, navigation, sharing sheets, the pasteboard, file export and the cache-size screen: presentation and I/O with no logic to state.
- The class-dump library: `enumerateTypes`, `classNamesIn`, `loadImage`, `patchImagePathForDyld` and `RuntimeListings`. Their results are parameters: the chunk list, the name lists, whether an image is loaded, and the error thrown.
- JSON encoding and decoding in the preferences store: `Stored` abstracts them, and encoding a value and decoding it again is taken to give the value back.
- `Color(hex:)` and `toHex()`: an opaque codec. No round trip between them is assumed, so `AppliedReadsBack` states the colour as decoded from its hex string.
- `registerDefaultSettings` registers the defaults in the registration domain. That side of it is not modelled; its result, and the save made by `init`, are.
- Combine pipelines: debouncing, scheduling and the order in which values arrive are not modelled. Each pipeline is the state it settles in once it has delivered (`Refresh`, `NamesChanged`, `SearchChanged`, `ImageListChanged`).
- `lowercased()` and `localizedCaseInsensitiveContains` fold only ASCII letters; locale-aware folding and Unicode normalisation are not modelled. Like Foundation's, `ContainsIgnoringCase` never finds the empty string.
- Strings are sequences of characters, so the length of a line counts characters, not grapheme clusters. A "\r\n" pair would be one `Character` in Swift, which `firstIndex(of: "\n")` does not find, so the app keeps such a line whole where `SemanticLinesOf` breaks it.
- Swift's `Int` is an unbounded integer here; a font size or history limit near the 64-bit bounds is not modelled.
- `NamedNode.parent` is a weak reference in the source; here it is a strong one. Nodes whose parent has been deallocated are not modelled.
- `BookmarkManager.lastNodePath` is a static variable in the source; it is a field of the single manager here.
- `addObject` reads the history limit from `SettingsManager.shared.preferences`, which `SettingsManager` does not declare (its property is `settings`). The limit is a parameter.
- `debugBookmarks` and the theme-applied message only print.
- Clock reads (`Date.now`) are a parameter `now`.
- `CodePreferences.Color` and the `colors` property are the store read through `ColorOf`; the `@Published` notifications are not modelled.
- `NamedNodes.NamedNode.Path`: its own contract states only the root case, to keep it cheap where it is used on the heap. The child case is stated by `PathOfChild`, and the whole path by `PathJoinsAncestry`.
- `@SceneStorage` restoration of the header screen's switches is not modelled; only their defaults are.
- `SemanticStringView`'s `longestLineIndex` is computed but its use for layout width is presentation.

## Findings

| source | as written | input that shows it | evidently intended | confidence | as-written member | corrected member |
|---|---|---|---|---|---|---|
| HeaderViewer/Services/BookmarManager.swift:30-36 | `toggleBookmark` builds the bookmark to look for with `Date.now` and searches with synthesized `==`, which compares the date too | a list holding `Bookmark("UIKit", "/System/Library", 1)`, toggled for "UIKit" at time 2: nothing is equal, so a second bookmark is appended instead of the first being removed | remove the bookmark of that image and directory, whatever its date, so the toggle flips `isBookmarked` | not executed | BookmarkManagers.ToggleNeverUnbookmarks | BookmarkManagers.ToggleByPlaceFlips |
| HeaderViewer/Services/BookmarManager.swift:50-55 | `removeBookmark(at:)` removes each index of the set, in increasing order, from the list the earlier removals already shortened; `removeObject(_ indexSet:)` in HistoryManager.swift:75-85 does the same | selecting rows 0 and 1 of `[10, 20, 30]` leaves `[20]` (rows 0 and 2 removed); selecting rows 0 and 2 traps on an index out of range | remove exactly the selected rows of the list as it was shown | not executed | Seqs.AscendingRemovalMissesSelection | Seqs.RemoveOffsetsDropsSelected |
