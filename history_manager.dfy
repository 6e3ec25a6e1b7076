/**
 * HistoryManager.swift: the recently opened classes and protocols, newest
 * first, shown from `historyItems` and kept under the "objectsHistory" entry
 * of the preferences store. Every operation changes both lists alike, so the
 * list shown is the list stored (or empty, when nothing decodable is stored).
 * The history limit comes from the settings and is passed in.
 */
module HistoryManagers {
  import opened Common
  import opened Seqs
  import opened RuntimeObjectTypes

  /** `restoreHistoryData()`: the stored list, or an empty one when nothing decodes. */
  function Restored(saved: Stored<seq<RuntimeObjectType>>): (r: seq<RuntimeObjectType>)
    ensures saved.Saved? ==> r == saved.value
    ensures !saved.Saved? ==> r == []
  {
    saved.DecodedOr([])
  }

  /** Whether adding to a list of `count` items must first evict the oldest. */
  predicate MustEvict(count: nat, limit: int) {
    count >= limit && limit != 0
  }

  /**
   * The stored list after `addObject(obj)`: an object already present changes
   * nothing; otherwise it goes first, after the oldest entry is dropped when
   * the list has reached a non-zero limit.
   */
  function Added(stored: seq<RuntimeObjectType>, obj: RuntimeObjectType, limit: int): (r: seq<RuntimeObjectType>)
    ensures obj in r
    ensures obj in stored ==> r == stored
    ensures obj !in stored ==> r[0] == obj && r[1..] <= stored
    ensures obj !in stored && stored != [] && MustEvict(|stored|, limit) ==> |r| == |stored|
    ensures obj !in stored && !(stored != [] && MustEvict(|stored|, limit)) ==> r == [obj] + stored
  {
    if stored == [] then [obj]
    else if obj in stored then stored
    else if MustEvict(|stored|, limit) then [obj] + RemoveAt(stored, |stored| - 1)
    else [obj] + stored
  }

  /** Under a positive limit, a history within the limit stays within it. */
  lemma AddedWithinLimit(stored: seq<RuntimeObjectType>, obj: RuntimeObjectType, limit: int)
    requires 0 < limit && |stored| <= limit
    ensures |Added(stored, obj, limit)| <= limit
  {
  }

  /** A limit of 0 never evicts: a new object lengthens the history by one. */
  lemma ZeroLimitIsUnbounded(stored: seq<RuntimeObjectType>, obj: RuntimeObjectType)
    requires obj !in stored
    ensures Added(stored, obj, 0) == [obj] + stored
    ensures |Added(stored, obj, 0)| == |stored| + 1
  {
  }

  /** Eviction drops exactly the oldest entry, and only that one. */
  lemma EvictionDropsOldest(stored: seq<RuntimeObjectType>, obj: RuntimeObjectType, limit: int)
    requires stored != [] && obj !in stored && MustEvict(|stored|, limit)
    requires NoDuplicates(stored)
    ensures stored[|stored| - 1] !in Added(stored, obj, limit)
    ensures forall i :: 0 <= i < |stored| - 1 ==> stored[i] in Added(stored, obj, limit)
  {
    var r := Added(stored, obj, limit);
    assert r == [obj] + stored[..|stored| - 1];
    assert forall i :: 0 <= i < |stored| - 1 ==> r[i + 1] == stored[i];
    forall i | 0 <= i < |r|
      ensures r[i] != stored[|stored| - 1]
    {
      if i > 0 {
        assert r[i] == stored[i - 1];
      }
    }
  }

  /** The history never holds an object twice. */
  lemma AddedKeepsDistinct(stored: seq<RuntimeObjectType>, obj: RuntimeObjectType, limit: int)
    requires NoDuplicates(stored)
    ensures NoDuplicates(Added(stored, obj, limit))
  {
    var r := Added(stored, obj, limit);
    if obj !in stored && stored != [] {
      var rest := if MustEvict(|stored|, limit) then stored[..|stored| - 1] else stored;
      assert r == [obj] + rest;
      forall i, j | 0 <= i < j < |r|
        ensures r[i] != r[j]
      {
        assert r[j] == rest[j - 1] == stored[j - 1];
        if i > 0 {
          assert r[i] == stored[i - 1];
        }
      }
    }
  }

  /** `removeObject(_ object:)`'s filter: every other object stays, in order. */
  function Without(list: seq<RuntimeObjectType>, obj: RuntimeObjectType): (r: seq<RuntimeObjectType>)
    ensures obj !in r
    ensures IsSubsequence(r, list)
    ensures forall x :: x in list && x != obj ==> x in r
    ensures forall x :: multiset(r)[x] == if x != obj then multiset(list)[x] else 0
  {
    var keep := (x: RuntimeObjectType) => x != obj;
    var r := Filter(list, keep);
    FilterCounts(list, keep);
    assert forall i :: 0 <= i < |r| ==> keep(r[i]);
    assert forall x :: x in list ==> exists i :: 0 <= i < |list| && list[i] == x;
    r
  }

  class HistoryManager {
    var historyItems: seq<RuntimeObjectType>
    /** The "objectsHistory" entry of the preferences store. */
    var saved: Stored<seq<RuntimeObjectType>>

    /** The list shown is the list stored. */
    ghost predicate Valid()
      reads this
    {
      historyItems == Restored(saved)
    }

    /** `init()`, which refreshes from the store. */
    constructor (saved: Stored<seq<RuntimeObjectType>>)
      ensures this.saved == saved
      ensures historyItems == Restored(saved)
      ensures Valid()
    {
      this.saved := saved;
      historyItems := Restored(saved);
    }

    /** `historyCount`. */
    function HistoryCount(): (r: nat)
      reads this
      ensures Valid() ==> r == |Restored(saved)|
    {
      |historyItems|
    }

    /** `isHistoryEmpty`. */
    function IsHistoryEmpty(): (r: bool)
      reads this
      ensures r <==> HistoryCount() == 0
      ensures r ==> forall o :: o !in historyItems
    {
      historyItems == []
    }

    /**
     * `addObject(_:)`: nothing for `nil`; otherwise the object goes first
     * unless it is already there, and the oldest is evicted at the limit.
     */
    method AddObject(newObject: Option<RuntimeObjectType>, limit: int)
      requires Valid()
      modifies this
      ensures Valid()
      ensures newObject.None? ==> historyItems == old(historyItems) && saved == old(saved)
      ensures newObject.Some? ==> historyItems == Added(old(historyItems), newObject.value, limit)
      ensures newObject.Some? && newObject.value in old(historyItems) ==> saved == old(saved)
    {
      if newObject.None? {
        return;
      }
      var obj := newObject.value;
      var previousData := Restored(saved);

      if previousData == [] {
        var objectToSave := [obj];
        saved := Saved(objectToSave);
        historyItems := historyItems + objectToSave;
        return;
      }

      if obj in previousData {
        return;
      }

      if |previousData| >= limit && limit != 0 {
        var oldestObjectIndex := |previousData| - 1;
        historyItems := RemoveAt(historyItems, oldestObjectIndex);
        previousData := RemoveAt(previousData, oldestObjectIndex);
      }

      historyItems := [obj] + historyItems;
      previousData := [obj] + previousData;
      saved := Saved(previousData);
    }

    /** `removeObject(_ object:)`: every occurrence of `item` goes, from both lists. */
    method RemoveObject(item: RuntimeObjectType)
      requires Valid()
      modifies this
      ensures Valid()
      ensures historyItems == Without(old(historyItems), item)
      ensures saved.Saved?
    {
      var previousData := Restored(saved);
      historyItems := Without(historyItems, item);
      var newData := Without(previousData, item);
      saved := Saved(newData);
    }

    /**
     * `removeObject(_ indexSet:)`: each index, in increasing order, is removed
     * from both lists as the previous removals left them, and the list is
     * stored after each removal; an index past the end traps.
     */
    method RemoveObjectsAt(indices: seq<nat>)
      requires Valid()
      requires Ascending(indices) && Fits(|historyItems|, indices)
      modifies this
      ensures Valid()
      ensures historyItems == RemoveIndices(old(historyItems), indices)
      ensures indices == [] ==> saved == old(saved)
    {
      var previousData := Restored(saved);
      var k := 0;
      while k < |indices|
        invariant 0 <= k <= |indices|
        invariant Fits(|old(historyItems)|, indices[..k])
        invariant historyItems == previousData == RemoveIndices(old(historyItems), indices[..k])
        invariant k == 0 ==> saved == old(saved)
        invariant k > 0 ==> saved == Saved(previousData)
      {
        assert indices[..k + 1][..k] == indices[..k];
        historyItems := RemoveAt(historyItems, indices[k]);
        previousData := RemoveAt(previousData, indices[k]);
        saved := Saved(previousData);
        k := k + 1;
      }
      assert indices[..k] == indices;
    }

    /** `refreshHistory()`: reloads the list from the store. */
    method RefreshHistory()
      modifies this
      ensures historyItems == Restored(saved) && saved == old(saved)
      ensures Valid()
    {
      historyItems := Restored(saved);
    }

    /** `clearHistory()`: nothing when empty; otherwise both lists go. */
    method ClearHistory()
      modifies this
      ensures old(historyItems) == [] ==> historyItems == [] && saved == old(saved)
      ensures old(historyItems) != [] ==> historyItems == [] && saved == Absent
      ensures old(Valid()) ==> Valid()
    {
      if historyItems == [] {
        return;
      }
      historyItems := [];
      saved := Absent;
    }
  }
}
