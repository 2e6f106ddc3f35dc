/**
 * The entry list owned by the application: append, replace and remove,
 * each producing a new list that replaces the old one wholesale.
 * The index of the entry to replace or remove comes from a lookup that is
 * not part of this model, so it is a parameter here.
 */
module App {
  import opened Models

  /** `entries.concat(entry)`: the old list with the entry at the end. */
  function AddEntry(entries: seq<WorkEntry>, entry: WorkEntry): (next: seq<WorkEntry>)
    ensures |next| == |entries| + 1
    ensures forall i :: 0 <= i < |entries| ==> next[i] == entries[i]
    ensures next[|entries|] == entry
  {
    entries + [entry]
  }

  /**
   * The position `toSpliced(start, 1)` removes at: a negative start counts
   * from the end (clamped at 0), a start past the end is clamped to the
   * length, where nothing is removed.
   */
  function SpliceStart(length: nat, start: int): (k: nat)
    ensures k <= length
    ensures 0 <= start <= length ==> k == start
    ensures start > length ==> k == length
    ensures start < 0 ==> k == if length + start < 0 then 0 else length + start
  {
    if start < 0 then (if length + start < 0 then 0 else length + start)
    else if start > length then length
    else start
  }

  /**
   * `next` is `entries` without the element at position `k`: one shorter,
   * the same before `k`, shifted down by one after it.
   */
  ghost predicate RemovedAt(entries: seq<WorkEntry>, next: seq<WorkEntry>, k: nat)
    requires k < |entries|
  {
    && |next| == |entries| - 1
    && (forall i :: 0 <= i < k ==> next[i] == entries[i])
    && (forall i :: k <= i < |next| ==> next[i] == entries[i + 1])
    && multiset(next) + multiset{entries[k]} == multiset(entries)
  }

  /**
   * `entries.toSpliced(targetIdx, 1)`.  For an index in range exactly that
   * element goes and the rest keep their order; a negative index counts
   * from the end, and one before the start removes the first element; an
   * index at or past the end, or an empty list, removes nothing.
   */
  function DeleteEntry(entries: seq<WorkEntry>, targetIdx: int): (next: seq<WorkEntry>)
    ensures 0 <= targetIdx < |entries| ==> RemovedAt(entries, next, targetIdx)
    ensures -|entries| <= targetIdx < 0 ==> RemovedAt(entries, next, |entries| + targetIdx)
    ensures targetIdx < -|entries| && |entries| > 0 ==> RemovedAt(entries, next, 0)
    ensures targetIdx >= |entries| || |entries| == 0 ==> next == entries
  {
    var k := SpliceStart(|entries|, targetIdx);
    if k < |entries| then
      RemoveAtRemoves(entries, k);
      entries[..k] + entries[k + 1..]
    else
      entries
  }

  /** Cutting position `k` out of the list removes exactly that element. */
  lemma RemoveAtRemoves(entries: seq<WorkEntry>, k: nat)
    requires k < |entries|
    ensures RemovedAt(entries, entries[..k] + entries[k + 1..], k)
  {
    assert entries == entries[..k] + [entries[k]] + entries[k + 1..];
  }

  /**
   * A negative index names the same position as its distance back from the
   * end, and any index before the start names the first position.
   */
  lemma NegativeIndexCountsFromEnd(entries: seq<WorkEntry>, targetIdx: int)
    requires targetIdx < 0
    ensures -|entries| <= targetIdx ==>
      DeleteEntry(entries, targetIdx) == DeleteEntry(entries, |entries| + targetIdx)
    ensures targetIdx < -|entries| ==> DeleteEntry(entries, targetIdx) == DeleteEntry(entries, 0)
  {
  }

  /**
   * The list with the entry at `targetIdx` overwritten field by field with
   * `entry`; every other position, and the length, stay the same.  The
   * original is copied first, so it is not altered.
   */
  method UpdateEntry(entries: seq<WorkEntry>, entry: WorkEntry, targetIdx: nat)
    returns (nextEntries: seq<WorkEntry>)
    requires targetIdx < |entries|
    ensures |nextEntries| == |entries|
    ensures nextEntries[targetIdx] == entry
    ensures forall i :: 0 <= i < |entries| && i != targetIdx ==> nextEntries[i] == entries[i]
  {
    var clone := new WorkEntry[|entries|](i requires 0 <= i < |entries| => entries[i]);
    clone[targetIdx] := clone[targetIdx].(start := entry.start, end := entry.end,
                                          spent := entry.spent, description := entry.description);
    nextEntries := clone[..];
  }

  /** Appending an entry and then removing the last position gives the list back. */
  lemma AddThenDelete(entries: seq<WorkEntry>, entry: WorkEntry)
    ensures DeleteEntry(AddEntry(entries, entry), |entries|) == entries
  {
    assert AddEntry(entries, entry)[..|entries|] == entries;
  }

  /** Replacing an entry with itself leaves the list as it was. */
  method UpdateWithSame(entries: seq<WorkEntry>, targetIdx: nat) returns (nextEntries: seq<WorkEntry>)
    requires targetIdx < |entries|
    ensures nextEntries == entries
  {
    nextEntries := UpdateEntry(entries, entries[targetIdx], targetIdx);
  }

  /** The scenario: add one entry to the empty list, then delete it. */
  lemma AddDeleteScenario()
    ensures AddEntry([], WorkEntry(10, 20, 10, "x")) == [WorkEntry(10, 20, 10, "x")]
    ensures DeleteEntry([WorkEntry(10, 20, 10, "x")], 0) == []
  {
  }
}
