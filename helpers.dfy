/**
 * The daily-total finder: a lower-bound binary search for the first entry
 * that ends after today's midnight, and the sum of durations from there on.
 * The midnight timestamp is a parameter instead of a reading of the clock.
 */
module Helpers {

  /** The shape the finder accepts: a start, an end and a text. */
  datatype Interval = Interval(start: int, end: int, text: string)

  /** The caller's contract: entries are ordered ascending by `end`. */
  ghost predicate SortedByEnd(entries: seq<Interval>)
  {
    forall i, j :: 0 <= i < j < |entries| ==> entries[i].end <= entries[j].end
  }

  /**
   * Reference definition of the boundary: the index of the first entry
   * whose `end` is after `midnight`, or `|entries|` if there is none.
   */
  function FirstEndingAfter(entries: seq<Interval>, midnight: int): (k: nat)
    ensures k <= |entries|
    ensures forall i :: 0 <= i < k ==> entries[i].end <= midnight
    ensures k < |entries| ==> entries[k].end > midnight
  {
    if entries == [] then 0
    else if entries[0].end > midnight then 0
    else 1 + FirstEndingAfter(entries[1..], midnight)
  }

  /**
   * On sorted input the boundary splits the list exactly: everything before
   * it ends at or before midnight, everything from it on ends after.
   */
  lemma FirstEndingAfterPartitions(entries: seq<Interval>, midnight: int)
    requires SortedByEnd(entries)
    ensures forall i :: FirstEndingAfter(entries, midnight) <= i < |entries| ==> entries[i].end > midnight
  {
    var k := FirstEndingAfter(entries, midnight);
    forall i | k <= i < |entries| ensures entries[i].end > midnight {
      assert entries[k].end <= entries[i].end;
    }
  }

  /**
   * The binary search.  It returns an index in `[0, |entries|]` whatever the
   * input; on input sorted by `end` it returns exactly the boundary.
   */
  method TodaysEarliestEntryIndex(entries: seq<Interval>, midnight: int) returns (low: int)
    ensures 0 <= low <= |entries|
    ensures |entries| == 0 ==> low == 0
    ensures SortedByEnd(entries) ==> forall i :: 0 <= i < low ==> entries[i].end <= midnight
    ensures SortedByEnd(entries) ==> forall i :: low <= i < |entries| ==> entries[i].end > midnight
    ensures SortedByEnd(entries) ==> low == FirstEndingAfter(entries, midnight)
  {
    low := 0;
    var high := |entries| - 1;
    while low <= high
      invariant 0 <= low <= high + 1 <= |entries|
      invariant SortedByEnd(entries) ==> low <= FirstEndingAfter(entries, midnight) <= high + 1
      decreases high - low
    {
      var mid := (low + high) / 2;
      assert low <= mid <= high;
      if entries[mid].end > midnight {
        high := mid - 1;
      } else {
        low := mid + 1;
      }
    }
    if SortedByEnd(entries) {
      FirstEndingAfterPartitions(entries, midnight);
    }
  }

  /** Sum of `end - start` over a list, read from the front. */
  function SumDurations(entries: seq<Interval>): int
  {
    if entries == [] then 0
    else (entries[0].end - entries[0].start) + SumDurations(entries[1..])
  }

  /** The source's `reduce((acc, entry) => acc + entry.end - entry.start, acc)`. */
  function ReduceDurations(acc: int, entries: seq<Interval>): int
    decreases entries
  {
    if entries == [] then acc
    else ReduceDurations(acc + entries[0].end - entries[0].start, entries[1..])
  }

  /** The left fold computes the plain sum, offset by its seed. */
  lemma {:induction false} ReduceIsSum(acc: int, entries: seq<Interval>)
    ensures ReduceDurations(acc, entries) == acc + SumDurations(entries)
    decreases entries
  {
    if entries != [] {
      ReduceIsSum(acc + entries[0].end - entries[0].start, entries[1..]);
    }
  }

  /** The sum distributes over concatenation. */
  lemma {:induction false} SumAppend(a: seq<Interval>, b: seq<Interval>)
    ensures SumDurations(a + b) == SumDurations(a) + SumDurations(b)
  {
    if a == [] {
      assert a + b == b;
    } else {
      assert (a + b)[1..] == a[1..] + b;
      SumAppend(a[1..], b);
    }
  }

  /** Entries before index `k` make no contribution to the suffix total. */
  lemma SuffixExcludesPrefix(entries: seq<Interval>, k: nat)
    requires k <= |entries|
    ensures SumDurations(entries[k..]) == SumDurations(entries) - SumDurations(entries[..k])
  {
    assert entries == entries[..k] + entries[k..];
    SumAppend(entries[..k], entries[k..]);
  }

  /** Well-formed intervals end no earlier than they start. */
  ghost predicate WellFormed(entries: seq<Interval>)
  {
    forall i :: 0 <= i < |entries| ==> entries[i].start <= entries[i].end
  }

  /** A sum of well-formed durations is never negative. */
  lemma {:induction false} SumNonNegative(entries: seq<Interval>)
    requires WellFormed(entries)
    ensures SumDurations(entries) >= 0
  {
    if entries != [] {
      SumNonNegative(entries[1..]);
    }
  }

  /**
   * Today's total in milliseconds: the sum of durations from the boundary
   * the search returns to the end of the list (the source divides it by
   * 1000 afterwards; that floating-point step is not modelled).
   */
  method TodaysTotalTimeMs(entries: seq<Interval>, midnight: int) returns (totalInMs: int)
    ensures SortedByEnd(entries) ==>
      totalInMs == SumDurations(entries[FirstEndingAfter(entries, midnight)..])
    ensures SortedByEnd(entries) ==>
      totalInMs == SumDurations(entries) - SumDurations(entries[..FirstEndingAfter(entries, midnight)])
    ensures WellFormed(entries) ==> totalInMs >= 0
    ensures exists k :: 0 <= k <= |entries| && totalInMs == SumDurations(entries[k..])
  {
    var idx := TodaysEarliestEntryIndex(entries, midnight);
    totalInMs := ReduceDurations(0, entries[idx..]);
    ReduceIsSum(0, entries[idx..]);
    SuffixExcludesPrefix(entries, idx);
    if WellFormed(entries) {
      assert WellFormed(entries[idx..]) by {
        forall i | 0 <= i < |entries[idx..]| ensures entries[idx..][i].start <= entries[idx..][i].end {
          assert entries[idx..][i] == entries[idx + i];
        }
      }
      SumNonNegative(entries[idx..]);
    }
  }

  /** The two-entry scenario: the first entry is before midnight, the second after. */
  lemma TwoEntryScenario()
    ensures FirstEndingAfter([Interval(0, 1000, ""), Interval(2000, 2500, "")], 1500) == 1
    ensures SumDurations([Interval(0, 1000, ""), Interval(2000, 2500, "")][1..]) == 500
  {
    var s := [Interval(0, 1000, ""), Interval(2000, 2500, "")];
    assert s[1..] == [Interval(2000, 2500, "")];
    assert s[1..][1..] == [];
  }

  /** The scenario through the methods themselves. */
  method TwoEntryScenarioRun() returns (idx: int, totalInMs: int)
    ensures idx == 1 && totalInMs == 500
  {
    var s := [Interval(0, 1000, ""), Interval(2000, 2500, "")];
    assert SortedByEnd(s);
    TwoEntryScenario();
    idx := TodaysEarliestEntryIndex(s, 1500);
    totalInMs := TodaysTotalTimeMs(s, 1500);
  }
}
