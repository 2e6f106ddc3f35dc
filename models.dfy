/**
 * Shared entities of the time-tracking widget: the finished work entry,
 * the in-progress partial entry and the three-way tool status.
 */
module Models {

  /** A finished work session, as appended to the entry list. */
  datatype WorkEntry = WorkEntry(start: int, end: int, spent: int, description: string)

  /** An in-progress session: `start == -1` means "not started yet". */
  datatype PartialEntry = PartialEntry(start: int, description: string)

  /** The sentinel start timestamp of a session that has not started. */
  const NotStarted: int := -1

  /** The partial entry a session is reset to (start not set, empty description). */
  const DefaultEntry: PartialEntry := PartialEntry(NotStarted, "")

  /** Status of a timer or tracker, derived from the tick engine's two facts. */
  datatype Status = Off | Paused | On

  /**
   * ON while ticking; PAUSED when halted with some time accumulated;
   * OFF when halted with nothing accumulated.  The three cases are
   * exhaustive and mutually exclusive.
   */
  function StatusOf(isRunning: bool, timeSpent: nat): (s: Status)
    ensures s == On <==> isRunning
    ensures s == Paused <==> !isRunning && timeSpent > 0
    ensures s == Off <==> !isRunning && timeSpent == 0
  {
    if isRunning then On
    else if timeSpent > 0 then Paused
    else Off
  }
}
