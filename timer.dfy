/**
 * The countdown timer component: a tick counter with a running flag, a
 * time budget, the partial entry of the session under way, and the entries
 * it has handed to its owner.  Handlers are guarded by the derived status;
 * the render-time check stops the session once the budget is used up.
 */
module Timer {
  import opened Models

  /** The tick counter's period, in milliseconds. */
  const TickLength: nat := 100

  class Timer {
    /** Milliseconds accumulated by the tick counter. */
    var timeSpent: nat
    /** Whether the tick counter is ticking. */
    var isRunning: bool
    var timeBudget: nat
    var partialEntry: PartialEntry
    /** Every entry handed to `addEntry`, oldest first. */
    ghost var added: seq<WorkEntry>

    /**
     * The session's start is the sentinel or a real timestamp, and a session
     * that is not OFF has a real start.
     */
    ghost predicate Valid()
      reads this
    {
      && (partialEntry.start == NotStarted || partialEntry.start >= 0)
      && (Status() != Off ==> partialEntry.start >= 0)
    }

    function Status(): (s: Status)
      reads this
      ensures s == On <==> isRunning
      ensures s == Paused <==> !isRunning && timeSpent > 0
      ensures s == Off <==> !isRunning && timeSpent == 0
    {
      StatusOf(isRunning, timeSpent)
    }

    /** The budget is used up while a session is ON or PAUSED. */
    predicate Expired()
      reads this
    {
      timeSpent >= timeBudget && Status() != Off
    }

    /** What the display shows; negative once the budget is overrun. */
    function MillisecondsLeft(): (left: int)
      reads this
      ensures left < 0 <==> timeSpent > timeBudget
    {
      timeBudget - timeSpent
    }

    /** A fresh component, with the default budget it is given. */
    constructor (defaultTime: nat)
      ensures Valid()
      ensures timeSpent == 0 && !isRunning && timeBudget == defaultTime
      ensures partialEntry == DefaultEntry && added == []
      ensures Status() == Off
    {
      timeSpent, isRunning, timeBudget := 0, false, defaultTime;
      partialEntry := DefaultEntry;
      added := [];
    }

    /** One period of the tick counter: time accrues only while ticking. */
    method Tick()
      requires Valid()
      modifies this
      ensures Valid()
      ensures timeSpent == old(timeSpent) + (if old(isRunning) then TickLength else 0)
      ensures isRunning == old(isRunning) && timeBudget == old(timeBudget)
      ensures partialEntry == old(partialEntry) && added == old(added)
    {
      if isRunning {
        timeSpent := timeSpent + TickLength;
      }
    }

    /**
     * Starts or resumes ticking.  A no-op when ON; records `now` as the
     * session's start only if no start was recorded yet.
     */
    method Start(now: nat)
      requires Valid()
      modifies this
      ensures Valid()
      ensures old(Status()) == On ==> unchanged(this)
      ensures old(Status()) != On ==>
        && isRunning && Status() == On
        && timeSpent == old(timeSpent) && timeBudget == old(timeBudget) && added == old(added)
        && partialEntry == (if old(partialEntry.start) == NotStarted
                            then old(partialEntry).(start := now)
                            else old(partialEntry))
    {
      if Status() == On {
        return;
      }
      isRunning := true;
      if partialEntry.start == NotStarted {
        partialEntry := partialEntry.(start := now);
      }
    }

    /**
     * Ends the session.  A no-op when OFF; otherwise hands exactly one entry
     * (the partial entry's start and description, `now` as end, the time
     * spent) to the owner, and clears the counter and the partial entry.
     */
    method Stop(now: nat)
      requires Valid()
      modifies this
      ensures Valid()
      ensures Status() == Off
      ensures old(Status()) == Off ==> unchanged(this)
      ensures old(Status()) != Off ==>
        && added == old(added) + [WorkEntry(old(partialEntry.start), now, old(timeSpent),
                                            old(partialEntry.description))]
        && added[|added| - 1].start >= 0
        && timeSpent == 0 && !isRunning && timeBudget == old(timeBudget)
        && partialEntry == DefaultEntry
    {
      if Status() == Off {
        return;
      }
      var spent := timeSpent;
      timeSpent, isRunning := 0, false;
      var timeEntry := WorkEntry(partialEntry.start, now, spent, partialEntry.description);
      partialEntry := DefaultEntry;
      added := added + [timeEntry];
    }

    /** Halts ticking, keeping the time spent.  A no-op when PAUSED. */
    method Pause()
      requires Valid()
      modifies this
      ensures Valid()
      ensures old(Status()) == Paused ==> unchanged(this)
      ensures !isRunning && timeSpent == old(timeSpent) && timeBudget == old(timeBudget)
      ensures partialEntry == old(partialEntry) && added == old(added)
      ensures old(Status()) == On ==> Status() == (if timeSpent > 0 then Paused else Off)
    {
      if Status() == Paused {
        return;
      }
      isRunning := false;
    }

    /** Replaces the description of the session under way, and nothing else. */
    method SetContent(content: string)
      requires Valid()
      modifies this
      ensures Valid()
      ensures partialEntry == old(partialEntry).(description := content)
      ensures timeSpent == old(timeSpent) && isRunning == old(isRunning)
      ensures timeBudget == old(timeBudget) && added == old(added)
    {
      partialEntry := partialEntry.(description := content);
    }

    /** The budget written back by the field editor. */
    method SetTimeBudget(budget: nat)
      requires Valid()
      modifies this
      ensures Valid()
      ensures timeBudget == budget
      ensures timeSpent == old(timeSpent) && isRunning == old(isRunning)
      ensures partialEntry == old(partialEntry) && added == old(added)
    {
      timeBudget := budget;
    }

    /**
     * The start/pause button: pauses when ON, starts otherwise.  Starting
     * records `now` only when no start is recorded, so a session paused
     * before its first tick (OFF, with a real start) keeps that old start.
     */
    method HandleStartPauseClick(now: nat)
      requires Valid()
      modifies this
      ensures Valid()
      ensures old(Status()) == On ==>
        && !isRunning && timeSpent == old(timeSpent) && partialEntry == old(partialEntry)
      ensures old(Status()) != On ==>
        && isRunning && Status() == On && timeSpent == old(timeSpent)
        && partialEntry == (if old(partialEntry.start) == NotStarted
                            then old(partialEntry).(start := now)
                            else old(partialEntry))
      ensures timeBudget == old(timeBudget) && added == old(added)
    {
      if Status() == On {
        Pause();
      } else {
        Start(now);
      }
    }

    /** The stop button: exactly the stop handler. */
    method HandleStopClick(now: nat)
      requires Valid()
      modifies this
      ensures Valid()
      ensures Status() == Off
      ensures old(Status()) == Off ==> unchanged(this)
      ensures old(Status()) != Off ==>
        && added == old(added) + [WorkEntry(old(partialEntry.start), now, old(timeSpent),
                                            old(partialEntry.description))]
        && added[|added| - 1].start >= 0
        && timeSpent == 0 && !isRunning && timeBudget == old(timeBudget)
        && partialEntry == DefaultEntry
    {
      Stop(now);
    }

    /**
     * The check run on every render: a session whose budget is used up is
     * stopped.  Afterwards the check's condition is false, so running it
     * again changes nothing.
     */
    method CheckExpiration(now: nat)
      requires Valid()
      modifies this
      ensures Valid()
      ensures !Expired()
      ensures old(Expired()) ==>
        && Status() == Off && timeSpent == 0 && !isRunning && partialEntry == DefaultEntry
        && timeBudget == old(timeBudget)
        && added == old(added) + [WorkEntry(old(partialEntry.start), now, old(timeSpent),
                                            old(partialEntry.description))]
        && added[|added| - 1].spent >= old(timeBudget)
      ensures !old(Expired()) ==> unchanged(this)
    {
      if timeSpent >= timeBudget && Status() != Off {
        Stop(now);
      }
    }
  }

  /** Two renders after the budget ran out hand over one entry, not two. */
  method ExpirationFiresOnce(t: Timer, now1: nat, now2: nat)
    requires t.Valid() && t.Expired()
    modifies t
    ensures t.Valid() && t.Status() == Off
    ensures t.added == old(t.added) + [WorkEntry(old(t.partialEntry.start), now1, old(t.timeSpent),
                                                 old(t.partialEntry.description))]
  {
    t.CheckExpiration(now1);
    t.CheckExpiration(now2);
  }

  /**
   * A 5-second budget: start at `t0`, then tick 50 times with the render
   * check after every tick.  The check stays quiet for the first 49 ticks
   * and, after the 50th, hands over one entry of 5000 ms and resets.
   */
  method FiveSecondBudget(t0: nat, t1: nat) returns (t: Timer)
    ensures t.Valid() && t.Status() == Off && t.timeSpent == 0
    ensures t.added == [WorkEntry(t0, t1, 5000, "")]
  {
    t := new Timer(5000);
    t.Start(t0);
    var n := 0;
    while n < 50
      invariant 0 <= n <= 50
      invariant t.Valid() && t.timeBudget == 5000
      invariant n < 50 ==>
        && t.isRunning && t.timeSpent == n * TickLength
        && t.partialEntry == PartialEntry(t0, "") && t.added == []
      invariant n == 50 ==>
        && t.Status() == Off && t.timeSpent == 0
        && t.added == [WorkEntry(t0, t1, 5000, "")]
    {
      t.Tick();
      n := n + 1;
      t.CheckExpiration(t1);
    }
  }
}
