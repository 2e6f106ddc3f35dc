/**
 * The two-mode tracker component: a countdown (TIMER) or a count-up
 * (STOPWATCH) over a tick counter, reporting the start of a session through
 * `onStart` and its end through `onEnd`.
 */
module TimeTracker {
  import opened Models

  datatype TrackingMode = Timer | Stopwatch

  /** The string value of each mode, as the mode selector reports it. */
  function ModeValue(m: TrackingMode): string
  {
    match m
    case Timer => "timer"
    case Stopwatch => "stopwatch"
  }

  /** Every value of the enumeration, in declaration order. */
  const ModeValues: seq<string> := [ModeValue(Timer), ModeValue(Stopwatch)]

  /** Some value of the enumeration equals `value`. */
  predicate IsTrackingMode(value: string)
    ensures IsTrackingMode(value) <==> exists m :: ModeValue(m) == value
  {
    assert ModeValues[0] == ModeValue(Timer) && ModeValues[1] == ModeValue(Stopwatch);
    exists i :: 0 <= i < |ModeValues| && ModeValues[i] == value
  }

  /** The mode a valid value names. */
  function ModeOf(value: string): (m: TrackingMode)
    requires IsTrackingMode(value)
    ensures ModeValue(m) == value
  {
    if value == ModeValue(Timer) then Timer else Stopwatch
  }

  /** Distinct modes have distinct values, so a value names one mode. */
  lemma ModeValueRoundTrip(m: TrackingMode)
    ensures IsTrackingMode(ModeValue(m)) && ModeOf(ModeValue(m)) == m
  {
    assert ModeValue(Timer) != ModeValue(Stopwatch) by {
      assert ModeValue(Timer)[0] == 't' && ModeValue(Stopwatch)[0] == 's';
    }
  }

  /** A call to one of the two callbacks. */
  datatype Event = OnStart(startTimestamp: nat) | OnEnd(endTimestamp: nat, timeSpentMs: nat)

  class TimeTracker {
    var mode: TrackingMode
    var timeBudget: nat
    /** Milliseconds accumulated by the tick counter. */
    var timeSpent: nat
    /** Whether the tick counter is ticking. */
    var isRunning: bool
    /** Every callback made, oldest first. */
    ghost var events: seq<Event>

    function Status(): (s: Status)
      reads this
      ensures s == On <==> isRunning
      ensures s == Paused <==> !isRunning && timeSpent > 0
      ensures s == Off <==> !isRunning && timeSpent == 0
    {
      StatusOf(isRunning, timeSpent)
    }

    /** A fresh component in TIMER mode with the default budget it is given. */
    constructor (defaultTime: nat)
      ensures mode == Timer && timeBudget == defaultTime
      ensures timeSpent == 0 && !isRunning && events == []
      ensures Status() == Off
    {
      mode, timeBudget := Timer, defaultTime;
      timeSpent, isRunning := 0, false;
      events := [];
    }

    /** One period of the tick counter: time accrues only while ticking. */
    method Tick(period: nat)
      modifies this
      ensures timeSpent == old(timeSpent) + (if old(isRunning) then period else 0)
      ensures isRunning == old(isRunning) && mode == old(mode)
      ensures timeBudget == old(timeBudget) && events == old(events)
    {
      if isRunning {
        timeSpent := timeSpent + period;
      }
    }

    /** The budget written back by the field editor. */
    method SetTimeBudget(budget: nat)
      modifies this
      ensures timeBudget == budget
      ensures mode == old(mode) && timeSpent == old(timeSpent)
      ensures isRunning == old(isRunning) && events == old(events)
    {
      timeBudget := budget;
    }

    /**
     * The start/pause button.  From OFF it starts and reports the start time
     * once; from PAUSED it resumes without reporting; from ON it pauses.
     */
    method HandleStartPause(now: nat)
      modifies this
      ensures timeSpent == old(timeSpent) && mode == old(mode) && timeBudget == old(timeBudget)
      ensures old(Status()) == On ==> !isRunning && events == old(events)
      ensures old(Status()) == Off ==> isRunning && events == old(events) + [OnStart(now)]
      ensures old(Status()) == Paused ==> isRunning && events == old(events)
    {
      if Status() == On {
        PauseTicks();
      } else if Status() == Off {
        var startTimestamp := StartTicks(now);
        events := events + [OnStart(startTimestamp)];
      } else {
        var _ := StartTicks(now);
      }
    }

    /** Starts the tick counter and returns the time it started. */
    method StartTicks(now: nat) returns (startTimestamp: nat)
      modifies this
      ensures isRunning && startTimestamp == now
      ensures timeSpent == old(timeSpent) && mode == old(mode)
      ensures timeBudget == old(timeBudget) && events == old(events)
    {
      isRunning := true;
      startTimestamp := now;
    }

    /** Halts the tick counter, keeping the time spent. */
    method PauseTicks()
      modifies this
      ensures !isRunning && timeSpent == old(timeSpent) && mode == old(mode)
      ensures timeBudget == old(timeBudget) && events == old(events)
    {
      isRunning := false;
    }

    /** Clears and halts the tick counter. */
    method Reset()
      modifies this
      ensures !isRunning && timeSpent == 0 && mode == old(mode)
      ensures timeBudget == old(timeBudget) && events == old(events)
    {
      timeSpent, isRunning := 0, false;
    }

    /**
     * The stop button: always reports the end time and the time spent, then
     * clears the counter.  Unlike the countdown timer it has no OFF guard.
     */
    method HandleStop(now: nat)
      modifies this
      ensures events == old(events) + [OnEnd(now, old(timeSpent))]
      ensures timeSpent == 0 && !isRunning && Status() == Off
      ensures mode == old(mode) && timeBudget == old(timeBudget)
    {
      events := events + [OnEnd(now, timeSpent)];
      Reset();
    }

    /**
     * The mode selector.  A value that names no mode changes nothing.  A
     * switch from STOPWATCH to TIMER while halted with the budget already
     * used up reports the end and clears the counter; any other switch
     * changes only the mode.
     */
    method HandleModeChange(nextMode: string, now: nat)
      modifies this
      ensures !IsTrackingMode(nextMode) ==> unchanged(this)
      ensures IsTrackingMode(nextMode) ==> mode == ModeOf(nextMode) && timeBudget == old(timeBudget)
      ensures IsTrackingMode(nextMode) && ExpiresOnSwitch(old(isRunning), old(mode), ModeOf(nextMode),
                                                      old(timeSpent), old(timeBudget)) ==>
        && events == old(events) + [OnEnd(now, old(timeSpent))]
        && timeSpent == 0 && !isRunning
      ensures IsTrackingMode(nextMode) && !ExpiresOnSwitch(old(isRunning), old(mode), ModeOf(nextMode),
                                                       old(timeSpent), old(timeBudget)) ==>
        && events == old(events) && timeSpent == old(timeSpent) && isRunning == old(isRunning)
    {
      if IsTrackingMode(nextMode) {
        var previous := mode;
        mode := ModeOf(nextMode);
        if !isRunning && previous == Stopwatch && mode == Timer && timeSpent >= timeBudget {
          events := events + [OnEnd(now, timeSpent)];
          Reset();
        }
      }
    }
  }

  /** The condition under which a mode switch expires the session at once. */
  predicate ExpiresOnSwitch(isRunning: bool, previous: TrackingMode, next: TrackingMode,
                            timeSpent: nat, timeBudget: nat)
  {
    !isRunning && previous == Stopwatch && next == Timer && timeSpent >= timeBudget
  }

  /**
   * The switch that must not skip an overrun budget: a stopwatch session of
   * 6000 ms, paused, switched to a timer of 5000 ms, ends at once with
   * `onEnd(now, 6000)` and a cleared counter.
   */
  method StopwatchToTimerScenario(t0: nat, now: nat) returns (t: TimeTracker)
    ensures t.mode == Timer && t.timeSpent == 0 && t.Status() == Off
    ensures t.events == [OnStart(t0), OnEnd(now, 6000)]
  {
    t := new TimeTracker(5000);
    ModeValueRoundTrip(Stopwatch);
    ModeValueRoundTrip(Timer);
    t.HandleModeChange(ModeValue(Stopwatch), t0);
    t.HandleStartPause(t0);
    t.Tick(6000);
    t.HandleStartPause(t0 + 6000);
    t.HandleModeChange(ModeValue(Timer), now);
  }
}
