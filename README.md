# Slow-Up time tracker — a Dafny model of its logic

Slow-Up is a small browser widget for tracking time. A user starts, pauses and
stops a countdown timer or a two-mode tracker (timer or stopwatch). Each
session that ends becomes a work entry in a list the user can edit or delete.
A helper also computes how much time was tracked today. This project models
that logic and proves properties of it:

- `Helpers` (helpers.dfy): the daily-total finder. A lower-bound binary search
  (a `while` loop over `low`/`high`) finds the first entry ending after
  midnight. The `reduce` that sums `end - start` over the rest of the list is
  modelled as a left fold and proved equal to a plain sum.
- `TimeDisplay` (time_display.dfy): the budget editor. It splits a
  millisecond count into hours, minutes, seconds and a sub-second field, and
  rebuilds a budget from those four fields. It is a class for the four edited
  fields, plus pure functions for the arithmetic. The code reads the
  sub-second field as tenths (`% 1000 / 100`) but writes it back as
  hundredths (`* 10`). The field is named "centiseconds" and labelled "hs".
  The lemmas pin the loss down exactly. Rebuilding the decomposition of `ms`
  loses `ms % 1000 - (ms % 1000) / 100 * 10` milliseconds, and is exact only
  on whole seconds. Rebuilding and re-splitting in-range fields keeps them,
  except the sub-second field, which drops its last digit.
- `Models` (models.dfy): the work entry, the partial entry (start `-1` means
  "not started") and the three-way status rule (ON, PAUSED or OFF). Both
  components derive their status with this one rule.
- `Timer` (timer.dfy): the countdown component as a class. Its fields are the
  tick counter (`timeSpent`, `isRunning`), the budget and the partial entry,
  plus a ghost log of the entries handed to `addEntry`. Each handler's
  postcondition gives every field of the new state, and every handler preserves the
  invariant `Valid()`: a session that is not OFF has a real start timestamp,
  so no emitted entry carries the sentinel. The render-time expiration check
  leaves its own condition false. As a result, a second render emits nothing
  (`ExpirationFiresOnce`).
- `TimeTracker` (time_tracker.dfy): the two-mode component as a class. Its
  fields are the mode, the budget, the tick counter and a ghost log of
  `onStart`/`onEnd` calls. It covers the start/pause, stop and mode-change
  handlers, including the stopwatch-to-timer switch that expires an overrun
  session at once.
- `App` (app.dfy): append, replace-at-index and remove-at-index on the entry
  list. Remove follows `toSpliced(start, 1)` for every integer start. Replace
  copies the list into a fresh array and overwrites one element field by
  field.

The tick hooks' bodies are not part of this model. They are represented
abstractly:

- starting sets `isRunning`;
- pausing clears `isRunning` and keeps `timeSpent`;
- reset clears both;
- `Tick` adds one period while running. The timer's period is 100 ms.

The current time (`Date.now()`) and today's midnight are method parameters.

Where the code departs from its own documented intent, the model follows the code:

- The tracker's stop handler has no OFF guard. It reports `onEnd(now, 0)`
  even when nothing was tracked.
- The tracker's `onStart` fires on every start from OFF. That includes a
  restart after pausing before the first tick.
- An emitted entry's `spent` is the tick count, not `end - start`.
- The sub-second field is tenths, not hundredths.

## Model

| member | source | states |
|---|---|---|
| Models.StatusOf | src/components/Timer/Timer.tsx:31-35 | ON iff running; PAUSED iff halted with time spent; OFF iff halted with none (exhaustive and exclusive) |
| Helpers.FirstEndingAfter | src/helpers.ts:13-21 | reference boundary: an index from 0 to the list's length, every entry before it ends at or before midnight, the entry at it (if any) ends after |
| Helpers.FirstEndingAfterPartitions | src/helpers.ts:13-21 | on input sorted by `end`, every entry from the boundary on ends after midnight |
| Helpers.TodaysEarliestEntryIndex | src/helpers.ts:6-22 | the search returns an index from 0 to the list's length (0 for an empty list); on sorted input everything before it ends at or before midnight, everything from it ends after, and it equals the reference boundary |
| Helpers.ReduceIsSum | src/helpers.ts:28-30 | the `reduce` left fold from seed `acc` equals `acc` plus the sum of `end - start` |
| Helpers.SumAppend | src/helpers.ts:28-30 | the duration sum distributes over concatenation |
| Helpers.SuffixExcludesPrefix | src/helpers.ts:27-30 | the total over `entries[k..]` is the whole sum minus that of the entries before `k` |
| Helpers.SumNonNegative | src/helpers.ts:29-30 | when every entry has `end >= start` the sum is non-negative |
| Helpers.TodaysTotalTimeMs | src/helpers.ts:24-32 | on any input the ms total is the sum of durations of some suffix of the list; on sorted input it is the suffix from the boundary on (and the whole sum minus the earlier entries'); non-negative when all entries are well formed |
| Helpers.TwoEntryScenario | src/helpers.ts:15-21 | for `[{0,1000},{2000,2500}]` and midnight 1500 the boundary is 1 and the suffix sum is 500 |
| Helpers.TwoEntryScenarioRun | src/helpers.ts:24-32 | running the search and the total on that list gives index 1 and 500 ms |
| TimeDisplay.Decompose | src/components/Timer/TimeDisplay.tsx:16-27 | minutes and seconds in `[0,59]`, the sub-second field in `[0,9]`, hours the count of whole hours, and `h*3600000 + m*60000 + s*1000 + c*100 + ms%100 == ms` |
| TimeDisplay.DecomposeIdentity | src/components/Timer/TimeDisplay.tsx:16-27 | the decomposition identity and the minute bound, on the raw expressions |
| TimeDisplay.RoundTripLoss | src/components/Timer/TimeDisplay.tsx:16-35 | the rebuilt budget never exceeds `ms`, equals it iff `ms % 1000 == 0`, and falls short by `ms%1000 - (ms%1000)/100*10` |
| TimeDisplay.FieldsRoundTrip | src/components/Timer/TimeDisplay.tsx:16-35 | in-range fields rebuilt and re-split come back equal except the sub-second field, which becomes `c / 10` |
| TimeDisplay.HalfSecondBecomesFiftyMs | src/components/Timer/TimeDisplay.tsx:25-35 | 1500 ms splits into `0:0:1:5` and rebuilds to 1050 ms |
| TimeDisplay.TimeDisplay.constructor | src/components/Timer/TimeDisplay.tsx:16-27 | the four fields start as the decomposition of the milliseconds left |
| TimeDisplay.TimeDisplay.SetHours | src/components/Timer/TimeDisplay.tsx:47 | only the hours field changes |
| TimeDisplay.TimeDisplay.SetMinutes | src/components/Timer/TimeDisplay.tsx:61 | only the minutes field changes |
| TimeDisplay.TimeDisplay.SetSeconds | src/components/Timer/TimeDisplay.tsx:75 | only the seconds field changes |
| TimeDisplay.TimeDisplay.SetCentiseconds | src/components/Timer/TimeDisplay.tsx:89 | only the sub-second field changes |
| TimeDisplay.TimeDisplay.UpdateTimeBudget | src/components/Timer/TimeDisplay.tsx:29-36 | the budget is the rebuild of the current fields; for in-range fields, splitting it again gives the fields back with the sub-second digit divided by 10 |
| TimeDisplay.BlurWithoutEdit | src/components/Timer/TimeDisplay.tsx:16-36 | mounting on `ms` and blurring unedited yields a budget at most `ms`, equal iff `ms` is whole seconds |
| Timer.Timer.Status | src/components/Timer/Timer.tsx:31-37 | the component's status follows the three-way rule over its own fields |
| Timer.Timer.MillisecondsLeft | src/components/Timer/Timer.tsx:29 | the time left is negative exactly when the time spent exceeds the budget |
| Timer.Timer.constructor | src/components/Timer/Timer.tsx:18-28 | no time spent, not running, the default budget, the default partial entry, nothing emitted; `Valid()` holds |
| Timer.Timer.Tick | src/components/Timer/Timer.tsx:24 | one period adds 100 ms while running and nothing otherwise |
| Timer.Timer.Start | src/components/Timer/Timer.tsx:39-49 | no-op when ON; otherwise running, with `now` recorded as the start only if none was recorded (resuming keeps the original start) |
| Timer.Timer.Stop | src/components/Timer/Timer.tsx:51-62 | no-op when OFF; otherwise exactly one entry `{start, description, end: now, spent: timeSpent}` is appended, its start is real, and the counter and partial entry are reset (status OFF) |
| Timer.Timer.Pause | src/components/Timer/Timer.tsx:64-67 | no-op when PAUSED; otherwise halts and keeps the time spent and everything else |
| Timer.Timer.SetContent | src/components/Timer/Timer.tsx:69-74 | only the partial entry's description changes |
| Timer.Timer.SetTimeBudget | src/components/Timer/Timer.tsx:25 | only the budget changes |
| Timer.Timer.HandleStartPauseClick | src/components/Timer/Timer.tsx:76-85 | when ON: stops ticking and keeps the time spent and the partial entry; otherwise: ON with the time spent kept, the start set to `now` only if none was recorded; budget and log unchanged either way |
| Timer.Timer.HandleStopClick | src/components/Timer/Timer.tsx:87-90 | leaves status OFF; when OFF nothing changes; otherwise exactly one entry (recorded start, `now`, time spent, description) is appended to the log, the counter and partial entry are cleared and the budget kept |
| Timer.Timer.CheckExpiration | src/components/Timer/Timer.tsx:92-94 | a used-up budget on a session that is not OFF runs the stop (exactly that one entry, with `spent >= budget`; status OFF; counter and partial entry cleared; budget kept); otherwise nothing changes; afterwards the condition is false |
| Timer.ExpirationFiresOnce | src/components/Timer/Timer.tsx:92-94 | two renders after expiry append exactly one entry |
| Timer.FiveSecondBudget | src/components/Timer/Timer.tsx:39-94 | a 5000 ms budget ticked 50 times, with the render check after every tick, ends in exactly one 5000 ms entry and a cleared counter |
| TimeTracker.IsTrackingMode | src/components/TimeTracker/TimeTracker.tsx:89-91 | holds iff the value equals the string of some tracking mode |
| TimeTracker.ModeOf | src/components/TimeTracker/TimeTracker.tsx:52-53 | the mode that a valid value names has that value |
| TimeTracker.ModeValueRoundTrip | src/components/TimeTracker/TimeTracker.tsx:89-91 | every mode's value is valid and names that mode back |
| TimeTracker.TimeTracker.Status | src/components/TimeTracker/TimeTracker.tsx:30-34 | the same three-way rule as the countdown timer, over the tracker's fields |
| TimeTracker.TimeTracker.constructor | src/components/TimeTracker/TimeTracker.tsx:16-28 | TIMER mode, the default budget, no time spent, not running, no callbacks |
| TimeTracker.TimeTracker.Tick | src/components/TimeTracker/TimeTracker.tsx:18-28 | one period adds its length while running and nothing otherwise |
| TimeTracker.TimeTracker.SetTimeBudget | src/components/TimeTracker/TimeTracker.tsx:17 | only the budget changes |
| TimeTracker.TimeTracker.StartTicks | src/components/TimeTracker/TimeTracker.tsx:21 | running, returning `now` as the start time, nothing else changed |
| TimeTracker.TimeTracker.PauseTicks | src/components/TimeTracker/TimeTracker.tsx:22 | halts, keeping the time spent |
| TimeTracker.TimeTracker.Reset | src/components/TimeTracker/TimeTracker.tsx:23 | halts and clears the time spent |
| TimeTracker.TimeTracker.HandleStartPause | src/components/TimeTracker/TimeTracker.tsx:36-44 | from ON pauses; from OFF starts and calls `onStart(now)` exactly once; from PAUSED resumes without `onStart`; time spent unchanged |
| TimeTracker.TimeTracker.HandleStop | src/components/TimeTracker/TimeTracker.tsx:46-49 | always calls `onEnd(now, timeSpent)` once, then not running with no time spent |
| TimeTracker.TimeTracker.HandleModeChange | src/components/TimeTracker/TimeTracker.tsx:51-67 | an invalid value changes nothing; a halted STOPWATCH-to-TIMER switch with the budget used up calls `onEnd(now, timeSpent)` once and resets; any other valid switch changes only the mode |
| TimeTracker.StopwatchToTimerScenario | src/components/TimeTracker/TimeTracker.tsx:36-67 | a 6000 ms paused stopwatch session switched to a 5000 ms timer logs `onStart(t0)` then `onEnd(now, 6000)` and clears the counter |
| App.AddEntry | src/App.tsx:16-18 | the length grows by one, every old index is unchanged, and the new entry is last |
| App.DeleteEntry | src/App.tsx:27-31 | for an index in range exactly that element goes (length minus one, order kept, the multiset loses that element); a negative index removes the element that many places from the end, and one before the start removes the first; an index at or past the end, or an empty list, changes nothing |
| App.NegativeIndexCountsFromEnd | src/App.tsx:29 | a negative index deletes the same element as the length plus that index, and one before the start the same as index 0 |
| App.UpdateEntry | src/App.tsx:20-25 | the length is kept, the target index holds the given entry's fields, every other index is unchanged (the input list is a value, so it is not altered) |
| App.AddThenDelete | src/App.tsx:16-31 | appending an entry and removing the index equal to the old length returns the original list |
| App.UpdateWithSame | src/App.tsx:20-25 | replacing an entry by itself returns the same list |
| App.AddDeleteScenario | src/App.tsx:16-31 | adding `{10,20,"x"}` to `[]` gives the one-entry list, and deleting index 0 gives `[]` |

## Left out

- Browser notifications (`notify`, src/helpers.ts:1-4): a host API call with no logic in it.
- The `beforeunload` listener added and removed by the timer's button handlers (src/components/Timer/Timer.tsx:81,88,123-127): browser event plumbing.
- Persistence of the entry list (`useLocalStorage`, src/App.tsx:11-14), and with it the round trip of the saved list through storage: that hook is not part of this model.
- The tick hooks `useTick` and `useTimeTracking` are not part of this model. They are reduced to start, pause, reset and one-period ticks. The timer-mode auto-expiration inside `useTimeTracking` (its `onTimerExpiration` callback) is not modelled, and nothing is claimed about it.
- `getEntryIndex` is not part of this model. Its result is the `targetIdx` parameter. `UpdateEntry` requires that index in range, because `Object.assign` on a missing element would throw.
- The wall clock (`Date.now()` and `new Date().setHours(0,0,0,0)`): both are parameters (`now: nat`, `midnight`).
- The conversion of the total to seconds (`/ 1000`, src/helpers.ts:31): floating point. Only the integer millisecond sum is modelled.
- Input parsing of the budget fields (`Number(...)`, which can give NaN or fractions): the fields are `nat`.
- TimeDisplay.Decompose: takes `nat`, so a negative `millisecondsLeft` is not modelled. JavaScript's `%` and `Math.floor` differ from Dafny's on negative operands.
- JavaScript numbers are doubles. The model uses unbounded integers, which agree with them within the safe-integer range.
- `DEFAULT_TIME` and `DEFAULT_ENTRY` (Timer.constants) are not part of this model. The default budget is a constructor parameter. The default partial entry is taken to be start `-1` (the documented sentinel) with an empty description.
- The string values of the `TrackingMode` enumeration (models) are not part of this model. They are taken to be `"timer"` and `"stopwatch"`. Only their being two distinct strings matters to the proofs.
- Rendering: JSX, CSS classes, `key` remounting and the `disabled` attributes on the fields and buttons.
- The cancellation of the host's repeating timer: the abstract `Tick` runs only when a caller invokes it.
- Timer.Timer.Start: `updatePartialEntry` (imported at src/components/Timer/Timer.tsx:5, called at line 44) is not part of this model. `Start` takes it to replace only the `start` field of the partial entry and keep the description.
