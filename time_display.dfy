/**
 * The budget editor: a millisecond count is split into hour, minute,
 * second and sub-second fields, the fields are edited, and a budget is
 * rebuilt from them when a field loses focus.
 *
 * The sub-second field is read off as TENTHS of a second
 * (`ms % 1000 / 100`) but written back as HUNDREDTHS (`field * 10`), so the
 * round trip is lossy; the lemmas below say exactly how.
 */
module TimeDisplay {

  const MsPerHour: nat := 3600000
  const MsPerMinute: nat := 60000
  const MsPerSecond: nat := 1000

  /** The four editable fields. */
  datatype Fields = Fields(hours: nat, minutes: nat, seconds: nat, centiseconds: nat)

  /**
   * The initial values of the four fields for a non-negative count of
   * milliseconds left.  Hours are not reduced: they absorb every full hour.
   */
  function Decompose(millisecondsLeft: nat): (f: Fields)
    ensures f.minutes <= 59 && f.seconds <= 59 && f.centiseconds <= 9
    ensures f.hours * MsPerHour <= millisecondsLeft < (f.hours + 1) * MsPerHour
    ensures f.hours * MsPerHour + f.minutes * MsPerMinute + f.seconds * MsPerSecond
            + f.centiseconds * 100 + millisecondsLeft % 100 == millisecondsLeft
  {
    DecomposeIdentity(millisecondsLeft);
    Fields(millisecondsLeft / 3600000,
           (millisecondsLeft % 3600000) / 60000,
           (millisecondsLeft % 60000) / 1000,
           (millisecondsLeft % 1000) / 100)
  }

  /** The arithmetic behind the decomposition identity, step by step. */
  lemma DecomposeIdentity(ms: nat)
    ensures (ms % 3600000) / 60000 <= 59
    ensures ms / 3600000 * 3600000 <= ms < (ms / 3600000 + 1) * 3600000
    ensures ms / 3600000 * 3600000 + (ms % 3600000) / 60000 * 60000
            + (ms % 60000) / 1000 * 1000 + (ms % 1000) / 100 * 100 + ms % 100 == ms
  {
    var h, r1 := ms / 3600000, ms % 3600000;
    var m, r2 := r1 / 60000, r1 % 60000;
    assert m <= 59;
    assert ms == (h * 60 + m) * 60000 + r2;
    SplitByMinute(ms, h * 60 + m, r2);
    var s, r3 := r2 / 1000, r2 % 1000;
    assert ms == ((h * 60 + m) * 60 + s) * 1000 + r3;
    SplitBySecond(ms, (h * 60 + m) * 60 + s, r3);
    var c, r4 := r3 / 100, r3 % 100;
    assert ms == (((h * 60 + m) * 60 + s) * 10 + c) * 100 + r4;
    SplitByHundred(ms, ((h * 60 + m) * 60 + s) * 10 + c, r4);
  }

  /** The budget rebuilt from the fields, the sub-second field counted in hundredths. */
  function Recompose(f: Fields): nat
  {
    f.hours * 3600000 + f.minutes * 60000 + f.seconds * 1000 + f.centiseconds * 10
  }

  /**
   * Rebuilding the budget from the decomposition never gains time, and is
   * exact precisely on whole seconds; the loss is the sub-second remainder
   * minus a tenth of its tenths digit's worth.
   */
  lemma RoundTripLoss(ms: nat)
    ensures Recompose(Decompose(ms)) <= ms
    ensures Recompose(Decompose(ms)) == ms <==> ms % 1000 == 0
    ensures ms - Recompose(Decompose(ms)) == ms % 1000 - (ms % 1000) / 100 * 10
  {
    var f := Decompose(ms);
    var r := ms % 1000;
    assert ms % 100 == r % 100 by {
      DecomposeIdentity(ms);
    }
    assert f.centiseconds * 100 + ms % 100 == r;
    assert Recompose(f) == ms - r + f.centiseconds * 10;
  }

  /**
   * Going the other way, fields in range survive a rebuild and a fresh
   * decomposition except the sub-second field, which drops its last digit.
   */
  lemma FieldsRoundTrip(f: Fields)
    requires f.minutes <= 59 && f.seconds <= 59 && f.centiseconds <= 99
    ensures Decompose(Recompose(f)) == Fields(f.hours, f.minutes, f.seconds, f.centiseconds / 10)
  {
    var ms := Recompose(f);
    var sub := f.seconds * 1000 + f.centiseconds * 10;
    var low := f.minutes * 60000 + sub;
    assert ms == f.hours * 3600000 + low;
    SplitByHour(ms, f.hours, low);
    SplitByMinute(low, f.minutes, sub);
    assert ms == (f.hours * 60 + f.minutes) * 60000 + sub;
    SplitByMinute(ms, f.hours * 60 + f.minutes, sub);
    SplitBySecond(sub, f.seconds, f.centiseconds * 10);
    assert ms == ((f.hours * 60 + f.minutes) * 60 + f.seconds) * 1000 + f.centiseconds * 10;
    SplitBySecond(ms, (f.hours * 60 + f.minutes) * 60 + f.seconds, f.centiseconds * 10);
  }

  /** Whole hours and the rest determine division by an hour. */
  lemma SplitByHour(x: nat, q: nat, r: nat)
    requires r < 3600000 && x == q * 3600000 + r
    ensures x / 3600000 == q && x % 3600000 == r
  {
  }

  /** Whole minutes and the rest determine division by a minute. */
  lemma SplitByMinute(x: nat, q: nat, r: nat)
    requires r < 60000 && x == q * 60000 + r
    ensures x / 60000 == q && x % 60000 == r
  {
  }

  /** Whole tenths of a second and the rest determine division by 100. */
  lemma SplitByHundred(x: nat, q: nat, r: nat)
    requires r < 100 && x == q * 100 + r
    ensures x / 100 == q && x % 100 == r
  {
  }

  /** Whole seconds and the rest determine division by a second. */
  lemma SplitBySecond(x: nat, q: nat, r: nat)
    requires r < 1000 && x == q * 1000 + r
    ensures x / 1000 == q && x % 1000 == r
  {
  }

  /** The sample that shows the loss: 1.5 s becomes 1.05 s after one edit. */
  lemma HalfSecondBecomesFiftyMs()
    ensures Decompose(1500) == Fields(0, 0, 1, 5)
    ensures Recompose(Decompose(1500)) == 1050
  {
  }

  /**
   * The field editor as a component: four fields set from a millisecond
   * count when it mounts, updated one at a time, and read back into a
   * budget on blur.
   */
  class TimeDisplay {
    var hours: nat
    var minutes: nat
    var seconds: nat
    var centiseconds: nat

    /** The current field values. */
    function Current(): Fields
      reads this
    {
      Fields(hours, minutes, seconds, centiseconds)
    }

    constructor (millisecondsLeft: nat)
      ensures Current() == Decompose(millisecondsLeft)
    {
      var f := Decompose(millisecondsLeft);
      hours, minutes, seconds, centiseconds := f.hours, f.minutes, f.seconds, f.centiseconds;
    }

    method SetHours(value: nat)
      modifies this
      ensures Current() == old(Current()).(hours := value)
    {
      hours := value;
    }

    method SetMinutes(value: nat)
      modifies this
      ensures Current() == old(Current()).(minutes := value)
    {
      minutes := value;
    }

    method SetSeconds(value: nat)
      modifies this
      ensures Current() == old(Current()).(seconds := value)
    {
      seconds := value;
    }

    method SetCentiseconds(value: nat)
      modifies this
      ensures Current() == old(Current()).(centiseconds := value)
    {
      centiseconds := value;
    }

    /**
     * The budget handed to the owner on blur: hours, minutes and seconds at
     * their full weight, the sub-second field as hundredths.
     */
    method UpdateTimeBudget() returns (budget: nat)
      ensures budget == Recompose(Current())
      ensures minutes <= 59 && seconds <= 59 && centiseconds <= 99 ==>
                Decompose(budget) == Current().(centiseconds := centiseconds / 10)
    {
      var nextHours := hours * 3600000;
      var nextMinutes := minutes * 60000;
      var nextSeconds := seconds * 1000;
      var nextCentiseconds := centiseconds * 10;
      budget := nextHours + nextMinutes + nextSeconds + nextCentiseconds;
      if minutes <= 59 && seconds <= 59 && centiseconds <= 99 {
        FieldsRoundTrip(Current());
      }
    }
  }

  /** Mounting on a count and blurring without an edit keeps no more than the count. */
  method BlurWithoutEdit(millisecondsLeft: nat) returns (budget: nat)
    ensures budget <= millisecondsLeft
    ensures budget == millisecondsLeft <==> millisecondsLeft % 1000 == 0
  {
    var display := new TimeDisplay(millisecondsLeft);
    budget := display.UpdateTimeBudget();
    RoundTripLoss(millisecondsLeft);
  }
}
