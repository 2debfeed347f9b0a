/**
 * The time-period picker (src/components/blend/TimePeriodTimeline.tsx): three
 * periods on a line, chosen by a tap on a marker or by a horizontal swipe of
 * more than 50 pixels towards the next or the previous period.
 */
module Timeline {
  import opened Wrappers
  import opened Catalog

  /** The periods in display order. */
  const Periods: seq<TimeRange> := [ShortTerm, MediumTerm, LongTerm]

  function Label(p: TimeRange): string {
    match p
    case ShortTerm => "4 Weeks"
    case MediumTerm => "6 Months"
    case LongTerm => "All Time"
  }

  /** periods.findIndex(p => p.value === value). */
  function IndexOf(v: TimeRange): (i: nat)
    ensures i < |Periods| && Periods[i] == v
  {
    match v
    case ShortTerm => 0
    case MediumTerm => 1
    case LongTerm => 2
  }

  /** Every period sits at one position only. */
  lemma IndexOfPeriod(i: nat)
    requires i < |Periods|
    ensures IndexOf(Periods[i]) == i
  {
  }

  const SwipeThreshold: real := 50.0

  /** A coordinate JavaScript treats as true: recorded and not 0. */
  predicate Truthy(x: Option<real>) {
    x.Some? && x.value != 0.0
  }

  /** The period a finished gesture asks for, or None when it leaves the choice alone. */
  function SwipeTarget(value: TimeRange, touchStart: Option<real>, touchEnd: Option<real>): Option<TimeRange> {
    if !Truthy(touchStart) || !Truthy(touchEnd) then None
    else
      var distance := touchStart.value - touchEnd.value;
      var i := IndexOf(value);
      if distance > SwipeThreshold && i < |Periods| - 1 then Some(Periods[i + 1])
      else if distance < -SwipeThreshold && i > 0 then Some(Periods[i - 1])
      else None
  }

  /**
   * A gesture moves the choice exactly when both ends are recorded and
   * non-zero and it travels more than 50 pixels towards a period that
   * exists: leftwards to the next one, rightwards to the previous one.
   */
  lemma SwipeTargetCases(value: TimeRange, touchStart: Option<real>, touchEnd: Option<real>)
    ensures var r := SwipeTarget(value, touchStart, touchEnd);
      r.Some? <==>
        && Truthy(touchStart) && Truthy(touchEnd)
        && ((touchStart.value - touchEnd.value > 50.0 && IndexOf(value) < 2)
            || (touchStart.value - touchEnd.value < -50.0 && IndexOf(value) > 0))
    ensures var r := SwipeTarget(value, touchStart, touchEnd);
      r.Some? ==>
        && (touchStart.value - touchEnd.value > 50.0 ==> IndexOf(r.value) == IndexOf(value) + 1)
        && (touchStart.value - touchEnd.value < -50.0 ==> IndexOf(r.value) == IndexOf(value) - 1)
  {
    var r := SwipeTarget(value, touchStart, touchEnd);
    if r.Some? {
      IndexOfPeriod(IndexOf(r.value));
    }
  }

  /** A tap (no move recorded since the touch began) and a gesture starting or ending at x = 0 select nothing. */
  lemma UnrecordedSelectsNothing(value: TimeRange, x: real, touchEnd: Option<real>)
    ensures SwipeTarget(value, Some(x), None) == None
    ensures SwipeTarget(value, Some(0.0), touchEnd) == None
    ensures SwipeTarget(value, Some(x), Some(0.0)) == None
  {
  }

  /** A short gesture, and a swipe past either end of the line, select nothing. */
  lemma ShortOrOutwardSelectsNothing(value: TimeRange, s: real, e: real)
    ensures -50.0 <= s - e <= 50.0 ==> SwipeTarget(value, Some(s), Some(e)) == None
    ensures value == LongTerm && s - e > 50.0 ==> SwipeTarget(value, Some(s), Some(e)) == None
    ensures value == ShortTerm && s - e < -50.0 ==> SwipeTarget(value, Some(s), Some(e)) == None
  {
  }

  /** Swiping back along the same path undoes a swipe. */
  lemma SwipeBack(value: TimeRange, s: real, e: real)
    requires SwipeTarget(value, Some(s), Some(e)).Some?
    ensures SwipeTarget(SwipeTarget(value, Some(s), Some(e)).value, Some(e), Some(s)) == Some(value)
  {
    SwipeTargetCases(value, Some(s), Some(e));
  }

  /**
   * Coordinates are CSS pixels and may be fractional: a 50.5-pixel swipe
   * moves the choice, and a touch starting at 0.4 is recorded as truthy.
   */
  lemma FractionalSwipe()
    ensures SwipeTarget(MediumTerm, Some(100.5), Some(50.0)) == Some(LongTerm)
    ensures SwipeTarget(MediumTerm, Some(0.4), Some(60.9)) == Some(ShortTerm)
    ensures SwipeTarget(MediumTerm, Some(100.0), Some(50.0)) == None
  {
  }

  /** The picker: the selected period (owned by the parent, changed through onChange) and the touch coordinates. */
  class Picker {
    var value: TimeRange
    var touchStart: Option<real>
    var touchEnd: Option<real>

    constructor (initial: TimeRange)
      ensures value == initial && touchStart == None && touchEnd == None
    {
      value := initial;
      touchStart := None;
      touchEnd := None;
    }

    /** handleTouchStart: forgets the last end point and records where the touch began (0 without a touch point). */
    method TouchStart(firstTouch: Option<real>)
      modifies this
      ensures touchEnd == None && touchStart == Some(firstTouch.GetOr(0.0))
      ensures value == old(value)
    {
      touchEnd := None;
      touchStart := Some(firstTouch.GetOr(0.0));
    }

    /** handleTouchMove: records the current point, or none without a touch point. */
    method TouchMove(firstTouch: Option<real>)
      modifies this
      ensures touchEnd == firstTouch
      ensures value == old(value) && touchStart == old(touchStart)
    {
      touchEnd := firstTouch;
    }

    /** handleTouchEnd: moves to the swipe's target, if any; the coordinates stay as they are. */
    method TouchEnd()
      modifies this
      ensures value == SwipeTarget(old(value), old(touchStart), old(touchEnd)).GetOr(old(value))
      ensures touchStart == old(touchStart) && touchEnd == old(touchEnd)
    {
      var target := SwipeTarget(value, touchStart, touchEnd);
      if target.Some? {
        value := target.value;
      }
    }

    /** A tap on a marker selects its period. */
    method Select(p: TimeRange)
      modifies this
      ensures value == p
      ensures touchStart == old(touchStart) && touchEnd == old(touchEnd)
    {
      value := p;
    }
  }
}
