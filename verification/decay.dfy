/** The cancellation wind-down (`decreaseProgress` inside `handleCancelRide`),
    stated as the recursion the source writes: each call may write one lower
    width, then either reschedules itself after 100 ms or, at the boundary,
    schedules the reset after 2000 ms. */
module Decay {

  /** The wait before each rescheduled step, in milliseconds. */
  const StepDelay: nat := 100

  /** The wait between the last step and the screen reset, in milliseconds. */
  const SettleDelay: nat := 2000

  /** `Math.floor(width / 10) * 10`: the largest multiple of 10 not above
      `width`. Dafny's `/` by a positive divisor rounds down, as `Math.floor` does. */
  function NearestMultipleOf10(width: int): (f: int)
    ensures f <= width < f + 10
    ensures f % 10 == 0
    ensures width >= 0 ==> f >= 0
  {
    (width / 10) * 10
  }

  /** Decrementing a width that stays above its floor keeps the same floor. */
  lemma FloorOfPredecessor(width: int)
    requires width > NearestMultipleOf10(width)
    ensures NearestMultipleOf10(width - 1) == NearestMultipleOf10(width)
    ensures (width - 1) % 10 == width % 10 - 1
  {
  }

  /** The widths passed to `setProgressWidth`, in order, by the run that
      starts with `decreaseProgress(width)`. */
  function Writes(width: int): (ws: seq<int>)
    decreases width % 10
  {
    var floor := NearestMultipleOf10(width);
    if width <= floor then []
    else if width == floor + 1 then [width - 1]
    else
      FloorOfPredecessor(width);
      [width - 1] + Writes(width - 1)
  }

  /** Milliseconds from the first call of `decreaseProgress(width)` to the
      reset of the screen: one step delay per rescheduled call, then the settle delay. */
  function Duration(width: int): (t: nat)
    decreases width % 10
  {
    var floor := NearestMultipleOf10(width);
    if width > floor + 1 then
      FloorOfPredecessor(width);
      StepDelay + Duration(width - 1)
    else SettleDelay
  }

  /** The width the bar shows once the run has made all its writes. */
  function FinalWidth(width: int): (f: int)
  {
    var ws := Writes(width);
    if ws == [] then width else ws[|ws| - 1]
  }

  /** A run makes exactly `width % 10` writes, each one below the previous
      shown width: the i-th write is `width - 1 - i`. */
  lemma {:induction false} WritesShape(width: int)
    ensures |Writes(width)| == width % 10
    ensures forall i :: 0 <= i < |Writes(width)| ==> Writes(width)[i] == width - 1 - i
    decreases width % 10
  {
    var floor := NearestMultipleOf10(width);
    if width > floor + 1 {
      FloorOfPredecessor(width);
      WritesShape(width - 1);
      assert Writes(width) == [width - 1] + Writes(width - 1);
    }
  }

  /** Every width written lies between the floor and the starting width, so
      the bar never grows and never goes below the floor. */
  lemma WritesBounded(width: int)
    ensures forall w :: w in Writes(width) ==> NearestMultipleOf10(width) <= w < width
  {
    WritesShape(width);
    forall w | w in Writes(width)
      ensures NearestMultipleOf10(width) <= w < width
    {
      var i :| 0 <= i < |Writes(width)| && Writes(width)[i] == w;
    }
  }

  /** The bar comes to rest exactly on the floor, whether or not any write
      happened (no write at all when `width` is already a multiple of 10). */
  lemma FinalWidthIsFloor(width: int)
    ensures FinalWidth(width) == NearestMultipleOf10(width)
    ensures Writes(width) == [] <==> width % 10 == 0
  {
    WritesShape(width);
  }

  /** The run lasts 100 ms for every write after the first, then 2000 ms. */
  lemma {:induction false} DurationClosedForm(width: int)
    ensures Duration(width) == SettleDelay + StepDelay * (if width % 10 == 0 then 0 else width % 10 - 1)
    decreases width % 10
  {
    var floor := NearestMultipleOf10(width);
    if width > floor + 1 {
      FloorOfPredecessor(width);
      DurationClosedForm(width - 1);
    }
  }

  /** The default bar (24) ends at 20 after four writes and 2300 ms; a bar at
      30 makes no write and resets after 2000 ms. */
  lemma DefaultAndRoundStarts()
    ensures Writes(24) == [23, 22, 21, 20] && Duration(24) == 2300 && FinalWidth(24) == 20
    ensures Writes(30) == [] && Duration(30) == 2000 && FinalWidth(30) == 30
  {
    WritesShape(24);
    DurationClosedForm(24);
    FinalWidthIsFloor(24);
    FinalWidthIsFloor(30);
    DurationClosedForm(30);
  }
}
