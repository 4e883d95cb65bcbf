/** The driver's home screen (`DriverHome`): the state cells its handlers
    write, the handlers themselves, and which controls the screen renders. */
module DriverHome {
  import opened Wrappers
  import Quote
  import Decay

  /** A map position chosen in the search bar. The model never looks inside
      a coordinate; it only stores and clears it. */
  type Coordinate(==)

  /** The width the cancellation progress bar starts at. */
  const InitialProgress: int := 24

  /** The screen's state cells. They are independent: no handler checks any
      of them before writing, and nothing ties one to another. */
  class Screen {
    var homeLocation: Option<Coordinate>
    var isHomeSet: bool
    var showHomeSearch: bool
    var price: Option<int>
    var isPriceFetched: bool
    var showPassengerDetails: bool
    var progressWidth: int

    /** The one property every handler keeps: the bar width stays between 0
        and its starting width. */
    ghost predicate Valid()
      reads this
    {
      0 <= progressWidth <= InitialProgress
    }

    /** The screen as first mounted. */
    constructor ()
      ensures Valid()
      ensures homeLocation == None && !isHomeSet
      ensures showHomeSearch && price == None && !isPriceFetched && !showPassengerDetails
      ensures progressWidth == InitialProgress
    {
      homeLocation := None;
      isHomeSet := false;
      showHomeSearch := true;
      price := None;
      isPriceFetched := false;
      showPassengerDetails := false;
      progressWidth := InitialProgress;
    }

    /** The destination search, with its OKAY / price / CONFIRM controls, is shown. */
    predicate SearchVisible()
      reads this
    {
      showHomeSearch
    }

    /** OKAY is shown until a price has been fetched. */
    predicate OkayVisible()
      reads this
    {
      showHomeSearch && !isPriceFetched
    }

    /** The estimated price and CONFIRM are shown once a price has been fetched. */
    predicate ConfirmVisible()
      reads this
    {
      showHomeSearch && isPriceFetched
    }

    /** The passenger details, CANCEL and the progress bar are shown after confirming. */
    predicate CancelVisible()
      reads this
    {
      showPassengerDetails
    }

    /** Exactly one of OKAY and CONFIRM is offered while the search section
        is shown, and neither when it is hidden. */
    lemma SearchControlsExclusive()
      ensures !(OkayVisible() && ConfirmVisible())
      ensures OkayVisible() || ConfirmVisible() <==> SearchVisible()
    {
    }

    /** A destination chosen in the search bar is stored. */
    method SetHome(location: Coordinate)
      modifies this`homeLocation, this`isHomeSet
      ensures homeLocation == Some(location) && isHomeSet
    {
      homeLocation := Some(location);
      isHomeSet := true;
    }

    /** The navigation bar's reset clears the destination and nothing else:
        a fetched price and both section flags stay as they were. */
    method ResetHome()
      modifies this`homeLocation, this`isHomeSet
      ensures homeLocation == None && !isHomeSet
    {
      homeLocation := None;
      isHomeSet := false;
    }

    /** OKAY: the quote request always resolves, and its price is stored and
        marked fetched, whether the call succeeded or fell back. The one
        exception is a successful response whose body is `null`: reading its
        `price` throws before either cell is written, so nothing changes and
        OKAY stays on screen. */
    method Okay(outcome: Quote.FetchOutcome)
      modifies this`price, this`isPriceFetched
      ensures outcome == Quote.Ok(None) ==>
                price == old(price) && isPriceFetched == old(isPriceFetched)
      ensures outcome != Quote.Ok(None) ==>
                isPriceFetched && price == Quote.QuoteFor(outcome).value.price
      ensures !outcome.Ok? ==> isPriceFetched && price == Some(Quote.FallbackPrice)
    {
      var response := Quote.QuoteFor(outcome);
      if response.Some? {
        price := response.value.price;
        isPriceFetched := true;
      }
    }

    /** CONFIRM: the passenger details replace the search section. */
    method Confirm()
      modifies this`showPassengerDetails, this`showHomeSearch
      ensures showPassengerDetails && !showHomeSearch
    {
      showPassengerDetails := true;
      showHomeSearch := false;
    }

    /** The navigation bar's callback reopens the search section. */
    method ShowHomeSearch()
      modifies this`showHomeSearch
      ensures showHomeSearch
    {
      showHomeSearch := true;
    }

    /** The search bar is handed the raw setter of `showHomeSearch`; what it
        writes is not visible here, so any value may be written. */
    method SetShowHomeSearch(value: bool)
      modifies this`showHomeSearch
      ensures showHomeSearch == value
    {
      showHomeSearch := value;
    }

    /** CANCEL. `userConfirmed` is the answer to the confirmation dialog. When
        declined, nothing changes. When accepted, the bar counts down one unit
        per step to the multiple of 10 at or below it (the widths written are
        `Decay.Writes`), and after the settle delay the passenger details are
        hidden, the search is shown again and the price is cleared. The bar is
        left at its floor and the destination is kept. `elapsed` is the virtual
        time, in milliseconds, from the click to the reset; `written` the widths
        written to the bar, in order. */
    method CancelRide(userConfirmed: bool) returns (elapsed: nat, ghost written: seq<int>)
      requires Valid()
      modifies this`progressWidth, this`showPassengerDetails, this`showHomeSearch,
               this`price, this`isPriceFetched
      ensures Valid()
      ensures !userConfirmed ==>
                elapsed == 0 && written == [] &&
                showHomeSearch == old(showHomeSearch) && price == old(price) &&
                isPriceFetched == old(isPriceFetched) &&
                showPassengerDetails == old(showPassengerDetails) &&
                progressWidth == old(progressWidth)
      ensures userConfirmed ==>
                written == Decay.Writes(old(progressWidth)) &&
                elapsed == Decay.Duration(old(progressWidth)) &&
                progressWidth == Decay.NearestMultipleOf10(old(progressWidth)) &&
                progressWidth <= old(progressWidth) &&
                !showPassengerDetails && showHomeSearch &&
                price == None && !isPriceFetched
    {
      elapsed, written := 0, [];
      if userConfirmed {
        var start := progressWidth;
        var floor := Decay.NearestMultipleOf10(start);
        while progressWidth > floor
          invariant floor <= progressWidth <= start
          invariant Decay.NearestMultipleOf10(progressWidth) == floor
          invariant written + Decay.Writes(progressWidth) == Decay.Writes(start)
          invariant elapsed + Decay.Duration(progressWidth) == Decay.Duration(start)
          modifies this`progressWidth
          decreases progressWidth
        {
          Decay.FloorOfPredecessor(progressWidth);
          written := written + [progressWidth - 1];
          progressWidth := progressWidth - 1;
          if progressWidth > floor {
            elapsed := elapsed + Decay.StepDelay;
          }
        }
        elapsed := elapsed + Decay.SettleDelay;
        showPassengerDetails := false;
        showHomeSearch := true;
        price := None;
        isPriceFetched := false;
      }
    }
  }
}
