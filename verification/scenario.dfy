/** Whole sessions on the driver's screen, composed from the handlers. */
module Scenario {
  import opened Wrappers
  import Quote
  import Decay
  import opened DriverHome

  /** Mount, pick a destination, get a quote of 50, confirm, then cancel and
      accept the dialog: the screen is back at the search with no price, the
      bar rests at 20 and the destination is still set. */
  method RideThenCancel(destination: Coordinate) returns (s: Screen, elapsed: nat)
    ensures fresh(s) && s.Valid()
    ensures s.SearchVisible() && s.OkayVisible() && !s.CancelVisible()
    ensures s.price == None && s.progressWidth == 20 && elapsed == 2300
    ensures s.homeLocation == Some(destination) && s.isHomeSet
  {
    s := new Screen();
    s.SetHome(destination);
    s.Okay(Quote.Ok(Some(Quote.QuoteBody(Some(50)))));
    assert s.ConfirmVisible() && s.price == Some(50);
    s.Confirm();
    assert s.CancelVisible() && !s.SearchVisible();
    Decay.DefaultAndRoundStarts();
    ghost var written;
    elapsed, written := s.CancelRide(true);
  }

  /** A quote request whose call fails still shows CONFIRM, with the fallback
      fare. */
  method FailedQuote(destination: Coordinate) returns (s: Screen)
    ensures fresh(s) && s.Valid()
    ensures s.ConfirmVisible() && !s.OkayVisible()
    ensures s.price == Some(Quote.FallbackPrice)
  {
    s := new Screen();
    s.SetHome(destination);
    s.Okay(Quote.Failed);
  }

  /** A successful response with a `null` body leaves OKAY on screen with
      no price. */
  method NullQuoteBody(destination: Coordinate) returns (s: Screen)
    ensures fresh(s) && s.Valid()
    ensures s.OkayVisible() && !s.ConfirmVisible()
    ensures s.price == None
  {
    s := new Screen();
    s.SetHome(destination);
    s.Okay(Quote.Ok(None));
  }
}
