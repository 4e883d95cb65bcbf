# DriverHome screen model

A Dafny model of the driver's home screen of a ride-hailing client
(`src/pages/DriverHome.jsx`). The screen keeps seven state cells: the chosen
destination (`homeLocation`, `isHomeSet`), whether the destination search is
shown (`showHomeSearch`), the quoted fare (`price`, `isPriceFetched`), whether
the passenger details are shown (`showPassengerDetails`) and the width of the
cancellation progress bar (`progressWidth`, 24 at mount). Its handlers set a
destination, reset it, request a fare (OKAY), confirm the ride (CONFIRM) and
cancel it (CANCEL), which counts the bar down to a multiple of 10 and then
resets the ride part of the screen.

Files:

- `wrappers.dfy` — `Option`, standing for a nullable cell.
- `quote.dfy` — module `Quote`: the fare request `sendLocationToBackend`, with
  the HTTP call reduced to its outcome (`Ok(body)`, `NotOk`, `Failed`) and the
  fallback fare of 50.
- `decay.dfy` — module `Decay`: the self-rescheduling countdown
  `decreaseProgress` as the recursion the source writes (`Writes`: the widths
  it writes; `Duration`: the virtual time until the reset), with lemmas on its
  shape, bounds, end point and timing.
- `driver_home.dfy` — module `DriverHome`: class `Screen` with the seven cells
  as fields, one method per handler, and the render gating as predicates
  (`OkayVisible`, `ConfirmVisible`, `CancelVisible`, `SearchVisible`).
  `CancelRide` runs the countdown as a `while` loop over `progressWidth` and is
  proved to write exactly `Decay.Writes` and to take `Decay.Duration`.
- `scenario.dfy` — module `Scenario`: two whole sessions composed from the
  handlers.

The cells are independent booleans. There is no phase variable, and no
handler checks state before writing: a handler may be called in any state, and
the predicates only say which buttons the screen would render. Reset leaves the
price alone. The cancel reset leaves the destination alone. The bar stays at its
floor after cancelling.

A handler's `modifies` clause names only the cells it writes, so "nothing else
changes" is part of each contract: for example `ResetHome` leaves `price`,
`isPriceFetched` and both section flags as they were, and `Confirm` changes only
the two section flags. Only `CancelRide` may change `progressWidth`, and it
keeps `Valid()` (0 ≤ `progressWidth` ≤ 24).

## Model

| member | source | states |
|---|---|---|
| `Quote.QuoteFor` | src/pages/DriverHome.jsx:8-33 | an ok response yields its body unchanged, possibly `null`; a non-ok response or a thrown error yields the fallback with price 50; anything other than the fallback, a `null` result or a missing price, can only come from an ok response |
| `Decay.NearestMultipleOf10` | src/pages/DriverHome.jsx:93 | the result is a multiple of 10 at most `width` and within 10 of it, and non-negative for a non-negative width |
| `Decay.WritesShape` | src/pages/DriverHome.jsx:91-102 | a countdown from `width` writes exactly `width % 10` widths, the i-th being `width - 1 - i`: one unit per step, strictly decreasing |
| `Decay.WritesBounded` | src/pages/DriverHome.jsx:93-96 | every width written lies between the floor and the starting width: the bar never grows and never drops below the floor |
| `Decay.FinalWidthIsFloor` | src/pages/DriverHome.jsx:91-114 | the bar comes to rest exactly on `10*(width/10)`, and no width is written at all exactly when `width` is already a multiple of 10 |
| `Decay.DurationClosedForm` | src/pages/DriverHome.jsx:99-110 | the reset happens 100 ms per write after the first, plus 2000 ms |
| `Decay.DefaultAndRoundStarts` | src/pages/DriverHome.jsx:91-114 | from 24 the writes are 23, 22, 21, 20, the bar ends at 20 and the reset comes after 2300 ms; from 30 nothing is written and the reset comes after 2000 ms |
| `DriverHome.Screen.constructor` | src/pages/DriverHome.jsx:36-47 | a fresh screen has no destination, the search shown, no price, nothing fetched, no passenger details, and a bar of 24 |
| `DriverHome.Screen.SearchControlsExclusive` | src/pages/DriverHome.jsx:138-173 | OKAY and CONFIRM are never offered together, and one of them is offered exactly when the search section is shown |
| `DriverHome.Screen.SetHome` | src/pages/DriverHome.jsx:61-64 | stores the destination and sets `isHomeSet`; nothing else changes |
| `DriverHome.Screen.ResetHome` | src/pages/DriverHome.jsx:66-69 | clears the destination and `isHomeSet`; price, fetched flag and both section flags are unchanged |
| `DriverHome.Screen.Okay` | src/pages/DriverHome.jsx:71-79 | stores the price of the quote response and marks it fetched, a failed call storing 50; an ok response with a `null` body throws at the price read and changes nothing |
| `DriverHome.Screen.Confirm` | src/pages/DriverHome.jsx:81-85 | shows the passenger details and hides the search; nothing else changes |
| `DriverHome.Screen.ShowHomeSearch` | src/pages/DriverHome.jsx:120-124 | the navigation bar's callback shows the search section and changes nothing else |
| `DriverHome.Screen.SetShowHomeSearch` | src/pages/DriverHome.jsx:154-157 | the setter handed to the search bar writes any value to `showHomeSearch` and nothing else |
| `DriverHome.Screen.CancelRide` | src/pages/DriverHome.jsx:88-116 | declined: every cell unchanged; accepted: the bar is written exactly `Decay.Writes(w)` and rests at `10*(w/10)` (never increasing), the reset after `Decay.Duration(w)` hides the passenger details, shows the search, clears the price and the fetched flag, and keeps the destination; the bar stays within 0..24 |
| `Scenario.RideThenCancel` | src/pages/DriverHome.jsx:61-116 | destination, quote 50, confirm, accepted cancel: the search with OKAY is shown again, no price, bar at 20 after 2300 ms, destination still set |
| `Scenario.FailedQuote` | src/pages/DriverHome.jsx:71-79 | a failed quote call still leads to CONFIRM with the fallback fare 50 |
| `Scenario.NullQuoteBody` | src/pages/DriverHome.jsx:27-28 | an ok response with a `null` body leaves OKAY on screen, with no price |

## Left out

- Markup, styling and the fixed passenger text (name, rating, fare of 250, ETA): presentation only.
- `Navbar`, `GoogleMapComponent`, `SearchBar`, `TripsList` are not part of this model; the search bar's use of the raw `setShowHomeSearch` setter is modelled as an arbitrary boolean write (`SetShowHomeSearch`).
- The `fetch` call, its headers, JSON encoding and `console.error`: the call is reduced to the outcome `Ok(body) | NotOk | Failed`, supplied by the caller. The request's hard-coded destination and the marker position sent as origin play no part in the result, so they are not modelled.
- `Quote.QuoteBody`: the price is an `int`; a JSON number that is not an integer, or a `price` of another JSON type, is not modelled, and an absent `price` (JavaScript `undefined`) is modelled as `None`, the same as `null`.
- Coordinates are an opaque type: they are stored and cleared but never looked into; the current-location text, the marker position and the mount effect that sets them are left out (fixed values and floating-point formatting). The bar's percentage `(progressWidth / 50) * 100` is display arithmetic and left out.
- `window.confirm` is the boolean argument of `CancelRide`.
- Timers: `setTimeout` is replaced by a virtual clock (`elapsed`, `Decay.Duration`), and `CancelRide` runs the whole countdown and the reset as one call. Other events arriving between the steps of a countdown, two countdowns overlapping after two CANCEL clicks, and OKAY's response arriving after other events are not modelled.
- `passengerLocation` and `route` are never written and are left out.
- `src/main.jsx` only mounts the application and is not part of this model.
