# Dartboard hit classifier and counter

This project models the `Dartboard` object in `Dartboard/lib/dartboard.js` and proves properties of the model. The object:

- draws a dartboard on a square canvas;
- turns each click into a distance from the centre, in millimetres;
- classifies that distance into one of eight zones (BULLSEYE, SINGLEBULL, INNERSINGLE, TRIPLE, OUTERSINGLE, DOUBLE, MISSEDSCORES, MISSEDBOARD);
- keeps one hit counter per zone;
- passes the counters to an observer callback after every counted hit.

A click off the board restarts the session: all counters go back to zero and the board is redrawn.

The project has three modules:

- `Zones` (`zones.dfy`) holds the fixed board geometry and `Classify`, the chain of strict `<` tests. Beside it is an independent reference definition, `InZone`, which describes each zone as a half-open interval of distances. It also proves monotonicity, where boundary distances land, and the surface size and centre.
- `Counters` (`counters.dfy`) holds the counter tables, as maps from zone to count. `Tally` is the update one classified hit makes, including the reset on a miss. `Replay` and `Trace` run a whole sequence of hits: `Replay` gives the final counters and `Trace` the snapshots the observer receives.
- `Board` (`board.dfy`) is the `Dartboard` class itself. It has the two stage flags (`initCalled`, `boardDrawn`), the surface size and centre, and the counter map. Its methods update these fields in place, as the JavaScript methods do. Two ghost logs record what the object asks of the outside world:
  - `renderRequests` lists the requests made to the drawing surface;
  - `notifications` lists the counter tables handed to the callback.

  `HitAll` delivers a run of clicks to the object in order, as the click listener does. It proves that the object's counters and notification history then match `Replay` and `Trace`, for any run of clicks.

The class invariant `Valid()` says four things:
- the geometry's radii increase strictly outwards and its magnification is positive;
- the stages advance in order (drawn implies initialised);
- once initialised, the surface is `2 * increaseFactor * distBoardEdge` wide and high, and the centre is its rounded midpoint;
- once initialised, all eight counters exist.

The model uses exact reals for distances and radii where JavaScript uses doubles (see Left out). Counters are unbounded naturals.

## Model

| member | source | states |
|---|---|---|
| `Zones.DefaultGeometryOrdered` | Dartboard/lib/dartboard.js:30-76 | The built-in radii 7 < 17 < 96 < 107 < 160 < 169 < 224 are strictly increasing and the magnification 2 is positive. |
| `Zones.Classify` | Dartboard/lib/dartboard.js:311-326 | The chain of strict `<` tests, innermost radius first. On an ordered board the zone it returns is one whose half-open interval holds the distance. |
| `Zones.ClassifyIsInterval` | Dartboard/lib/dartboard.js:311-326 | On an ordered board the if/else-if chain yields zone z exactly when the distance lies in z's half-open interval [inner radius, outer radius). This holds in both directions, so every distance has exactly one zone. |
| `Zones.ClassifyMonotone` | Dartboard/lib/dartboard.js:311-326 | For any radii, a larger distance never yields a zone nearer the centre. |
| `Zones.BoundaryGoesOutward` | Dartboard/lib/dartboard.js:311-324 | A distance exactly on a zone's outer radius lands in the very next zone outwards, because every test is a strict `<`. |
| `Zones.DefaultClassification` | Dartboard/lib/dartboard.js:311-326 | On the standard board: 5 goes to BULLSEYE, 7 to SINGLEBULL, 50 to INNERSINGLE, 96 and 100 to TRIPLE, 150 to OUTERSINGLE, 165 to DOUBLE, 200 to MISSEDSCORES, and 224 and 230 to MISSEDBOARD. |
| `Zones.BoardDistance` | Dartboard/lib/dartboard.js:294-299 | The rounded pixel distance divided by the magnification gives a non-negative millimetre distance that scales back to the pixel distance. |
| `Zones.BoardDistances` | Dartboard/lib/dartboard.js:294-299 | A run of clicks becomes the millimetre distances of their rounded pixel distances, one per click and in the same order. |
| `Zones.BoardDistanceBelow` | Dartboard/lib/dartboard.js:294-299 | Comparing the millimetre distance with a radius gives the same answer as comparing the pixel distance with the magnified radius. |
| `Zones.RoundHalfUp` | Dartboard/lib/dartboard.js:140-143 | `Math.round` yields the integer n with n <= x + 1/2 < n + 1, so halves round upwards. |
| `Zones.SurfaceSide` | Dartboard/lib/dartboard.js:137 | The surface side is twice the magnified board-edge radius and is positive on an ordered board. |
| `Zones.CenterCoordinate` | Dartboard/lib/dartboard.js:140-143 | Each centre coordinate is the half side, rounded to the nearest integer with halves rounded up. |
| `Zones.DefaultSurface` | Dartboard/lib/dartboard.js:137-143 | On the standard board the surface is 896 by 896 and the centre is (448, 448). |
| `Counters.DefaultHitAmounts` | Dartboard/lib/dartboard.js:113-122 | The default table has a counter for each of the eight zones, and every counter is 0. |
| `Counters.Tally` | Dartboard/lib/dartboard.js:310-328 | One counted hit keeps all eight counters present. |
| `Counters.TallyOnBoard` | Dartboard/lib/dartboard.js:311-324 | A hit in any zone other than MISSEDBOARD raises exactly that zone's counter by one. The other seven counters are unchanged and the total grows by exactly one. |
| `Counters.TallyOffBoard` | Dartboard/lib/dartboard.js:325-327 | A MISSEDBOARD hit leaves every counter at zero, MISSEDBOARD's own included, because its increment is wiped by the reset. |
| `Counters.Replay` | Dartboard/lib/dartboard.js:310-330 | Feeding a sequence of hits to the counters, one at a time, keeps all eight counters present. |
| `Counters.Trace` | Dartboard/lib/dartboard.js:329-339 | The observer receives exactly one complete counter table per counted hit. |
| `Counters.TraceStep` | Dartboard/lib/dartboard.js:326-337 | Each table the observer receives is the previous one (or the starting counters) updated by exactly one hit. Any reset has already happened when the observer is called. |
| `Counters.TraceEndsInReplay` | Dartboard/lib/dartboard.js:329-337 | The last table the observer receives equals the final state of the counters. |
| `Counters.ReplayIsHistogram` | Dartboard/lib/dartboard.js:311-324 | Without a miss, each counter ends at its start value plus the number of hits in its zone (the histogram of the hits), and the total grows by the number of hits. |
| `Counters.ReplayRestartsAfterMiss` | Dartboard/lib/dartboard.js:325-327 | After a MISSEDBOARD hit, the final counters depend only on the hits after the miss, counted from zero. |
| `Counters.DefaultSequence` | Dartboard/lib/dartboard.js:310-330 | On the standard board, distances 5, 5, 50, 230, 5 end with BULLSEYE = 1 and every other counter 0. |
| `Board.Dartboard.constructor` | Dartboard/lib/dartboard.js:1-127 | A new board uses the standard geometry. Both flags are false, the size is 0, the centre is empty, the counter map is empty, and nothing has been drawn or notified. |
| `Board.Dartboard.Init` | Dartboard/lib/dartboard.js:132-158 | Sets `initCalled`. Sets width and height to `2 * increaseFactor * distBoardEdge` and the centre to the rounded half width. Resets the counters to the all-zero table. Leaves the drawn flag as it was. |
| `Board.Dartboard.Draw` | Dartboard/lib/dartboard.js:175-183 | Before `init` it changes nothing and reports failure. After `init` it requests a board drawing and sets `boardDrawn`. |
| `Board.Dartboard.Hit` | Dartboard/lib/dartboard.js:270-303 | Before the board is drawn it changes nothing and notifies nobody. Otherwise it requests a hit marker and counts the hit at pixel distance / `increaseFactor`. |
| `Board.Dartboard.GetArea` | Dartboard/lib/dartboard.js:310-330 | The counters become `Tally` of the old counters and the classified zone. On a miss, the surface is cleared and redrawn and `boardDrawn` ends true. The observer is notified exactly once, with the counters as they stand after any reset. |
| `Board.Dartboard.Notify` | Dartboard/lib/dartboard.js:335-339 | If a callback was given, the current counters are appended to the notification history. Otherwise nothing happens. |
| `Board.Dartboard.Reset` | Dartboard/lib/dartboard.js:344-353 | Requests a clear and then a redraw, zeroes all counters, and leaves the board drawn. |
| `Board.Dartboard.ResetHitAmounts` | Dartboard/lib/dartboard.js:358-360 | The counters become the fresh all-zero table, whatever they were before, so resetting twice gives the same result as resetting once. |
| `Board.Requests` | Dartboard/lib/dartboard.js:276-352 | A run of hits asks the drawing surface for a marker per hit, followed by a wipe and a redraw after each hit off the board. So it makes between one and three requests per hit. |
| `Board.HitAll` | Dartboard/lib/dartboard.js:270-339 | Any sequence of clicks delivered in order to a drawn board leaves the counters equal to `Replay` of the hits from the starting counters. With a callback, the notification history grows by exactly `Trace` of the hits, one snapshot per click; without one it stays as it was. The render requests grow by `Requests` of the hits, and the board stays initialised and drawn. |
| `Board.LifeCycle` | Dartboard/lib/dartboard.js:132-360 | A draw and a hit before `init` are refused. After `init` the surface is 896 with centre (448, 448). Clicks at 10, 10, 100, 460 and 10 pixels leave BULLSEYE = 1 and everything else 0. The snapshots the observer received are exactly `Trace` of those distances. |

## Left out

- Canvas rendering is not modelled. This covers the rings and sector lines (`drawCircles`, `drawLines`), the hit marker arc and `clearRect`. Each is recorded only as a `RenderRequest` in the ghost log `renderRequests`.
- DOM plumbing is not modelled: `sizeElements`, `getContext`, `addEventListener` and the `alert` text in `draw`. The alert becomes `Draw`'s false result with no state change. Because listeners are not modelled, the model also misses one effect of calling `init` twice: it registers a second click listener, so each click would then be counted twice.
- `Board.Dartboard.Hit` takes the click's distance from the centre already rounded to whole pixels. The floating-point `Math.round(Math.sqrt(...))` over the click coordinates is left out, and only the division by `increaseFactor` is modelled.
- The callback's own behaviour is not modelled. Neither is the aliasing of the live `hitAmounts` object passed to it: the model records a snapshot of the table instead.
- The `JSON.parse(JSON.stringify(...))` clone is modelled as a fresh all-zero table.
- `Board.Dartboard.GetArea` and `Board.Dartboard.Reset` require `init` to have run. `hit` only calls them after the board is drawn. If the JavaScript calls them directly before `init`, the counters become NaN, or `reset` throws on the missing canvas. The model does not represent either outcome.
- The radii, `increaseFactor` and the callback are fields of the JavaScript object and could in principle be reassigned from outside. `notify` re-tests whether the callback is a function on every call. The model treats all of them as constants fixed at construction: the radii and `increaseFactor` as `geometry`, and the callback as `hasCallback`, which records whether a callback was supplied.
- JavaScript numbers are doubles. The model uses exact reals for distances and radii and unbounded naturals for the counters.
- `RatchetWebSocket/RatchetWebSocketServer.php` and `RatchetWebSocket/client/client.js` are not part of this model. They are network stubs with empty callbacks.
