# OVBA / OBAB route comparison — a Dafny model

The sketch places four points O, V, B and A on a map. It compares two
visiting orders over them. OVBA is built from the legs O→A, A→V, V→B. OBAB
is built from the legs O→V, V→A, A→B. Each leg is sent to a routing service.
The per-leg answers are split three and three in request order. Each
triple's distances are summed, and its vertex lists are concatenated. The
signed difference `obab − multiplier × ovba` is shown in kilometres.
Dragging a point overwrites that point's slot and starts a new pass. If any
leg fails, the pass is abandoned and the map keeps what it showed before.

Modules:

- `Wrappers`: the `Option` type.
- `Geometry`: coordinate pairs and the `[lng, lat] → [lat, lng]` swap.
- `Legs`: the snapshot `[o, v, b, a]`, the six route pairs, and the tour
  definition they are proved against.
- `Aggregation`: the left-fold distance sums and `.flat()`, the
  kilometre difference, `Promise.all`'s fail-closed behaviour, and one pass
  (`ComputeRoutes`).
- `Sketch`: the point store (a class over a length-4 array), the view state
  (multiplier and what is shown), and the drag and slider handlers.

The routing service is a parameter: a total function from a leg to an
optional answer. `None` stands for a failed request, a non-success status or
an unreadable body, each of which aborts the pass before anything is shown.
An answer is always a complete vertex list with a distance. Coordinates and
distances are `real`.

The code divides every displayed quantity by 1000, the difference included
(src/sketch.js:129). The model follows the code: `Outcome.differenceKm` is
in kilometres, and `Outcome.ovba.distance`/`obab.distance` are in metres.

## Model

| member | source | states |
|---|---|---|
| Sketch.PointStore.constructor | src/sketch.js:1-6 | the store starts with O, V, B, A at their initial coordinates, in slot order 0..3 |
| Sketch.PointStore.Set | src/sketch.js:43-53 | a drag overwrites exactly slot `index`; the other three slots are unchanged and there are still four |
| Sketch.PointStore.Snapshot | src/sketch.js:65 | the snapshot holds exactly the four current slots, in order |
| Legs.FromSlots | src/sketch.js:65 | destructuring `[o, v, b, a]` takes slots 0, 1, 2, 3, and turning the snapshot back into slots gives the store contents |
| Legs.RoutePairs | src/sketch.js:66-75 | the six legs in request order; no contract of its own, specified by `Legs.RoutePairsAreTours` and `Legs.OrderingsChain` |
| Legs.Ovba | src/sketch.js:97 | the first three legs (`slice(0, 3)`); no contract of its own, specified by `Legs.RoutePairsAreTours` and `Legs.OrderingsChain` |
| Legs.Obab | src/sketch.js:98 | the last three legs (`slice(3)`); no contract of its own, specified by `Legs.RoutePairsAreTours` and `Legs.OrderingsChain` |
| Legs.StopsVisitEachSlotOnce | src/sketch.js:66-75 | the tours O-A-V-B and O-V-A-B are each a permutation of the four slots, starting at O and ending at B |
| Legs.Tour | src/sketch.js:66-75 | reference definition: the legs of a tour join consecutive stops, one fewer leg than stops |
| Legs.TourOfFour | src/sketch.js:66-75 | a tour of four stops is exactly the three legs between consecutive stops |
| Legs.TourChained | src/sketch.js:66-75 | in a tour each leg ends where the next leg starts |
| Legs.RoutePairsAreTours | src/sketch.js:66-75 | there are six route pairs, three per ordering. The first three are the legs of tour O-A-V-B and the last three are the legs of tour O-V-A-B |
| Legs.OrderingsChain | src/sketch.js:66-75 | each ordering's legs chain; both start at O and end at B; every point is an endpoint of some leg in each ordering |
| Legs.RequestPoints | src/sketch.js:83-85 | the request lists both endpoints latitude first, which is the display swap applied to [start, end] |
| Legs.RequestDeterminesLeg | src/sketch.js:83-85 | two legs with the same request are the same leg |
| Geometry.SwapAll | src/sketch.js:107 | the display transform keeps the length and swaps the two components of every vertex in place |
| Geometry.Swap | src/sketch.js:107 | exchanges the two components of one vertex; no contract of its own, specified by `Geometry.SwapInvolutive` |
| Geometry.SwapInvolutive | src/sketch.js:122 | swapping one vertex twice gives it back |
| Geometry.SwapAllInvolutive | src/sketch.js:122 | swapping a whole route twice gives the route back |
| Geometry.SwapAllAppend | src/sketch.js:107 | swapping a concatenated route is concatenating the swapped leg routes |
| Aggregation.ReduceIsTotal | src/sketch.js:97-98 | the `reduce` left fold from `acc` equals `acc` plus the sum of the distances |
| Aggregation.Reduce | src/sketch.js:97-98 | the left fold of the distances; no contract of its own, specified by `Aggregation.ReduceIsTotal` |
| Aggregation.TotalOfTriple | src/sketch.js:97-98 | the sum of a triple's distances is d0 + d1 + d2 |
| Aggregation.TotalBoundsEachLeg | src/sketch.js:97-98 | with no negative leg, the total is non-negative and at least every leg |
| Aggregation.Coordinates | src/sketch.js:101-102 | `map(r => r.coordinates)` keeps one vertex list per answer, in order |
| Aggregation.Flat | src/sketch.js:101-102 | the vertex lists one after the other; no contract of its own, specified by `Aggregation.FlatLength`, `Aggregation.FlatAt` and `Aggregation.FlatOfTriple` |
| Aggregation.FlatLength | src/sketch.js:101-102 | the flattened route's length is the sum of the leg lengths, so nothing is removed at the joins |
| Aggregation.FlatAt | src/sketch.js:101-102 | vertex j of leg k sits in the flattened route at offset (lengths of legs before k) + j |
| Aggregation.FlatOfTriple | src/sketch.js:101-102 | flattening three vertex lists concatenates them in order |
| Aggregation.DifferenceKm | src/sketch.js:129 | the difference times 1000 is `obab − multiplier × ovba`. It is zero, positive or negative exactly when obab equals, exceeds or falls short of `multiplier × ovba` |
| Aggregation.DifferenceExamples | src/sketch.js:129 | distances 1000/1200 give +0.2 km with multiplier 1 and −0.8 km with multiplier 2 |
| Aggregation.AllOk | src/sketch.js:82-94 | all answers are returned, in request order, exactly when every leg succeeded; otherwise nothing is returned |
| Aggregation.FetchAll | src/sketch.js:82-85 | one routing answer per leg, in leg order; no contract of its own, specified through `Aggregation.AllOk` and `Aggregation.ComputeRoutes` |
| Aggregation.Path | src/sketch.js:97-102 | one ordering's distance is its three legs' sum, bounding each non-negative leg; its route is the three vertex lists concatenated, lengths adding up |
| Aggregation.Aggregate | src/sketch.js:96-129 | results 0..2 make OVBA and 3..5 make OBAB (sums and concatenations); the differential is the signed km difference of those two sums |
| Aggregation.ComputeRoutes | src/sketch.js:62-143 | a pass yields nothing exactly when one of its six legs fails |
| Aggregation.PassAnswers | src/sketch.js:82-102 | a successful pass aggregates exactly one answer per route pair, in request order |
| Aggregation.ComputeRoutesPaths | src/sketch.js:65-129 | a successful pass makes OVBA from the answers for O-A, A-V, V-B and OBAB from those for O-V, V-A, A-B (summed, concatenated), with the signed km difference |
| Aggregation.PassDependsOnlyOnItsLegs | src/sketch.js:82-94 | two routing services that agree on the six legs of a snapshot give the same pass result |
| Aggregation.DistanceExample | src/sketch.js:97 | legs of 500, 700 and 300 m give 1500 m |
| Aggregation.GeometryExample | src/sketch.js:101 | legs (0,0)-(1,1), (1,1)-(2,2), (2,2)-(3,3) join as (0,0),(1,1),(1,1),(2,2),(2,2),(3,3) |
| Sketch.Render | src/sketch.js:105-129 | the polylines get the routes as (lat, lng), which swap back to the routes; the labels get the distances and difference in km |
| Sketch.Shows | src/sketch.js:105-142 | a failed pass leaves the display unchanged. After a successful pass, both lines swap back to the new routes, the two labels are the distances in km, and the difference label is the pass's km difference |
| Sketch.FailedLegKeepsDisplay | src/sketch.js:82-94 | one failed leg means the pass produces nothing and the shown state is kept |
| Sketch.RouteView.constructor | src/sketch.js:9-18 | the multiplier starts at 1 and nothing is shown before the first successful pass |
| Sketch.RouteView.UpdateRoutes | src/sketch.js:62-143 | the display becomes the rendering of the pass on the current snapshot, or stays as it was if the pass fails |
| Sketch.RouteView.SetMultiplier | src/sketch.js:155-159 | the slider sets the multiplier, then recomputes with it |
| Sketch.OnDrag | src/sketch.js:43-53 | a drag overwrites only the dragged slot, keeps the multiplier, and then shows the pass over the new snapshot (or keeps the old display) |

## Left out

- Map, tile layer, markers, icons, popups and tooltips (src/sketch.js:20-40, 105-124, 137-138): calls into the Leaflet library. Only the lat/lng lists handed to the polylines are modelled (`Shown`).
- The creation-versus-update branch for the polylines (src/sketch.js:105-124): both branches give the lines the same lists, so the model has one update.
- `toFixed(2)` rounding, the leading "+" and the label text (src/sketch.js:127-134): string formatting. The model keeps the exact kilometre values.
- The slider's `parseFloat` and its label (src/sketch.js:156-157): text parsing. `SetMultiplier` takes the parsed number.
- `fetch`, the query URL's number-to-text conversion, `response.ok` and reading the JSON body (src/sketch.js:83-93): network I/O. The routing service is a parameter returning an optional answer. Only the order of the endpoints' components is modelled (`RequestPoints`).
- Answers the routing service gives with a body that lacks a field: the model's answer always has both a vertex list and a distance, and `None` stands only for a failure that aborts the pass before anything is displayed (a non-success status, a failed request or an unreadable body, src/sketch.js:83-89). The sketch has other outcomes that the model does not reach. A body without a distance is not an abort: the sums and labels become not-a-number (src/sketch.js:92, 97-98). A body without coordinates on an OBAB leg throws only while the lines are drawn. By then the OVBA line has already been updated (src/sketch.js:122-123), or on the first pass added to the map (src/sketch.js:107-111), so the display is left half updated.
- The concurrency of `Promise.all` and the race between overlapping un-awaited passes started by a drag or by the slider (src/sketch.js:52, 82, 158). A pass reads the points once, before waiting for the routing service (src/sketch.js:65), but reads the multiplier only after the wait (src/sketch.js:129). So when passes overlap, a pass can combine an older snapshot with a newer multiplier. `ComputeRoutes` takes both at the start of the call and does not capture this. One pass is one sequential computation over a fixed snapshot. Within a call, the routing service is a fixed function, so answers cannot interleave from two snapshots.
- The `await` of the `dragend` handler versus the `drag` handler (src/sketch.js:43-53): it only matters for concurrency, so one `OnDrag` models both.
- `updatePolyline` (src/sketch.js:145-148) refers to an undefined variable and is never called. `draw` (src/sketch.js:150-152) is empty.
- IEEE double arithmetic in the sums and the difference: distances are exact `real`s.
- The console log in the `catch` (src/sketch.js:141): output only.
