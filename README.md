# office-marathon: geofence and speed extrema, modelled in Dafny

The app records a GPS track while the user runs a loop course. Two pieces of
its logic are modelled and proved here.

- **Geofence construction and membership** (`src/services/location/track.ts`,
  module `Track` in `track.dfy`). `createGeoFence` turns a metre radius into
  degrees with the fixed factor 0.0001 degrees per 11.1 m. `isLocationInGeofence`
  tests latitude and longitude separately against the open interval
  `center ± radius`, using the strict helper `between`. The record is called
  `CircleGeofence`, but the test is an axis-aligned square. The model states
  this square (Chebyshev-distance) semantics as the code has it. It also proves
  that the inscribed circle lies inside the square and, for the fence built
  from 11.1 m, that the square reaches past the circle near its corners.
- **Speed extrema** (`src/screens/mapReview.tsx`, module `MapReview` in
  `map_review.dfy`). `getMaxSpeed` and `getMinSpeed` scan the location list
  with an index loop. Each keeps an accumulator that starts at
  `Number.MIN_SAFE_INTEGER` or `Number.MAX_SAFE_INTEGER` and skips every entry
  whose `speed` is falsy. In this model, falsy means absent or exactly `0`. The
  loops are methods. They are proved equal to folds over list prefixes
  (`MaxSpeedOf`, `MinSpeedOf`), and the folds are proved to be the extrema of
  the sentinel together with the truthy speeds.

`wrappers.dfy` holds the `Option` type, which models nullable sensor fields.
`expo_location.dfy` (module `ExpoLocation`) holds the fix records that the
expo-location library delivers (`LocationObject` and its `coords`); both
`Track` and `MapReview` import it, as both source files take `LocationObject`
from that library.

Numbers are Dafny `real`s. Coordinates, radii and speeds are exact, and the
two sentinels are the real constants ±9007199254740991. The track is a `seq`.
The source only reads the array, so the methods cannot change it.

Behaviour a reader may not expect, modelled as the code has it:
- With no usable speed, the app returns the sentinel numbers, not a "no data"
  value.
- A speed of exactly `0` is skipped just like a missing speed, because `if (speed)`
  is false for `0`.
- The fence centre is inside only when the degree radius is strictly positive.
- Membership is a square test, not a distance test.

## Model

| member | source | states |
|---|---|---|
| Track.BetweenIsOpen | src/services/location/track.ts:65-67 | `between` excludes both endpoints, and holds only when the interval is non-empty (min < max) |
| Track.CreateGeoFence | src/services/location/track.ts:69-75 | the fence keeps the given centre unchanged; converting its degree radius back at 11.1 m per 0.0001 degrees gives the metre radius again |
| Track.CreateGeoFenceCalibration | src/services/location/track.ts:57-70 | 11.1 m becomes 0.0001 degrees and 0 m becomes 0 degrees |
| Track.CreateGeoFenceStrictlyMonotone | src/services/location/track.ts:70 | a larger metre radius gives a strictly larger degree radius, and conversely |
| Track.IsLocationInGeofence | src/services/location/track.ts:77-94 | a location is inside exactly when its Chebyshev distance from the centre (the larger of the latitude and longitude offsets) is strictly below the radius |
| Track.CentreInsideIffPositiveRadius | src/services/location/track.ts:87-89 | a location at the fence centre is inside exactly when the radius is positive |
| Track.NonPositiveRadiusIsEmpty | src/services/location/track.ts:87-89 | a fence with radius <= 0 contains no location |
| Track.InsideMonotoneInRadius | src/services/location/track.ts:87-89 | a location inside a fence stays inside any fence with the same centre and a radius at least as large |
| Track.EdgeIsOutside | src/services/location/track.ts:87-89 | a location whose latitude or longitude lies exactly on centre ± radius is outside |
| Track.OnlyCoordinatesMatter | src/services/location/track.ts:87-89 | two fixes with the same latitude and longitude get the same answer, whatever their speed and timestamp |
| Track.InsideCreatedFenceInMetres | src/services/location/track.ts:69-94 | for a fence built from a metre radius, being inside means both offsets, converted to metres, are strictly below that radius |
| Track.CircleInsideBox | src/services/location/track.ts:59-63 | with a positive radius, every location whose Euclidean offset is below the radius is inside |
| Track.BoxExceedsCircle | src/services/location/track.ts:59-63 | the 11.1 m fence around any centre contains a corner location whose Euclidean offset exceeds the radius, so the "circle" is really a square |
| Track.StartPointScenario | src/services/location/track.ts:69-94 | a 10 m fence around (30.1325735, -97.6408249) contains that point and not a point 200 m north of it |
| MapReview.MaxSpeedOf | src/screens/mapReview.tsx:59-71 | the max accumulator after a list is >= the sentinel and >= every truthy speed, and it is either the sentinel or one of the truthy speeds |
| MapReview.MinSpeedOf | src/screens/mapReview.tsx:73-85 | the min accumulator after a list is <= the sentinel and <= every truthy speed, and it is either the sentinel or one of the truthy speeds |
| MapReview.GetMaxSpeed | src/screens/mapReview.tsx:59-71 | the index loop returns MaxSpeedOf of the whole list; its invariant says that after i steps the accumulator is MaxSpeedOf of the first i entries |
| MapReview.GetMinSpeed | src/screens/mapReview.tsx:73-85 | the index loop returns MinSpeedOf of the whole list; its invariant says that after i steps the accumulator is MinSpeedOf of the first i entries |
| MapReview.NoDataGivesSentinels | src/screens/mapReview.tsx:59-85 | an empty list, or one with no truthy speed, yields MIN_SAFE_INTEGER as the maximum and MAX_SAFE_INTEGER as the minimum |
| MapReview.MaxSpeedIsRecorded | src/screens/mapReview.tsx:65-67 | if some truthy speed exceeds the sentinel, the maximum exceeds the sentinel and equals the speed of a recorded entry |
| MapReview.MinSpeedIsRecorded | src/screens/mapReview.tsx:79-81 | if some truthy speed is below the sentinel, the minimum is below the sentinel and equals the speed of a recorded entry |
| MapReview.ExtremaDependOnlyOnTruthySpeeds | src/screens/mapReview.tsx:59-85 | two lists with the same set of truthy speeds have the same maximum and the same minimum |
| MapReview.ExtremaIndependentOfOrder | src/screens/mapReview.tsx:59-85 | any permutation of the list gives the same maximum and minimum |
| MapReview.SkippedEntryIsInvisible | src/screens/mapReview.tsx:62-69 | inserting an entry whose speed is absent or 0 anywhere in the list changes neither result |
| MapReview.ThreeFixExample | src/screens/mapReview.tsx:59-85 | speeds 2.0, absent and 5.0 give a maximum of 5.0 and a minimum of 2.0 |

## Left out

- `isTracking`, `startTracking`, `stopTracking` (track.ts:16-48): thin wrappers over the expo-location platform API.
- The background task registered with `TaskManager.defineTask` (track.ts:100-116): asynchronous I/O into a storage module (`addLocation`), and that module is not part of this model.
- `console.log` / `console.debug` calls: output only.
- The `haversine(...)` distance in `MapReviewScreen` (mapReview.tsx:27): a foreign library doing floating-point trigonometry.
- All React components and map rendering (`MapReviewScreen`, `LiveTrackingScreen`, `DistanceScreen`, `NavigationProvider`), including the `slimLocations` projection: presentation only.
- `predictUserDirection` (called in src/screens/liveTracking.tsx): its definition is not part of this model. No heading, destination-point, direction-consistency or finish-line logic is modelled, because none is defined in the modelled files.
- IEEE-754 behaviour: rounding of `0.0001 / 11.1`, of `center ± radius` and of comparisons, and the falsiness of `NaN` speeds. All quantities are exact reals.
- Fields of expo's `LocationObject` that the core never reads (altitude, accuracy, heading, and so on) are not in `Coords`.
- Track.BoxExceedsCircle: proved only for the fence built from 11.1 m, not for every positive radius, because the general statement needs nonlinear real arithmetic that the solver does not settle.
