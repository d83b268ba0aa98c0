# brians-playground core, modelled in Dafny

This project models the logic behind three parts of the playground site.

- **Globe explorer.**
  - `coordinates.ts` turns a latitude and longitude into a point on a sphere. It also gives the camera distance and the opacity a city label should have at that distance.
  - `CityMarkers.tsx` builds one marker per catalog city. A per-frame pass caches each label's opacity and marks each marker as clickable or not. A click either hands a near city to the popup or flashes a far one.
  - `Globe.tsx` turns auto-rotation on after more than ten seconds without a mouse press, touch or wheel event.
  - `sunPosition.ts` computes an approximate sun position 50 units from the origin, meant for day/night lighting. No caller in the source uses it yet: `Globe.tsx` lights the scene with a fixed ambient light and fixed directional lights.
- **Rat Catcher** (`RatCatcher.tsx`). The cat follows the mouse or finger. A rat enters from beyond an edge and settles at a random spot. Touching it scores exactly one point, and a new rat follows.
- **Navigation store** (`store/navigation.ts`). It holds the current page and the mobile-menu flag.

How the model is built:

- The pure helpers are Dafny functions, and their properties are lemmas.
- Each stateful component becomes a `class` whose fields are the component's refs and state variables: the marker layer, the idle controller, the game and the store.
  - Each method's `ensures` ties the new state to a pure step function of the old state.
  - The lemmas are proved about those step functions.
- The marker layer's per-frame pass is a `while` loop. Its invariants tie the caches to two folds over the cities already visited.
- `FrameTracksOpacity` and `FrameClassifies` require `NamesDistinct`: no two catalog cities share a name. The source needs this too. The React keys (`CityMarkers.tsx:83`), the opacity cache (`:65`) and the mesh registry (`:73`) are all keyed by `city.name`. With a repeated name, the later city's step overwrites the earlier one's entry, so the earlier city's cached opacity and cursor need not fit its own distance, and both properties fail.

Numeric conventions:

- Numbers are `real`, so IEEE rounding is not modelled.
- JavaScript's `Math.sin`, `cos`, `asin`, `sqrt` and `Math.PI` are fields of a `Math` record that every computation receives as a parameter.
- A lemma that needs an identity of those functions names it in its `requires`, as one of these predicates:
  - `Pythagorean`: sin² + cos² = 1;
  - `Periodic`: a period of 2π;
  - `ZeroAngle`: the values at 0;
  - `CosOfAsinNonNegative`: the range of asin on its domain [-1, 1];
  - `SqrtSpec`: the square root.
- JavaScript's `%` becomes `Numerics.FMod`, the truncated remainder. Its result has the sign of the dividend.
- `Math.floor` of a quotient by a positive integer is Dafny's integer division, which rounds down.
- `Math.random()` draws are parameters, given in the order the source makes them.
- DOM lookups that can fail become `Option` values.

Three behaviours of the source worth knowing:

- **The noon sun.** At 12:00 UTC the sun's `z` is `50·cos δ`, which is never negative (`SunPosition.NoonSun`).
- **Cached opacities.** The frame pass reads a cached opacity with `|| 1`. So a stored 0 reads as 1, just as a missing entry does (`CityMarkers.CachedOpacity`). Opacities never fall below 0.2, so no stored 0 ever arises.
- **The rat's resting place.** It keeps 60 from every edge only when the area is at least 120 wide and high. In an area exactly 120 wide or high it rests on the padded border of that axis, 60 from both edges. For a smaller area the source keeps no such margin, and neither does the model.

## Model

| member | source | states |
|---|---|---|
| Coordinates.ClampLatitude | src/pages/GlobeExplorer/utils/coordinates.ts:8 | the result lies in [-89.99, 89.99]; a latitude in that range is unchanged; anything above or below saturates at the matching bound |
| Coordinates.ClampIdempotent | src/pages/GlobeExplorer/utils/coordinates.ts:8 | clamping a clamped latitude changes nothing |
| Coordinates.PolarDegrees | src/pages/GlobeExplorer/utils/coordinates.ts:8-9 | the polar angle never reaches a pole: it stays in [0.01, 179.99], and is 90 − lat for an unclamped latitude |
| Coordinates.LatLngToVector3 | src/pages/GlobeExplorer/utils/coordinates.ts:7-17 | when sin² + cos² = 1, every converted point lies on the sphere of the given radius, poles and out-of-range latitudes included |
| Coordinates.LatitudeClamped | src/pages/GlobeExplorer/utils/coordinates.ts:8 | a latitude is converted as its clamped value; every latitude at or beyond ±89.99 gives the point of the bound itself |
| Coordinates.PointOnSphere | src/pages/GlobeExplorer/utils/coordinates.ts:12-14 | when sin² + cos² = 1, the three components for any polar angle and azimuth have squared length radius² |
| Coordinates.AzimuthPeriod | src/pages/GlobeExplorer/utils/coordinates.ts:10 | adding 360° of longitude adds exactly 2π to the azimuth |
| Coordinates.LongitudePeriodic | src/pages/GlobeExplorer/utils/coordinates.ts:7-17 | when sin and cos have period 2π, lng and lng + 360 give the same point, although the longitude is never reduced |
| Coordinates.DistanceSquared | src/pages/GlobeExplorer/utils/coordinates.ts:19-21 | the squared distance is non-negative and is zero exactly when the two points coincide |
| Coordinates.DistanceSquaredSymmetric | src/pages/GlobeExplorer/utils/coordinates.ts:19-21 | the squared distance does not depend on argument order |
| Coordinates.Distance | src/pages/GlobeExplorer/utils/coordinates.ts:19-21 | with a correct square root, the camera distance is non-negative, squares to the squared distance, and is zero exactly when camera and position coincide |
| Coordinates.DistanceIsMetric | src/pages/GlobeExplorer/utils/coordinates.ts:19-21 | with a correct square root, the camera distance is non-negative and symmetric, squares to the squared distance, and is zero exactly for the same point |
| Coordinates.DistanceExceeds | src/pages/GlobeExplorer/utils/coordinates.ts:19-21 | with a correct square root and a non-negative bound, distance > bound holds exactly when squared distance > bound² |
| Coordinates.CalculateOpacity | src/pages/GlobeExplorer/utils/coordinates.ts:23-28 | the answer is NaN (None) exactly when distance, start and end all coincide; otherwise it is 1 nearer than the start and 0.2 beyond the end; inside a proper fade range it lies in [0.2, 1], is 1 at the start and 0.2 at the end |
| Coordinates.OpacityMonotone | src/pages/GlobeExplorer/utils/coordinates.ts:23-28 | over a proper fade range a farther camera never gives a higher opacity |
| Coordinates.OpacityExamples | src/pages/GlobeExplorer/utils/coordinates.ts:23-28 | with the markers' fade range 8 to 20, distances 5, 8, 14, 20 and 30 give 1, 1, 0.6, 0.2 and 0.2 |
| CityMarkers.CityData | src/pages/GlobeExplorer/CityMarkers.tsx:21-28 | one marker per city in catalog order, each holding its city and that city's point on the sphere of radius 5 |
| CityMarkers.MarkersOnSphere | src/pages/GlobeExplorer/CityMarkers.tsx:21-28 | when sin² + cos² = 1, every marker lies at squared distance 25 from the origin |
| CityMarkers.CursorFor | src/pages/GlobeExplorer/CityMarkers.tsx:75 | a marker advertises the pointer exactly when the camera is within 10 of it, and not-allowed otherwise |
| CityMarkers.HoverCursor | src/pages/GlobeExplorer/CityMarkers.tsx:89-107 | hovering shows the mesh's stored cursor, or the pointer when none has been stored yet |
| CityMarkers.CachedOpacity | src/pages/GlobeExplorer/CityMarkers.tsx:65 | the cached value is read as itself, except that a missing entry and a stored 0 both read as 1 |
| CityMarkers.MarkerOpacity | src/pages/GlobeExplorer/CityMarkers.tsx:62-63 | a marker's target opacity always lies in [0.2, 1] |
| CityMarkers.OpacityStep | src/pages/GlobeExplorer/CityMarkers.tsx:65-71 | one city's step either leaves the cache alone or sets that city's own entry to its current opacity; either way the cached value ends within 0.01 of that opacity |
| CityMarkers.OpacityStepWrites | src/pages/GlobeExplorer/CityMarkers.tsx:65-71 | one city's step writes its own key exactly when the cached value is more than 0.01 off; afterwards that value is within 0.01 of the target; every other key is untouched |
| CityMarkers.FirstFrameNearOne | src/pages/GlobeExplorer/CityMarkers.tsx:65 | an uncached city whose target is within 0.01 of 1 leaves the cache unchanged |
| CityMarkers.CursorStep | src/pages/GlobeExplorer/CityMarkers.tsx:73-76 | one city's step registers and drops no mesh; a registered mesh of that city gets the cursor its distance calls for; every other mesh keeps its flag |
| CityMarkers.FrameOpacities | src/pages/GlobeExplorer/CityMarkers.tsx:60-78 | the whole frame pass never removes a cached opacity |
| CityMarkers.FrameCursors | src/pages/GlobeExplorer/CityMarkers.tsx:60-78 | the whole frame pass registers no mesh and drops none |
| CityMarkers.FrameAddsOnlyCities | src/pages/GlobeExplorer/CityMarkers.tsx:61-66 | every entry the frame pass adds to the opacity cache is the name of a visited city |
| CityMarkers.FrameKeepsUnlisted | src/pages/GlobeExplorer/CityMarkers.tsx:60-78 | the frame pass does not change the cache entry of a name that belongs to no listed city |
| CityMarkers.FrameKeepsRange | src/pages/GlobeExplorer/CityMarkers.tsx:60-78 | if every cached opacity starts in [0.2, 1], it is still in [0.2, 1] after the frame pass |
| CityMarkers.FrameTracksOpacity | src/pages/GlobeExplorer/CityMarkers.tsx:60-78 | with distinct city names, after one frame the cached opacity of every listed city is within 0.01 of that city's target for the current camera |
| CityMarkers.FrameClassifies | src/pages/GlobeExplorer/CityMarkers.tsx:73-76 | after one frame, every mounted mesh of a listed city carries the cursor its camera distance calls for, and no mesh is added or dropped |
| CityMarkers.OutOfReach | src/pages/GlobeExplorer/CityMarkers.tsx:44-45 | with a correct square root, a camera 11 units along x from a marker is beyond the click distance of 10 |
| CityMarkers.MarkerLayer.constructor | src/pages/GlobeExplorer/CityMarkers.tsx:16-28 | the layer starts with the catalog markers and with empty caches, registries and timer set |
| CityMarkers.MarkerLayer.RegisterLabel | src/pages/GlobeExplorer/CityMarkers.tsx:125-130 | a mounted label joins the label registry and nothing else changes |
| CityMarkers.MarkerLayer.RegisterMarker | src/pages/GlobeExplorer/CityMarkers.tsx:85-87 | a mounted mesh joins the mesh registry with no cursor yet, an already registered mesh keeps its cursor, and nothing else changes |
| CityMarkers.MarkerLayer.Frame | src/pages/GlobeExplorer/CityMarkers.tsx:60-78 | the loop over the catalog leaves the opacity cache and cursor flags as the two folds over all cities give them, and labels and timers unchanged |
| CityMarkers.MarkerLayer.VisitCity | src/pages/GlobeExplorer/CityMarkers.tsx:61-77 | one city's visit performs exactly one step of each fold: the opacity cache and the cursor flags move as OpacityStep and CursorStep prescribe, and labels and timers stay |
| CityMarkers.MarkerLayer.HandleCityClick | src/pages/GlobeExplorer/CityMarkers.tsx:43-58 | the city is handed over exactly when the camera is within 10, which is exactly when `CursorFor` of the click-time distance is the pointer (the flag the last frame stored on the mesh may differ if the camera has moved since); a far click with a mounted label adds its flash timer; nothing else changes |
| CityMarkers.MarkerLayer.HoverCursorFor | src/pages/GlobeExplorer/CityMarkers.tsx:104-107 | hovering a city's cone shows the cursor flag stored on that city's marker mesh, or the pointer when the mesh is unregistered or not yet classified |
| CityMarkers.MarkerLayer.FlashExpired | src/pages/GlobeExplorer/CityMarkers.tsx:49-52 | the flash timeout removes exactly its own id from the pending set |
| CityMarkers.MarkerLayer.Teardown | src/pages/GlobeExplorer/CityMarkers.tsx:30-41 | unmounting cancels every pending flash and empties both registries; the opacity cache is kept |
| Globe.Mounted | src/pages/GlobeExplorer/Globe.tsx:16-17 | a fresh view is not rotating, its idle clock starts at the mount time, and its listeners are installed |
| Globe.Interacted | src/pages/GlobeExplorer/Globe.tsx:23-26 | an input to a live view stops rotation and restarts the idle clock at its own time; a torn-down view ignores it |
| Globe.Polled | src/pages/GlobeExplorer/Globe.tsx:32-36 | a poll turns rotation on exactly when the view is live and more than 10000 ms have passed; it never turns rotation off and never moves the idle clock |
| Globe.TornDown | src/pages/GlobeExplorer/Globe.tsx:38-43 | cleanup uninstalls the listeners and the interval and keeps the rest |
| Globe.ThresholdIsStrict | src/pages/GlobeExplorer/Globe.tsx:33 | exactly 10000 ms of idleness do not start rotation, and 10001 ms do |
| Globe.PollIdempotent | src/pages/GlobeExplorer/Globe.tsx:32-36 | a second poll at the same instant changes nothing |
| Globe.TornDownIsInert | src/pages/GlobeExplorer/Globe.tsx:38-43 | after cleanup neither inputs nor polls change the state |
| Globe.IdleScheduleRotates | src/pages/GlobeExplorer/Globe.tsx:17-36 | with the ref stamped at t0 during render and the interval created at time te, and no input after mounting, the globe rotates from the first poll more than 10000 ms after the stamp and at every later one, and never before; the stamp stays t0 |
| Globe.SameInstantSchedule | src/pages/GlobeExplorer/Globe.tsx:17-36 | when the interval is created in the same millisecond as the stamp, the globe rotates exactly from the 11th poll on |
| Globe.RotationPersists | src/pages/GlobeExplorer/Globe.tsx:32-36 | once rotating, the globe keeps rotating through any run of polls, and the idle clock does not move |
| Globe.IdleController.constructor | src/pages/GlobeExplorer/Globe.tsx:15-17 | the controller starts in the mounted state for the mount time |
| Globe.IdleController.Interact | src/pages/GlobeExplorer/Globe.tsx:23-26 | the fields move as Interacted prescribes |
| Globe.IdleController.Poll | src/pages/GlobeExplorer/Globe.tsx:32-36 | the fields move as Polled prescribes |
| Globe.IdleController.Teardown | src/pages/GlobeExplorer/Globe.tsx:38-43 | the fields move as TornDown prescribes |
| SunPosition.DayOfYear | src/pages/GlobeExplorer/utils/sunPosition.ts:30-34 | the day number n is the one with (n−1)·86400000 ≤ diff < n·86400000; it is at least 1 from the start of the year on, and 1 throughout the first day |
| SunPosition.FractionalHour | src/pages/GlobeExplorer/utils/sunPosition.ts:9 | a valid UTC hour and minute give a fractional hour in [0, 24); a whole hour gives itself |
| SunPosition.HourAngleDegrees | src/pages/GlobeExplorer/utils/sunPosition.ts:19 | the hour angle is zero exactly at 12:00 and lies in [−180, 180) through the day |
| Numerics.FMod | src/pages/GlobeExplorer/utils/sunPosition.ts:12-13 | JavaScript's `%` by a positive divisor: the remainder has the dividend's sign, is smaller than the divisor in size, leaves a value already in range alone, and differs from the dividend by a whole multiple of the divisor |
| SunPosition.MeanLongitude | src/pages/GlobeExplorer/utils/sunPosition.ts:12 | the mean longitude is 280.460 + 0.9856474·n less whole turns of 360°, and lies in [0, 360) from day 1 on |
| SunPosition.MeanAnomalyDegrees | src/pages/GlobeExplorer/utils/sunPosition.ts:13 | the mean anomaly in degrees is 357.528 + 0.9856003·n less whole turns of 360°, and lies in [0, 360) from day 1 on |
| SunPosition.ReductionsInRange | src/pages/GlobeExplorer/utils/sunPosition.ts:12-13 | from day 1 on, the mean longitude and the mean anomaly both reduce into [0, 360) |
| SunPosition.EclipticLongitudeDegrees | src/pages/GlobeExplorer/utils/sunPosition.ts:15 | when sin² + cos² = 1, the ecliptic longitude lies within 1.935° of the mean longitude; `SunPosition.EclipticLongitude` converts this value to radians with the line's `* (Math.PI / 180)` |
| SunPosition.DeclinationSine | src/pages/GlobeExplorer/utils/sunPosition.ts:17 | when sin² + cos² = 1, the argument given to asin is no larger in size than sin ε, so it lies in [−1, 1] |
| SunPosition.Declination | src/pages/GlobeExplorer/utils/sunPosition.ts:17 | when sin² + cos² = 1, asin's argument lies in [−1, 1], so with a non-negative cos over asin's range the declination's cosine is non-negative |
| SunPosition.CalculateSunPosition | src/pages/GlobeExplorer/utils/sunPosition.ts:7-28 | when sin² + cos² = 1 the sun lies 50 from the origin; at 12:00 UTC, given sin 0 = 0 and cos 0 = 1, it has x = 0 and z = 50·cos δ |
| SunPosition.NoonSun | src/pages/GlobeExplorer/utils/sunPosition.ts:19-25 | at 12:00 UTC the sun has x = 0 and z = 50·cos δ ≥ 0, given sin² + cos² = 1, sin 0 = 0, cos 0 = 1 and a non-negative cos over asin's range |
| SunPosition.SunAtFixedDistance | src/pages/GlobeExplorer/utils/sunPosition.ts:22-25 | when sin² + cos² = 1, the sun lies at distance 50 from the origin at every date and time |
| RatCatcher.GenerateRandomPosition | src/pages/RatCatcher.tsx:47-57 | with no area the rat rests at the origin; in an area at least 120 high and wide it rests at least 60 from every edge, strictly inside when the area is larger than 120 |
| RatCatcher.PaddedCoordinate | src/pages/RatCatcher.tsx:54-55 | a draw in [0, 1) over an extent of at least 120 lands in [60, extent − 60], strictly below the top when the extent exceeds 120 |
| RatCatcher.EdgeIndex | src/pages/RatCatcher.tsx:64 | a draw in [0, 1) picks an edge index from 0 to 3 |
| RatCatcher.EdgePoint | src/pages/RatCatcher.tsx:67-89 | index 0 puts the rat 100 above the top, 1 right of the right edge, 2 below the bottom and anything else left of the left edge, always off-screen |
| RatCatcher.EdgePointOnEdge | src/pages/RatCatcher.tsx:67-89 | with a draw in [0, 1), the coordinate along the chosen edge stays within that edge's span |
| RatCatcher.GenerateEdgePosition | src/pages/RatCatcher.tsx:60-90 | with no area the rat enters at (−100, 0); otherwise it enters off-screen beyond the edge its first draw picked, and within that edge's span |
| RatCatcher.GenerateRatState | src/pages/RatCatcher.tsx:93-98 | a rat always enters off-screen; in an area at least 120 high and wide it settles on-screen |
| RatCatcher.CheckCollision | src/pages/RatCatcher.tsx:106-114 | with a correct square root, cat and rat collide exactly when their squared distance is below 45² |
| RatCatcher.RootBelow | src/pages/RatCatcher.tsx:107-113 | with a correct square root, the root of a non-negative value is below a non-negative bound exactly when the value is below the bound's square |
| RatCatcher.CollisionSymmetric | src/pages/RatCatcher.tsx:106-114 | whether cat and rat collide does not depend on which is which |
| RatCatcher.InitialGame | src/pages/RatCatcher.tsx:17-28 | the game starts with zero scores, not started, no rat caught, no finger down and no animation |
| RatCatcher.MouseMoved | src/pages/RatCatcher.tsx:117-127 | over a mounted area the cat goes to the pointer minus the area's corner and the game starts; without an area nothing changes; no other field ever changes |
| RatCatcher.TouchStarted | src/pages/RatCatcher.tsx:146-159 | the finger flag is always set; over a mounted area the cat goes to the finger minus the corner and the game starts; without an area cat and game stay; no other field changes |
| RatCatcher.TouchMoved | src/pages/RatCatcher.tsx:130-143 | with a mounted area and a finger down the cat follows the finger and the game starts; otherwise nothing changes; no other field ever changes |
| RatCatcher.TouchEnded | src/pages/RatCatcher.tsx:162-164 | the finger flag is cleared and nothing else changes |
| RatCatcher.CatchChecked | src/pages/RatCatcher.tsx:185-205 | the score rises by exactly one when the game is on, the cat touches the rat and the rat is not yet caught; then the rat is marked caught and the animation starts; otherwise nothing changes |
| RatCatcher.Respawned | src/pages/RatCatcher.tsx:199-203 | the respawn installs the new rat, ends the animation and makes the rat catchable again; the scores, the started flag, the cat and the finger flag are kept |
| RatCatcher.HighScoreUpdated | src/pages/RatCatcher.tsx:39-44 | the high score becomes at least the score and never falls; it either stays or takes the score's value; nothing else changes |
| RatCatcher.GameReset | src/pages/RatCatcher.tsx:208-213 | reset zeroes the score, stops the game and installs a catchable new rat; it keeps the high score, the animation flag, the touch flag and the cat |
| RatCatcher.InputEffects | src/pages/RatCatcher.tsx:116-164 | a mouse move or touch start over a mounted area, or a touch move with a finger down, puts the cat at the pointer minus the area's corner and starts the game; any other input leaves cat and game alone; touch start and end set and clear the finger flag; no input changes scores, rat, caught flag or animation, or stops a started game |
| RatCatcher.Stepped | src/pages/RatCatcher.tsx:116-205 | after one input and the effects it triggers, the score rises by one exactly when the catch fires and stays otherwise; the high score is at least the score and never falls; the rat stays |
| RatCatcher.Played | src/pages/RatCatcher.tsx:116-205 | over a run of inputs with no respawn, the rat stays, the high score never falls, the score never falls and rises by at most one per input, and after any input the high score is at least the score |
| RatCatcher.OnePointPerRat | src/pages/RatCatcher.tsx:185-205 | between respawns any run of inputs raises the score by at most one, by none if the rat was already caught, and a rise leaves the rat marked caught; the high score stays at or above the score and never falls |
| RatCatcher.RatCatcherGame.constructor | src/pages/RatCatcher.tsx:17-28 | the game's fields start as InitialGame |
| RatCatcher.RatCatcherGame.PlaceRat | src/pages/RatCatcher.tsx:100-103 | the mount effect replaces only the rat, with a freshly generated one |
| RatCatcher.RatCatcherGame.MouseMove | src/pages/RatCatcher.tsx:117-127 | the fields move as MouseMoved prescribes |
| RatCatcher.RatCatcherGame.TouchStart | src/pages/RatCatcher.tsx:146-159 | the fields move as TouchStarted prescribes |
| RatCatcher.RatCatcherGame.TouchMove | src/pages/RatCatcher.tsx:130-143 | the fields move as TouchMoved prescribes |
| RatCatcher.RatCatcherGame.TouchEnd | src/pages/RatCatcher.tsx:162-164 | the fields move as TouchEnded prescribes |
| RatCatcher.RatCatcherGame.CheckCatch | src/pages/RatCatcher.tsx:185-205 | the fields move as CatchChecked prescribes, and a respawn is scheduled exactly when the catch scores |
| RatCatcher.RatCatcherGame.Respawn | src/pages/RatCatcher.tsx:199-203 | the fields move as Respawned prescribes, with a freshly generated rat |
| RatCatcher.RatCatcherGame.UpdateHighScore | src/pages/RatCatcher.tsx:39-44 | the fields move as HighScoreUpdated prescribes |
| RatCatcher.RatCatcherGame.ResetGame | src/pages/RatCatcher.tsx:208-213 | the fields move as GameReset prescribes, with a freshly generated rat |
| Navigation.Initial | src/store/navigation.ts:14-16 | the store starts on the home page with the menu closed |
| Navigation.PageSet | src/store/navigation.ts:15 | choosing a page shows it and always closes the menu |
| Navigation.MenuSet | src/store/navigation.ts:17 | setting the flag sets exactly the flag and keeps the page |
| Navigation.MenuToggled | src/store/navigation.ts:18 | toggling flips the flag and keeps the page |
| Navigation.ToggleTwice | src/store/navigation.ts:18 | toggling twice restores the state |
| Navigation.MenuSetIdempotent | src/store/navigation.ts:17 | setting the flag twice to one value equals setting it once, and of two settings the last one wins |
| Navigation.ToggleIsSetNegation | src/store/navigation.ts:17-18 | toggling equals setting the flag to its negation |
| Navigation.PageSetClosesMenu | src/store/navigation.ts:15 | choosing a page gives the same result whatever the menu was, and choosing it again changes nothing |
| Navigation.RunShowsLastChosen | src/store/navigation.ts:13-19 | after any sequence of actions the page shown is the one chosen last, or the starting page if none was chosen |
| Navigation.NavigationStore.constructor | src/store/navigation.ts:13-16 | the store object starts in the initial state |
| Navigation.NavigationStore.SetCurrentPage | src/store/navigation.ts:15 | the fields move as PageSet prescribes |
| Navigation.NavigationStore.SetIsMenuOpen | src/store/navigation.ts:17 | the fields move as MenuSet prescribes |
| Navigation.NavigationStore.ToggleMenu | src/store/navigation.ts:18 | the fields move as MenuToggled prescribes |

## Left out

- Rendering is not modelled: the three.js scene, React, framer-motion and the page markup are presentation. `Earth.tsx`'s textures and mesh are left out for the same reason.
- Floating point is not modelled. Numbers are reals, so rounding and infinities do not arise.
- Trigonometry and the square root are abstract `Math` fields. A lemma holds only under the identities it names in its `requires`.
- NaN has no real counterpart. The one NaN the core can produce, `calculateOpacity` dividing 0 by 0, becomes `None`; NaN arithmetic after that point is not modelled.
- `calculateDistance` takes the camera's position as a point. The camera object itself is not modelled.
- The label's DOM opacity and colour writes are left out: the opacity string, the flash colour `#fbbf24` and its reset. Only which labels are mounted, and which flash timers are pending, are kept.
- The document cursor writes on pointer over and out are modelled only as the `HoverCursor` choice. The reset to `auto` is not a state of the model.
- Timers and intervals are not scheduled. A timeout or interval firing is an explicit method call (`FlashExpired`, `Poll`, `Respawn`), so the 500 ms flash and 200 ms respawn delays are not checked. The 1000 ms poll period is assumed by the schedule lemmas (`Globe.PollInterval`, `Globe.PolledEverySecond`: polls exactly 1000 ms apart from the interval's start) rather than checked.
- The clock is a parameter. `Date.now()` enters as an integer, and so do the milliseconds since the start of the year and the UTC hour and minute. The calendar and time-zone arithmetic of `Date` is not modelled.
- The high score persistence is left out: the `localStorage` load at mount, its `parseInt`, and the write of each new high score.
- The Seattle start camera of `Globe.tsx` (normalised and scaled to 12) is left out. So is the orbit controls' configuration. Both are scene parameters only.
- The listener installation details are not modelled: passive flags, `preventDefault` and the multi-touch `touches[0]` choice. An event reaching a handler is a method call.
- The collision check runs after each input in `RatCatcher.Played`. In the source it also runs when a new rat arrives, and it runs when the game starts. In the class these are just more calls of `CheckCatch`, and the caller decides when to make them.
- The store itself receives two page values outside its declared `Page` union: `Apps.tsx:56` calls `setCurrentPage` with 'calculator' and 'ratcatcher' (`Apps.tsx:17`, `:25`), and `App.tsx:21-24` switches on them to reach those pages, so at runtime the store holds five page values. `Navigation.Page` models only the three declared ones, and the properties are proved for those. The page switch in `App.tsx` is left out. The presentation pages and components are left out as well.
