# Live location tracker and map synchroniser, modelled in Dafny

The application shows the device's live position on a map. A tracker
component (`MyLocation`) switches a continuous position watch on and off and
reports each fix to a consumer callback; the page (`Home`) stores the pair it
receives in its `locationData` state and hands that state to the map
component (`Map` in `MyMapboxMap`), which creates one map on mount, drops a
marker and recentres on every truthy pair, and removes the map on unmount.

The model has two layers:

- **Value-level state machines** (`LocationSpec`, `MapSpec`, `PageSpec`): one
  function per event, giving the next state and, for the tracker, the call it
  makes to its consumer (at most one per event). The properties are proved
  here, per event in the functions' contracts and over whole event sequences
  in lemmas by induction.
- **Objects** (`LocationTracker.MyLocation`, `MapboxMap.MapView`, `Page.Home`):
  the components' state fields and refs, updated in place by one method per
  handler, callback or effect. Each method's contract equates the new state
  with the matching function applied to the old one. `MyLocation` keeps a ghost
  log of every consumer call.

The host's positioning capability (`Positioning`) is abstract state: whether
it exists, the active watches with the options each was opened with, and the
next watch id it will hand out. The map library is reduced to whether a map
exists, its markers, its centre and its zoom, plus counts of the maps created
and removed. Coordinates pass through unchanged, so they are real numbers.
`Shared.Truthy` models JavaScript truthiness: `null` and `0` are falsy.

What the model establishes about the source as written:

- A toggle flips `isTracking` even when the start fails for want of a
  positioning capability. A capability error forces it off. So after any
  events it is on exactly when an odd number of toggles followed the last
  error.
- A fix does not clear an earlier error.
- After a capability error, `watchId` still names a watch the component
  never cleared. After a timeout or an unavailable position the host keeps
  that watch running. The next toggle opens a second watch and overwrites
  `watchId`, so the first watch is never cleared, not even by the unmount
  cleanup.
- The tracker calls the consumer with `(longitude, latitude)`. The page's
  handler names its parameters `(lat, lng)`. The map places
  `[latitude, longitude]` of the page state. The two swaps cancel, so every
  marker and centre lands at the device's `[longitude, latitude]`, which is
  the order the map library reads.
- Markers accumulate: one per fix whose latitude and longitude are both
  nonzero, in order, and none is ever removed. Stopping sends `(null, null)`,
  which the map ignores.

Behaviour of the code worth noting:

- A fix keeps the earlier error; it does not clear it.
- Every update adds a new marker; earlier markers are never removed.
- `startTracking` does not check for an existing watch; it overwrites `watchId`.
- Fixes that arrive after a stop are not discarded by the tracker.
- For a fix at latitude 28.6, longitude 77.2, the code centres the map on
  `[77.2, 28.6]`, the device's `[lng, lat]` (see `PageSpec.DelhiScenario`).

## Model

| member | source | states |
|---|---|---|
| `Positioning.WatchPosition` | src/components/MyLocation.tsx:50-73 | opening a watch adds exactly one active watch, with the given options, under an id that was not active before; existing watches are kept |
| `Positioning.ClearWatch` | src/components/MyLocation.tsx:83-86 | clearing ends exactly the watch with that id; an id that is not active changes nothing |
| `LocationSpec.Initial` | src/components/MyLocation.tsx:26-31 | the mounted tracker is off, with no sample, not loading, no error, no `watchId` and no active watch, and satisfies the tracker invariant |
| `LocationSpec.StartTracking` | src/components/MyLocation.tsx:33-74 | without a capability: error becomes code 0 "Geolocation not supported", loading and the watch untouched; otherwise loading becomes true, a fresh watch with options (high accuracy, 1000, 12000) is opened and its id overwrites `watchId`, the old watch staying active; the tracking flag and sample are untouched; the invariant is kept |
| `LocationSpec.OnPosition` | src/components/MyLocation.tsx:51-62 | the success callback stores all eight fields of the fix and clears loading; error, tracking flag and watch are unchanged |
| `LocationSpec.OnError` | src/components/MyLocation.tsx:64-67 | the error callback clears loading, stores the error and forces tracking off; `watchId`, the watch and the sample are unchanged |
| `LocationSpec.LocationEffect` | src/components/MyLocation.tsx:76-80 | the consumer is called exactly when a sample is present, with (longitude, latitude) in that order, both numbers |
| `LocationSpec.Fix` | src/components/MyLocation.tsx:51-80 | a fix makes exactly one consumer call, with the fix's (longitude, latitude) |
| `LocationSpec.StopTracking` | src/components/MyLocation.tsx:82-95 | clears the watch in `watchId` if any (no-op otherwise) and nulls it, drops the sample, calls the consumer once with (null, null), clears loading and the error; the effect that follows calls nobody |
| `LocationSpec.HandleToggle` | src/components/MyLocation.tsx:97-104 | starts when off and stops when on, then sets the flag to the negation of the old value even if the start failed; only a stop calls the consumer |
| `LocationSpec.Cleanup` | src/components/MyLocation.tsx:107-113 | the unmount cleanup clears the watch in `watchId` whatever the tracking flag, and changes nothing else |
| `LocationSpec.ToggleUnsupportedStillTracks` | src/components/MyLocation.tsx:97-104 | with no capability, a toggle from off leaves tracking on, the error set, loading and the watch unchanged, and no consumer call |
| `LocationSpec.FixKeepsError` | src/components/MyLocation.tsx:62 | a fix after an error leaves that error in place |
| `LocationSpec.RestartAfterErrorLeaksWatch` | src/components/MyLocation.tsx:48-73 | after a timeout or unavailable-position error, a toggle opens a second watch and overwrites `watchId` while the first watch stays active: one more active watch than before |
| `LocationTracker.MyLocation.constructor` | src/components/MyLocation.tsx:26-31 | the object starts in the initial tracker state with an empty consumer log |
| `LocationTracker.MyLocation.StartTracking` | src/components/MyLocation.tsx:33-74 | updates the fields as `LocationSpec.StartTracking` and calls nobody |
| `LocationTracker.MyLocation.OnPosition` | src/components/MyLocation.tsx:51-62 | updates the fields as `LocationSpec.OnPosition` |
| `LocationTracker.MyLocation.OnError` | src/components/MyLocation.tsx:64-67 | updates the fields as `LocationSpec.OnError` |
| `LocationTracker.MyLocation.LocationEffect` | src/components/MyLocation.tsx:76-80 | returns the call of `LocationSpec.LocationEffect` and appends it to the consumer log |
| `LocationTracker.MyLocation.StopTracking` | src/components/MyLocation.tsx:82-95 | updates the fields as `LocationSpec.StopTracking` and appends exactly one (null, null) to the log |
| `LocationTracker.MyLocation.HandleToggle` | src/components/MyLocation.tsx:97-104 | updates the fields as `LocationSpec.HandleToggle` and logs its call |
| `LocationTracker.MyLocation.Fix` | src/components/MyLocation.tsx:51-80 | the callback then the effect: as `LocationSpec.Fix`, one call logged |
| `LocationTracker.MyLocation.Unmount` | src/components/MyLocation.tsx:107-113 | updates the positioning state as `LocationSpec.Cleanup` |
| `MapSpec.LoadModule` | src/components/MyMapboxMap.tsx:12-18 | an absent or empty key is the fatal "Mapbox API key is not defined in the environment variables." error; any other key becomes the access token |
| `MapSpec.Rendered` | src/components/MyMapboxMap.tsx:28-30 | before its effects the component holds no map |
| `MapSpec.Init` | src/components/MyMapboxMap.tsx:32-42 | a map centred at [77.2096, 28.66446], zoom 5, no markers, is created only if the container exists and no map exists; otherwise nothing changes; at most one map is alive |
| `MapSpec.Teardown` | src/components/MyMapboxMap.tsx:45-50 | removes the map once and nulls the ref; with no map it does nothing |
| `MapSpec.OnLocationData` | src/components/MyMapboxMap.tsx:53-63 | a location with a falsy field, or no map, changes nothing; otherwise exactly one marker is appended, earlier ones kept, and centre and zoom become that position and 19 |
| `MapSpec.InitTwiceCreatesOneMap` | src/components/MyMapboxMap.tsx:34 | a second initialisation leaves the one map the first created |
| `MapSpec.TeardownTwiceRemovesOnce` | src/components/MyMapboxMap.tsx:45-50 | a second teardown does nothing |
| `MapSpec.RemountLeavesOneFreshMap` | src/components/MyMapboxMap.tsx:32-51 | teardown then initialisation leaves exactly one live map, new and without markers |
| `MapSpec.MarkersAccumulate` | src/components/MyMapboxMap.tsx:56-58 | over any sequence of updates the marker count grows by the number of qualifying ones and the earlier markers stay, in place |
| `MapboxMap.MapView.constructor` | src/components/MyMapboxMap.tsx:24-30 | the component exists only once the key check passed, and starts with no map |
| `MapboxMap.MapView.Init` | src/components/MyMapboxMap.tsx:32-42 | updates the fields as `MapSpec.Init` |
| `MapboxMap.MapView.Teardown` | src/components/MyMapboxMap.tsx:45-50 | updates the fields as `MapSpec.Teardown` |
| `MapboxMap.MapView.OnLocationData` | src/components/MyMapboxMap.tsx:53-63 | updates the fields as `MapSpec.OnLocationData` |
| `PageSpec.Mount` | src/app/page.tsx:8-11 | after mounting the page state is (null, null), a map exists exactly when the container does, with the initial view, and the system invariant holds |
| `PageSpec.Launch` | src/components/MyMapboxMap.tsx:12-16 | loading fails with the missing-key error exactly when the key is absent or empty, so no map exists; otherwise the page mounts |
| `PageSpec.Deliver` | src/app/page.tsx:13-15 | a consumer call replaces the page state with {latitude: first argument, longitude: second argument}, leaves the tracker alone, and the map's location effect runs on that same state; no call changes nothing |
| `PageSpec.TrackerStep` | src/app/page.tsx:22 | every tracker event keeps the tracker invariant, and every consumer call it makes has both arguments null or both present |
| `PageSpec.Step` | src/app/page.tsx:22-25 | every event keeps the system invariant (both page fields null or both present) and never creates or removes the map |
| `PageSpec.Unmount` | src/components/MyLocation.tsx:107-113 | unmounting removes the map and clears the watch in `watchId` without nulling it |
| `PageSpec.RunKeepsInvariant` | src/app/page.tsx:13-15 | after any sequence of events the page fields are both null or both present, the tracker and map invariants hold, and map existence is unchanged |
| `PageSpec.FixReachesMapInLngLatOrder` | src/app/page.tsx:13-14 | a device fix (lat L, lng G) makes the page state {latitude: G, longitude: L} and, through the map's `[latitude, longitude]` placement (src/components/MyMapboxMap.tsx line 57), when both are nonzero, appends a marker at and centres on [G, L] at zoom 19; otherwise the map is unchanged |
| `PageSpec.StopLeavesMapUnchanged` | src/app/page.tsx:13-15 | a stop turns tracking off and sets the page state to (null, null) while the map's markers, centre and zoom stay as they were |
| `PageSpec.MarkersArePlacements` | src/components/MyMapboxMap.tsx:54-60 | after any events from mounting with a container, exactly one map was created, its markers are exactly one per nonzero fix, in order, at [longitude, latitude], and its centre and zoom are the last fix's (or the initial ones) |
| `PageSpec.TrackingFollowsToggles` | src/components/MyLocation.tsx:97-104 | after any events the tracking flag is on exactly when the number of toggles since the last capability error is odd |
| `PageSpec.DelhiScenario` | src/app/page.tsx:13-25 | toggle and a fix at (28.6, 77.2) give page state (77.2, 28.6) and a map centred on [77.2, 28.6] at zoom 19 with one marker; a further toggle nulls the page state and leaves the map as it was |
| `PageSpec.UnsupportedScenario` | src/components/MyLocation.tsx:34-46 | with no capability a toggle turns tracking on, records the "not supported" error, opens no watch, and leaves page and map as mounted |
| `PageSpec.UnmountAfterRestartLeavesWatch` | src/components/MyLocation.tsx:107-113 | toggle, timeout or unavailable-position error, toggle leaves watches 0 and 1 active with `watchId` = 1, and unmounting leaves watch 0 running; toggle then unmount leaves none |
| `Page.Home.constructor` | src/app/page.tsx:8-11 | the page mounts into `PageSpec.Mount`'s state with an empty consumer log |
| `Page.Home.HandleLocationUpdate` | src/app/page.tsx:13-15 | replaces the page state with {latitude: lat, longitude: lng} and changes nothing else |
| `Page.Home.Deliver` | src/app/page.tsx:22-25 | the handler then the map's effect on the same state object, as `PageSpec.Deliver` |
| `Page.Home.Toggle` | src/app/page.tsx:22 | a toggle of the tracker, delivered, as `PageSpec.Step`; a stop logs exactly one (null, null) |
| `Page.Home.PositionArrives` | src/app/page.tsx:22-25 | a fix, delivered, as `PageSpec.Step`; logs exactly one (longitude, latitude) call |
| `Page.Home.ErrorArrives` | src/components/MyLocation.tsx:64-67 | an error as `PageSpec.Step`; no consumer call |
| `Page.Home.Unmount` | src/components/MyLocation.tsx:107-113 | the tracker's cleanup and the map's teardown, as `PageSpec.Unmount` |

## Left out

- Rendering: the JSX and CSS classes of all three components, and `src/app/layout.tsx` (page shell and metadata).
- The `console.log` calls, which are output only.
- The real browser positioning API and the map library are foreign code. They are abstract state here: active watch ids and their options, and the map-exists flag, markers, centre and zoom. A map's style and container element are not modelled.
- React's scheduling is not modelled. Each handler, callback and effect is one atomic step, and state batching is not modelled.
- The emit effect on `locationData` is run after a fix, which always builds a new `locationData` object. After a stop the model does not run it; `LocationSpec.StopTracking` proves that the effect would find no sample and call nobody. It is not run after a start, which leaves `locationData` alone.
- Floating point: coordinates and the accuracy, altitude, heading, speed and timestamp fields are pass-through reals. `NaN` and `-0`, which are also falsy in JavaScript, are not modelled.
- The environment-variable mechanism is a key argument to `MapSpec.LoadModule` and `PageSpec.Launch`. The map and page constructors require that this check passed.
- `src/types` (the `LocationType` shape) is not part of this model. It is taken to be `{ latitude: number | null, longitude: number | null }`.
- The constant fields `PERMISSION_DENIED`, `POSITION_UNAVAILABLE` and `TIMEOUT` of the "not supported" error object are not stored. They are plain constants in `Positioning`.
- The event sequences of `PageSpec.Run` stop at unmount. Callbacks from a leaked watch after unmount would update an unmounted component and are not modelled.
- Events are not restricted to what a real host can produce: a `Fix` or `Fail` is accepted at any time, even with no capability or no watch open. This includes callbacks after a stop, which the source does not discard. The extra events only make the lemmas over event sequences stronger.
- The host's own ending of a watch is not modelled: under the W3C Geolocation API a `PERMISSION_DENIED` error removes the watch on the host's side, but the model's host keeps every watch until `clearWatch`. The leak lemmas are therefore stated only for `TIMEOUT` and `POSITION_UNAVAILABLE` errors.
