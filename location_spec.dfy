/** The location tracker of `MyLocation` as a value-level state machine: one
    function per event, each giving the next state and the call it makes to the
    `onLocationUpdate` consumer, if any. */
module LocationSpec {
  import opened Shared
  import opened Positioning

  /** The latest sample, as stored by the success callback: eight nullable numbers. */
  datatype LocationData = LocationData(
    accuracy: NumOrNull,
    altitude: NumOrNull,
    altitudeAccuracy: NumOrNull,
    heading: NumOrNull,
    latitude: NumOrNull,
    longitude: NumOrNull,
    speed: NumOrNull,
    timestamp: NumOrNull)

  datatype GeoState = GeoState(loading: bool, error: Option<PositionError>)

  /** The component's state, its `watchId` ref, and the positioning capability it drives. */
  datatype TrackerState = TrackerState(
    isTracking: bool,
    locationData: Option<LocationData>,
    geoState: GeoState,
    watchId: Option<nat>,
    geo: Geolocation)

  /** The state after an event, and the consumer call the event made (at most one). */
  datatype Step = Step(next: TrackerState, call: Option<Call>)

  /** The options every watch of the tracker is opened with. */
  const WatchOptions := PositionOptions(true, 1000, 12000)

  /** The error recorded when the host has no positioning capability. */
  const NotSupported := PositionError(0, "Geolocation not supported")

  /** What holds in every state the tracker reaches while mounted. */
  ghost predicate Inv(s: TrackerState) {
    && Valid(s.geo)
    && (s.geo.watches != map[] ==> s.geo.supported)
    && (forall id :: id in s.geo.watches ==> s.geo.watches[id] == WatchOptions)
    && (s.watchId.Some? ==> s.watchId.value in s.geo.watches)
    && (s.geoState.loading ==> s.watchId.Some?)
    && (s.locationData.Some? ==> s.locationData.value.latitude.Num? && s.locationData.value.longitude.Num?)
  }

  /** The state at mount: not tracking, no sample, not loading, no error, no watch. */
  function Initial(supported: bool): (s: TrackerState)
    ensures Inv(s)
    ensures !s.isTracking && s.locationData.None? && s.geoState == GeoState(false, None) && s.watchId.None?
    ensures s.geo.watches == map[] && s.geo.supported == supported
  {
    TrackerState(false, None, GeoState(false, None), None, Geolocation(supported, map[], 0))
  }

  /** The sample the success callback stores, copied field by field from the fix. */
  function FromPosition(p: Position): LocationData {
    LocationData(
      Num(p.coords.accuracy),
      p.coords.altitude,
      p.coords.altitudeAccuracy,
      p.coords.heading,
      Num(p.coords.latitude),
      Num(p.coords.longitude),
      p.coords.speed,
      Num(p.timestamp as real))
  }

  /** `startTracking`. Without a positioning capability it records `NotSupported`
      and returns, leaving `loading` and the watch alone. Otherwise it sets
      `loading` and opens a new watch whose id replaces `watchId`; a watch that
      `watchId` held before is not cleared and stays active. */
  function StartTracking(s: TrackerState): (r: TrackerState)
    ensures r.isTracking == s.isTracking && r.locationData == s.locationData
    ensures !s.geo.supported ==>
      r.geoState == GeoState(s.geoState.loading, Some(NotSupported)) && r.watchId == s.watchId && r.geo == s.geo
    ensures s.geo.supported ==>
      && r.geoState == GeoState(true, s.geoState.error)
      && r.watchId.Some? && r.geo.watches.Keys == s.geo.watches.Keys + {r.watchId.value}
      && r.geo.watches[r.watchId.value] == WatchOptions
      && (Inv(s) ==> r.watchId.value !in s.geo.watches)
    ensures Inv(s) ==> Inv(r)
  {
    if !s.geo.supported then
      s.(geoState := s.geoState.(error := Some(NotSupported)))
    else
      var (g, id) := WatchPosition(s.geo, WatchOptions);
      s.(geoState := s.geoState.(loading := true), watchId := Some(id), geo := g)
  }

  /** The watch's success callback: stores all eight fields of the fix and
      clears `loading`; an earlier error and the tracking flag are kept. */
  function OnPosition(s: TrackerState, p: Position): (r: TrackerState)
    ensures r.locationData.Some?
    ensures var d := r.locationData.value;
      && d.latitude == Num(p.coords.latitude) && d.longitude == Num(p.coords.longitude)
      && d.accuracy == Num(p.coords.accuracy) && d.altitude == p.coords.altitude
      && d.altitudeAccuracy == p.coords.altitudeAccuracy && d.heading == p.coords.heading
      && d.speed == p.coords.speed && d.timestamp == Num(p.timestamp as real)
    ensures r.geoState == GeoState(false, s.geoState.error)
    ensures r.isTracking == s.isTracking && r.watchId == s.watchId && r.geo == s.geo
    ensures Inv(s) ==> Inv(r)
  {
    s.(locationData := Some(FromPosition(p)), geoState := s.geoState.(loading := false))
  }

  /** The watch's error callback: clears `loading`, stores the error and forces
      tracking off; the watch and `watchId` are left as they are. */
  function OnError(s: TrackerState, e: PositionError): (r: TrackerState)
    ensures r.geoState == GeoState(false, Some(e)) && !r.isTracking
    ensures r.watchId == s.watchId && r.geo == s.geo && r.locationData == s.locationData
    ensures Inv(s) ==> Inv(r)
  {
    s.(geoState := s.geoState.(loading := false, error := Some(e)), isTracking := false)
  }

  /** The effect that runs when `locationData` changes: a present sample is
      sent to the consumer as (longitude, latitude), in that order. */
  function LocationEffect(s: TrackerState): (r: Option<Call>)
    ensures r.Some? <==> s.locationData.Some?
    ensures r.Some? ==> r.value.first == s.locationData.value.longitude && r.value.second == s.locationData.value.latitude
    ensures Inv(s) && r.Some? ==> r.value.first.Num? && r.value.second.Num?
  {
    match s.locationData
    case None => None
    case Some(d) => Some(Call(d.longitude, d.latitude))
  }

  /** A fix delivered by the watch: the success callback, then the effect its
      new `locationData` triggers (a fresh object every time, so it always runs). */
  function Fix(s: TrackerState, p: Position): (r: Step)
    ensures r.next == OnPosition(s, p)
    ensures r.call == Some(Call(Num(p.coords.longitude), Num(p.coords.latitude)))
  {
    var n := OnPosition(s, p);
    Step(n, LocationEffect(n))
  }

  /** `stopTracking`: clears the watch `watchId` holds, if any, and nulls
      `watchId`; drops the sample; calls the consumer once with (null, null);
      clears `loading` and the error. The effect that the dropped sample
      triggers finds no sample and calls nobody. */
  function StopTracking(s: TrackerState): (r: Step)
    ensures r.call == Some(Call(Null, Null))
    ensures r.next.watchId.None? && r.next.locationData.None? && r.next.geoState == GeoState(false, None)
    ensures r.next.isTracking == s.isTracking && r.next.geo.supported == s.geo.supported
    ensures s.watchId.Some? ==> r.next.geo.watches.Keys == s.geo.watches.Keys - {s.watchId.value}
    ensures s.watchId.None? ==> r.next.geo == s.geo
    ensures LocationEffect(r.next).None?
    ensures Inv(s) ==> Inv(r.next)
  {
    var g := if s.watchId.Some? then ClearWatch(s.geo, s.watchId.value) else s.geo;
    Step(s.(watchId := None, locationData := None, geoState := GeoState(false, None), geo := g),
         Some(Call(Null, Null)))
  }

  /** `handleToggle`: starts when not tracking and stops when tracking, then
      sets the flag to the negation of the value it read, whether or not the
      start succeeded. */
  function HandleToggle(s: TrackerState): (r: Step)
    ensures r.next.isTracking == !s.isTracking
    ensures !s.isTracking ==> r.call.None? && r.next == StartTracking(s).(isTracking := true)
    ensures s.isTracking ==> r.call == Some(Call(Null, Null)) && r.next == StopTracking(s).next.(isTracking := false)
    ensures Inv(s) ==> Inv(r.next)
  {
    if !s.isTracking then
      Step(StartTracking(s).(isTracking := !s.isTracking), None)
    else
      var stop := StopTracking(s);
      Step(stop.next.(isTracking := !s.isTracking), stop.call)
  }

  /** The unmount cleanup: clears the watch `watchId` holds, whatever the
      tracking flag says; `watchId` itself is not nulled. */
  function Cleanup(s: TrackerState): (r: TrackerState)
    ensures r == s.(geo := r.geo)
    ensures s.watchId.Some? ==> r.geo.watches.Keys == s.geo.watches.Keys - {s.watchId.value}
    ensures s.watchId.None? ==> r.geo == s.geo
  {
    if s.watchId.Some? then s.(geo := ClearWatch(s.geo, s.watchId.value)) else s
  }

  /** With no positioning capability a toggle still turns the flag on: the
      start records `NotSupported` and opens nothing, and nobody is called. */
  lemma ToggleUnsupportedStillTracks(s: TrackerState)
    requires !s.isTracking && !s.geo.supported
    ensures var r := HandleToggle(s);
      && r.next.isTracking && r.call.None?
      && r.next.geoState == GeoState(s.geoState.loading, Some(NotSupported))
      && r.next.geo == s.geo && r.next.watchId == s.watchId
  {
  }

  /** A fix keeps whatever error was recorded before it. */
  lemma FixKeepsError(s: TrackerState, e: PositionError, p: Position)
    ensures Fix(OnError(s, e), p).next.geoState.error == Some(e)
  {
  }

  /** After a timeout or an unavailable position the host keeps the watch
      running, and the tracker is off but `watchId` still names it; the next
      toggle opens a second watch and overwrites `watchId` without clearing
      the first, so the first stays active with nothing left to clear it. */
  lemma RestartAfterErrorLeaksWatch(s: TrackerState, e: PositionError)
    requires Inv(s) && s.watchId.Some?
    requires e.code == TIMEOUT || e.code == POSITION_UNAVAILABLE
    ensures var r := HandleToggle(OnError(s, e)).next;
      && r.isTracking
      && r.watchId.Some? && r.watchId != s.watchId
      && s.watchId.value in r.geo.watches
      && |r.geo.watches| == |s.geo.watches| + 1
  {
  }
}
