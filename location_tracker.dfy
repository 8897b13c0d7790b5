/** The `MyLocation` component as an object: its state fields and its
    `watchId` ref are fields that each event handler updates in place. */
module LocationTracker {
  import opened Shared
  import opened Positioning
  import Spec = LocationSpec

  class MyLocation {
    var isTracking: bool
    var locationData: Option<Spec.LocationData>
    var geoState: Spec.GeoState
    var watchId: Option<nat>
    /** The host's positioning capability, as far as this component drives it. */
    var geolocation: Geolocation
    /** Every call made to the `onLocationUpdate` consumer, oldest first. */
    ghost var calls: seq<Call>

    function State(): Spec.TrackerState
      reads this
    {
      Spec.TrackerState(isTracking, locationData, geoState, watchId, geolocation)
    }

    /** Mounting: the initial state, and the emit effect's first run, which finds no sample. */
    constructor (supported: bool)
      ensures State() == Spec.Initial(supported) && calls == []
    {
      isTracking := false;
      locationData := None;
      geoState := Spec.GeoState(false, None);
      watchId := None;
      geolocation := Geolocation(supported, map[], 0);
      calls := [];
    }

    method StartTracking()
      modifies this
      ensures State() == Spec.StartTracking(old(State())) && calls == old(calls)
    {
      if !geolocation.supported {
        geoState := geoState.(error := Some(Spec.NotSupported));
        return;
      }
      geoState := geoState.(loading := true);
      var (g, id) := WatchPosition(geolocation, Spec.WatchOptions);
      geolocation := g;
      watchId := Some(id);
    }

    /** The watch's success callback. */
    method OnPosition(p: Position)
      modifies this
      ensures State() == Spec.OnPosition(old(State()), p) && calls == old(calls)
    {
      locationData := Some(Spec.FromPosition(p));
      geoState := geoState.(loading := false);
    }

    /** The watch's error callback. */
    method OnError(e: PositionError)
      modifies this
      ensures State() == Spec.OnError(old(State()), e) && calls == old(calls)
    {
      geoState := geoState.(loading := false, error := Some(e));
      isTracking := false;
    }

    /** The effect on `locationData`: sends a present sample to the consumer. */
    method LocationEffect() returns (call: Option<Call>)
      modifies this`calls
      ensures call == Spec.LocationEffect(State())
      ensures calls == old(calls) + (if call.Some? then [call.value] else [])
    {
      call := None;
      if locationData.Some? {
        call := Some(Call(locationData.value.longitude, locationData.value.latitude));
        calls := calls + [call.value];
      }
    }

    method StopTracking() returns (call: Option<Call>)
      modifies this
      ensures Spec.Step(State(), call) == Spec.StopTracking(old(State()))
      ensures calls == old(calls) + [Call(Null, Null)]
    {
      if watchId.Some? {
        geolocation := ClearWatch(geolocation, watchId.value);
        watchId := None;
      }
      locationData := None;
      call := Some(Call(Null, Null));
      calls := calls + [call.value];
      geoState := geoState.(loading := false, error := None);
    }

    method HandleToggle() returns (call: Option<Call>)
      modifies this
      ensures Spec.Step(State(), call) == Spec.HandleToggle(old(State()))
      ensures calls == old(calls) + (if call.Some? then [call.value] else [])
    {
      var wasTracking := isTracking;
      if !wasTracking {
        StartTracking();
        call := None;
      } else {
        call := StopTracking();
      }
      isTracking := !wasTracking;
    }

    /** A fix from the watch: the success callback, then the effect it triggers. */
    method Fix(p: Position) returns (call: Option<Call>)
      modifies this
      ensures Spec.Step(State(), call) == Spec.Fix(old(State()), p)
      ensures calls == old(calls) + [call.value]
    {
      OnPosition(p);
      call := LocationEffect();
    }

    /** The cleanup that runs on unmount. */
    method Unmount()
      modifies this
      ensures State() == Spec.Cleanup(old(State())) && calls == old(calls)
    {
      if watchId.Some? {
        geolocation := ClearWatch(geolocation, watchId.value);
      }
    }
  }
}
