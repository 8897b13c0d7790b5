/** The `Home` page as an object: its `locationData` state, the tracker it
    hands `handleLocationUpdate` to, and the map it hands that state to. */
module Page {
  import opened Shared
  import opened Positioning
  import opened LocationTracker
  import opened MapboxMap
  import M = MapSpec
  import Spec = PageSpec

  class Home {
    var locationData: LocationType
    const tracker: MyLocation
    const mapView: MapView

    ghost function State(): Spec.System
      reads this, tracker, mapView
    {
      Spec.System(tracker.State(), locationData, mapView.State())
    }

    /** Mounting the page: the initial state, the tracker, and the map with its
        effects run once (the tracker's emit effect finds no sample). */
    constructor (apiKey: string, supported: bool, containerReady: bool)
      requires M.LoadModule(Some(apiKey)).Success?
      ensures State() == Spec.Mount(supported, containerReady)
      ensures tracker.calls == []
    {
      locationData := LocationType(Null, Null);
      tracker := new MyLocation(supported);
      mapView := new MapView(apiKey, containerReady);
      new;
      var call := tracker.LocationEffect();
      mapView.Init();
      mapView.OnLocationData(locationData);
    }

    /** `handleLocationUpdate(lat, lng)`: replaces the page state and nothing else. */
    method HandleLocationUpdate(lat: NumOrNull, lng: NumOrNull)
      modifies this`locationData
      ensures locationData == LocationType(lat, lng)
    {
      locationData := LocationType(lat, lng);
    }

    /** A consumer call from the tracker: the handler, then the map's effect on the new state. */
    method Deliver(call: Option<Call>)
      modifies this`locationData, mapView
      ensures State() == Spec.Deliver(old(State()), call)
    {
      if call.Some? {
        HandleLocationUpdate(call.value.first, call.value.second);
        mapView.OnLocationData(locationData);
      }
    }

    /** A click on the toggle. */
    method Toggle()
      modifies this, tracker, mapView
      ensures State() == Spec.Step(old(State()), Spec.Toggle)
      ensures tracker.calls == old(tracker.calls) + (if old(tracker.isTracking) then [Call(Null, Null)] else [])
    {
      var call := tracker.HandleToggle();
      Deliver(call);
    }

    /** A fix from the positioning capability. */
    method PositionArrives(p: Position)
      modifies this, tracker, mapView
      ensures State() == Spec.Step(old(State()), Spec.Fix(p))
      ensures tracker.calls == old(tracker.calls) + [Call(Num(p.coords.longitude), Num(p.coords.latitude))]
    {
      var call := tracker.Fix(p);
      Deliver(call);
    }

    /** An error from the positioning capability. */
    method ErrorArrives(e: PositionError)
      modifies this, tracker, mapView
      ensures State() == Spec.Step(old(State()), Spec.Fail(e))
      ensures tracker.calls == old(tracker.calls)
    {
      tracker.OnError(e);
    }

    /** Unmounting: the tracker's cleanup and the map's teardown. */
    method Unmount()
      modifies this, tracker, mapView
      ensures State() == Spec.Unmount(old(State()))
      ensures tracker.calls == old(tracker.calls)
    {
      tracker.Unmount();
      mapView.Teardown();
    }
  }
}
