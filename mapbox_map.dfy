/** The `Map` component of `MyMapboxMap` as an object: the container ref, the
    `map` ref, and the live map's markers, centre and zoom, which the effects
    update in place. */
module MapboxMap {
  import opened Shared
  import Spec = MapSpec

  class MapView {
    /** Whether `mapContainer.current` holds the rendered container. */
    var containerReady: bool
    /** Whether the `map` ref holds a live map; the next three fields describe it. */
    var hasMap: bool
    var markers: seq<Spec.LngLat>
    var center: Spec.LngLat
    var zoom: int
    ghost var created: nat
    ghost var removed: nat

    ghost function State(): Spec.MapState
      reads this
    {
      Spec.MapState(containerReady,
        if hasMap then Some(Spec.MapInstance(markers, center, zoom)) else None,
        created, removed)
    }

    /** The component as first rendered, in a module whose key check passed. */
    constructor (accessToken: string, containerReady: bool)
      requires Spec.LoadModule(Some(accessToken)).Success?
      ensures State() == Spec.Rendered(containerReady)
    {
      this.containerReady := containerReady;
      hasMap := false;
      markers := [];
      center := Spec.InitialCenter;
      zoom := Spec.InitialZoom;
      created := 0;
      removed := 0;
    }

    /** The initialisation effect. */
    method Init()
      modifies this
      ensures State() == Spec.Init(old(State()))
    {
      if !containerReady || hasMap {
        return;
      }
      hasMap := true;
      markers := [];
      center := Spec.InitialCenter;
      zoom := Spec.InitialZoom;
      created := created + 1;
    }

    /** The teardown registered by the initialisation effect. */
    method Teardown()
      modifies this
      ensures State() == Spec.Teardown(old(State()))
    {
      if hasMap {
        hasMap := false;
        removed := removed + 1;
      }
    }

    /** The effect on the `locationData` prop. */
    method OnLocationData(loc: LocationType)
      modifies this
      ensures State() == Spec.OnLocationData(old(State()), loc)
    {
      if Truthy(loc.latitude) && Truthy(loc.longitude) {
        if hasMap {
          var at := Spec.LngLat(loc.latitude.v, loc.longitude.v);
          markers := markers + [at];
          center := at;
          zoom := Spec.FollowZoom;
        }
      }
    }
  }
}
