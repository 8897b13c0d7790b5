/** The host's positioning capability (`navigator.geolocation`), reduced to the
    state the tracker can observe: whether it exists, which watches are active
    with the options they were opened with, and the next watch id it hands out. */
module Positioning {
  import opened Shared

  datatype PositionOptions = PositionOptions(enableHighAccuracy: bool, maximumAge: nat, timeout: nat)

  /** The coordinates of one fix. Latitude, longitude and accuracy are always
      numbers; the other four may be null. */
  datatype Coordinates = Coordinates(
    latitude: real,
    longitude: real,
    accuracy: real,
    altitude: NumOrNull,
    altitudeAccuracy: NumOrNull,
    heading: NumOrNull,
    speed: NumOrNull)

  /** One fix, with its timestamp in milliseconds. */
  datatype Position = Position(coords: Coordinates, timestamp: nat)

  /** A `GeolocationPositionError`: the code and the message. */
  datatype PositionError = PositionError(code: nat, message: string)

  const PERMISSION_DENIED: nat := 1
  const POSITION_UNAVAILABLE: nat := 2
  const TIMEOUT: nat := 3

  datatype Geolocation = Geolocation(supported: bool, watches: map<nat, PositionOptions>, nextId: nat)

  /** Every active watch carries an id handed out earlier, so the next id is fresh. */
  ghost predicate Valid(g: Geolocation) {
    forall id :: id in g.watches ==> id < g.nextId
  }

  /** `watchPosition`: opens a new watch and returns its id. */
  function WatchPosition(g: Geolocation, options: PositionOptions): (r: (Geolocation, nat))
    requires g.supported
    ensures r.0.supported
    ensures r.1 in r.0.watches && r.0.watches[r.1] == options
    ensures r.0.watches.Keys == g.watches.Keys + {r.1}
    ensures Valid(g) ==> Valid(r.0) && r.1 !in g.watches
    ensures Valid(g) ==> forall id :: id in g.watches ==> r.0.watches[id] == g.watches[id]
  {
    var id := g.nextId;
    (g.(watches := g.watches[id := options], nextId := id + 1), id)
  }

  /** `clearWatch`: ends the watch with this id; an id that is not active is ignored. */
  function ClearWatch(g: Geolocation, id: nat): (r: Geolocation)
    ensures r.supported == g.supported
    ensures r.watches.Keys == g.watches.Keys - {id}
    ensures forall w :: w in r.watches ==> r.watches[w] == g.watches[w]
    ensures id !in g.watches ==> r == g
    ensures Valid(g) ==> Valid(r)
  {
    g.(watches := g.watches - {id})
  }
}
