/** Values shared by the tracker, the page and the map: JavaScript's nullable
    numbers, their truthiness, and the `LocationType` pair the page hands to the map. */
module Shared {

  datatype Option<+T> = None | Some(value: T)

  datatype Result<+T, +E> = Success(value: T) | Failure(error: E)

  /** A JavaScript `number | null`. Coordinates only pass through, so a real
      number stands for the value. */
  datatype NumOrNull = Null | Num(v: real)

  /** JavaScript truthiness of a `number | null`: `null` and `0` are falsy. */
  predicate Truthy(n: NumOrNull) {
    n.Num? && n.v != 0.0
  }

  /** The page's `{ latitude, longitude }` state, handed to the map as a prop. */
  datatype LocationType = LocationType(latitude: NumOrNull, longitude: NumOrNull)

  /** The arguments of one call of the `onLocationUpdate(lat, lng)` consumer,
      by position: the tracker decides what goes first. */
  datatype Call = Call(first: NumOrNull, second: NumOrNull)
}
