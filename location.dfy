/** The geolocation `useEffect`: the position is taken once, with a fixed fallback. */
module Location {
  import opened Outcomes
  import opened Entities

  /** The coordinate used when the device position is unavailable. */
  const Fallback: Coords := Coords(0.0, 0.0)

  /** The coordinate the dashboard settles on, given what the device
      reported (`None` for the error callback). It is always a usable
      coordinate: the device's own when there is one, else the fallback. */
  function ResolveCoords(position: Option<Coords>): (c: Coords)
    ensures position.Some? ==> c == position.value
    ensures position.None? ==> c.lat == 0.0 && c.lng == 0.0
  {
    match position
    case Some(p) => p
    case None => Fallback
  }
}
