/** The telemetry report a drone sends, and the bounded position noise that
    channel corruption and partial jamming add to it. */
module Telemetry {
  import opened Reals
  import opened Generator

  datatype Option<+T> = None | Some(value: T)

  /** One report: the five keys every message mapping carries. */
  datatype Message = Message(
    droneId: string,
    latitude: real,   // degrees
    longitude: real,  // degrees
    altitude: real,   // metres
    timestamp: real)

  /** A (latitude, longitude) pair in degrees: a ground station or an aim point. */
  datatype GeoPosition = GeoPosition(latitude: real, longitude: real)

  /** m2 is m with its position moved by at most latLonBound degrees on each of
      latitude and longitude and at most altBound metres in altitude; identity
      and timestamp are untouched. */
  ghost predicate Perturbed(m: Message, m2: Message, latLonBound: real, altBound: real) {
    && m2.droneId == m.droneId
    && m2.timestamp == m.timestamp
    && Abs(m2.latitude - m.latitude) <= latLonBound
    && Abs(m2.longitude - m.longitude) <= latLonBound
    && Abs(m2.altitude - m.altitude) <= altBound
  }

  /** Adds uniform(-latLonBound, latLonBound) to latitude, then to longitude,
      then uniform(-altBound, altBound) to altitude: three draws, in that order. */
  function Perturb(m: Message, g: Rng, latLonBound: real, altBound: real): (r: Drawn<Message>)
    requires Valid(g) && latLonBound >= 0.0 && altBound >= 0.0
    ensures Perturbed(m, r.value, latLonBound, altBound)
    ensures r.rest == Skip(g, 3) && Valid(r.rest)
    ensures r.value.latitude == m.latitude + Scale(Peek(g, 0), -latLonBound, latLonBound)
    ensures r.value.longitude == m.longitude + Scale(Peek(g, 1), -latLonBound, latLonBound)
    ensures r.value.altitude == m.altitude + Scale(Peek(g, 2), -altBound, altBound)
  {
    var dLat := Uniform(g, -latLonBound, latLonBound);
    var dLon := Uniform(dLat.rest, -latLonBound, latLonBound);
    var dAlt := Uniform(dLon.rest, -altBound, altBound);
    Drawn(m.(latitude := m.latitude + dLat.value,
             longitude := m.longitude + dLon.value,
             altitude := m.altitude + dAlt.value),
          dAlt.rest)
  }
}
