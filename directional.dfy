/** The directional (beam-forming) jammer: a report whose bearing from the aim
    point lies within half the beam width faces twice the base probability. */
module Directional {
  import opened Reals
  import opened Generator
  import opened GeoMath
  import opened Telemetry
  import opened Jamming

  /** Configuration only; jamming_signal_power() is the field jammingPowerDbm. */
  datatype DirectionalJammer = DirectionalJammer(
    targetPosition: GeoPosition,
    beamWidthDegrees: real,
    jammingProbability: real,
    noiseIntensity: real,
    jammingPowerDbm: real)

  /** The jammer built with every default but the required aim point. */
  function Default(targetPosition: GeoPosition): DirectionalJammer {
    DirectionalJammer(targetPosition, 30.0, 0.3, 0.7, -70.0)
  }

  /** A message mapping whose latitude or longitude may be missing. */
  datatype Report = Report(
    droneId: string,
    latitude: Option<real>,
    longitude: Option<real>,
    altitude: real,
    timestamp: real)

  function Located(rep: Report): Message
    requires rep.latitude.Some? && rep.longitude.Some?
  {
    Message(rep.droneId, rep.latitude.value, rep.longitude.value, rep.altitude, rep.timestamp)
  }

  function AsReport(m: Message): Report {
    Report(m.droneId, Some(m.latitude), Some(m.longitude), m.altitude, m.timestamp)
  }

  /** _angular_difference: the bearing from the aim point to (lat, lon), in degrees. */
  function AngularDifference(lib: MathLib, target: GeoPosition, lat: real, lon: real): real {
    Bearing(lib, target.latitude, target.longitude, lat, lon)
  }

  /** The bearing lies within half the beam width. */
  predicate InBeam(j: DirectionalJammer, lib: MathLib, lat: real, lon: real) {
    Abs(AngularDifference(lib, j.targetPosition, lat, lon)) <= j.beamWidthDegrees / 2.0
  }

  /** Inside the beam the base probability is doubled (capped at 1), outside it
      is unchanged; a base probability in [0, 1] stays in [p, 1]. */
  function BeamProbability(j: DirectionalJammer, lib: MathLib, lat: real, lon: real): (p: real)
    ensures InBeam(j, lib, lat, lon) ==> p == Min(1.0, 2.0 * j.jammingProbability)
    ensures !InBeam(j, lib, lat, lon) ==> p == j.jammingProbability
    ensures 0.0 <= j.jammingProbability <= 1.0 ==> j.jammingProbability <= p <= 1.0
  {
    var angleDiff := AngularDifference(lib, j.targetPosition, lat, lon);
    var halfBeam := j.beamWidthDegrees / 2.0;
    if Abs(angleDiff) <= halfBeam then Min(1.0, j.jammingProbability * 2.0)
    else j.jammingProbability
  }

  /** A report at the aim point itself is inside any beam of non-negative
      width, so it faces the doubled probability; this needs only the values
      of sin, cos and atan2 at 0. */
  lemma AimPointInBeam(j: DirectionalJammer, lib: MathLib)
    requires lib.sin(0.0) == 0.0 && lib.cos(0.0) == 1.0 && lib.atan2(0.0, 0.0) == 0.0
    requires j.beamWidthDegrees >= 0.0
    ensures BeamProbability(j, lib, j.targetPosition.latitude, j.targetPosition.longitude)
         == Min(1.0, 2.0 * j.jammingProbability)
  {
    BearingSamePoint(lib, j.targetPosition.latitude, j.targetPosition.longitude);
  }

  /** jam_signal: a report without a position passes untouched and consumes no
      draw; otherwise the strike rule runs with the beam probability and the
      ±0.05 degree, ±50 metre perturbation. */
  function JamSignal(j: DirectionalJammer, lib: MathLib, rep: Report, g: Rng): (r: JamOutcome<Report>)
    requires Valid(g)
    ensures Valid(r.rest)
    ensures rep.latitude.None? || rep.longitude.None? ==>
      r.message == Some(rep) && !r.jammed && r.rest == g
    ensures rep.latitude.Some? && rep.longitude.Some? ==>
      var p := BeamProbability(j, lib, rep.latitude.value, rep.longitude.value);
      && (r.jammed <==> Peek(g, 0) < p)
      && (!r.jammed ==> r.message == Some(rep) && r.rest == Skip(g, 1))
      && (r.jammed && Peek(g, 1) < j.noiseIntensity ==> r.message == None && r.rest == Skip(g, 2))
      && (r.jammed && Peek(g, 1) >= j.noiseIntensity ==>
            && r.message.Some?
            && r.message.value.latitude.Some? && r.message.value.longitude.Some?
            && Perturbed(Located(rep), Located(r.message.value), 0.05, 50.0)
            && r.rest == Skip(g, 5))
    ensures r.message.None? ==> r.jammed
  {
    if rep.latitude.None? || rep.longitude.None? then
      JamOutcome(Some(rep), false, g)
    else
      var lat, lon := rep.latitude.value, rep.longitude.value;
      var m := Located(rep);
      var o := Strike(BeamProbability(j, lib, lat, lon), j.noiseIntensity, m, g, 0.05, 50.0);
      assert o.message == Some(m) ==> AsReport(m) == rep;
      JamOutcome(if o.message.Some? then Some(AsReport(o.message.value)) else None, o.jammed, o.rest)
  }
}
