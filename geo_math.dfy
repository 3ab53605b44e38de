/** Numeric helpers shared by the channel models and the directional jammer.
    The transcendental functions are not modelled: a MathLib supplies them, and a
    property that needs a fact about one takes that fact as a precondition. */
module GeoMath {
  import opened Reals

  datatype MathLib = MathLib(
    sin: real -> real,
    cos: real -> real,
    atan2: (real, real) -> real,
    sqrt: real -> real,
    log10: real -> real)

  const EarthRadius: real := 6371000.0   // metres

  // The value of pi is written out so that each conversion is linear arithmetic.
  function Radians(deg: real): real { deg * (3.141592653589793 / 180.0) }
  function Degrees(rad: real): real { rad * (180.0 / 3.141592653589793) }
  function Square(x: real): real { x * x }

  /** log10 is non-decreasing on the positive reals. */
  ghost predicate Log10Monotone(lib: MathLib) {
    forall x: real, y: real :: 0.0 < x <= y ==> lib.log10(x) <= lib.log10(y)
  }

  /** Great-circle distance in metres by the haversine formula. */
  function Haversine(lib: MathLib, lat1: real, lon1: real, lat2: real, lon2: real): real {
    var phi1 := Radians(lat1);
    var phi2 := Radians(lat2);
    var deltaPhi := Radians(lat2 - lat1);
    var deltaLambda := Radians(lon2 - lon1);
    var a := Square(lib.sin(deltaPhi / 2.0))
             + lib.cos(phi1) * lib.cos(phi2) * Square(lib.sin(deltaLambda / 2.0));
    var c := 2.0 * lib.atan2(lib.sqrt(a), lib.sqrt(1.0 - a));
    EarthRadius * c
  }

  /** A point is at distance 0 from itself, given only the values of sin, sqrt
      and atan2 at the arguments that then arise. */
  lemma HaversineSamePoint(lib: MathLib, lat: real, lon: real)
    requires lib.sin(0.0) == 0.0 && lib.sqrt(0.0) == 0.0 && lib.sqrt(1.0) == 1.0
    requires lib.atan2(0.0, 1.0) == 0.0
    ensures Haversine(lib, lat, lon, lat, lon) == 0.0
  {
  }

  /** Initial bearing in degrees from (lat1, lon1) towards (lat2, lon2),
      without normalisation to [0, 360). */
  function Bearing(lib: MathLib, lat1: real, lon1: real, lat2: real, lon2: real): real {
    BearingRadians(lib, Radians(lat1), Radians(lat2), Radians(lon2) - Radians(lon1))
  }

  /** The bearing formula on latitudes and longitude difference in radians. */
  function BearingRadians(lib: MathLib, p1: real, p2: real, dLon: real): real {
    Degrees(lib.atan2(BearingY(lib, p2, dLon), BearingX(lib, p1, p2, dLon)))
  }

  function BearingY(lib: MathLib, p2: real, dLon: real): real {
    lib.sin(dLon) * lib.cos(p2)
  }

  function BearingX(lib: MathLib, p1: real, p2: real, dLon: real): real {
    lib.cos(p1) * lib.sin(p2) - lib.sin(p1) * lib.cos(p2) * lib.cos(dLon)
  }

  /** The bearing from a point to itself is 0, given only the values of sin,
      cos and atan2 at the arguments that then arise. */
  lemma BearingSamePoint(lib: MathLib, lat: real, lon: real)
    requires lib.sin(0.0) == 0.0 && lib.cos(0.0) == 1.0 && lib.atan2(0.0, 0.0) == 0.0
    ensures Bearing(lib, lat, lon, lat, lon) == 0.0
  {
    var p := Radians(lat);
    assert Radians(lon) - Radians(lon) == 0.0;
    assert BearingY(lib, p, 0.0) == 0.0;
    var c, s := lib.cos(p), lib.sin(p);
    assert BearingX(lib, p, p, 0.0) == 0.0 by {
      assert s * c * 1.0 == s * c;
      assert c * s == s * c;
    }
  }

  /** Round-half-to-even of y to an integer, as numpy's rint. */
  function RoundHalfEven(y: real): (n: int)
    ensures Abs(n as real - y) <= 0.5
    ensures y >= 0.0 ==> n >= 0
  {
    var f := y.Floor;
    var frac := y - f as real;
    if frac < 0.5 then f
    else if frac > 0.5 then f + 1
    else if f % 2 == 0 then f
    else f + 1
  }

  /** np.round(x, decimals=2): x scaled by 100, rounded half to even, scaled back. */
  function Round2(x: real): (r: real)
    ensures Abs(r - x) <= 0.005
    ensures x >= 0.0 ==> r >= 0.0
  {
    RoundHalfEven(x * 100.0) as real / 100.0
  }
}
