/** Geographic coordinates to positions on a sphere, distances, and the
    distance-driven fade of city markers (`utils/coordinates.ts`). */
module Coordinates {
  import opened Numerics
  import opened Wrappers

  /** A point of the three.js scene (`THREE.Vector3`). */
  datatype Vec3 = Vec3(x: real, y: real, z: real)

  /** Latitudes are clamped to ±MaxLatitude so that no point sits exactly on a pole. */
  const MaxLatitude: real := 89.99

  function SquaredLength(v: Vec3): (r: real)
    ensures r >= 0.0
  {
    Square(v.x) + Square(v.y) + Square(v.z)
  }

  function ClampLatitude(lat: real): (r: real)
    ensures -MaxLatitude <= r <= MaxLatitude
    ensures -MaxLatitude <= lat <= MaxLatitude ==> r == lat
    ensures lat > MaxLatitude ==> r == MaxLatitude
    ensures lat < -MaxLatitude ==> r == -MaxLatitude
  {
    Max(-MaxLatitude, Min(MaxLatitude, lat))
  }

  lemma ClampIdempotent(lat: real)
    ensures ClampLatitude(ClampLatitude(lat)) == ClampLatitude(lat)
  {
  }

  /** The polar angle in degrees, measured from the north pole: never 0 or
      180, whatever the latitude. */
  function PolarDegrees(lat: real): (r: real)
    ensures 0.01 <= r <= 179.99
    ensures -MaxLatitude <= lat <= MaxLatitude ==> r == 90.0 - lat
  {
    90.0 - ClampLatitude(lat)
  }

  /** The azimuthal angle in degrees; the longitude is not reduced. */
  function AzimuthDegrees(lng: real): real
  {
    lng + 180.0
  }

  function Radians(degrees: real, m: Math): real
  {
    degrees * (m.pi / 180.0)
  }

  /** `latLngToVector3`: the point of latitude `lat` and longitude `lng` on
      the sphere of the given radius about the origin. Under
      sin² + cos² = 1 every converted point lies on that sphere, poles and
      out-of-range latitudes included. */
  function LatLngToVector3(lat: real, lng: real, radius: real, m: Math): (r: Vec3)
    ensures Pythagorean(m) ==> SquaredLength(r) == radius * radius
  {
    var phi := Radians(PolarDegrees(lat), m);
    var theta := Radians(AzimuthDegrees(lng), m);
    PointOnSphere(radius, phi, theta, m);
    Vec3(-radius * m.sin(phi) * m.cos(theta), radius * m.cos(phi), radius * m.sin(phi) * m.sin(theta))
  }

  /** Latitudes are clamped before conversion: a latitude beyond ±89.99°
      gives the same point as the bound itself. */
  lemma {:induction false} LatitudeClamped(lat: real, lng: real, radius: real, m: Math)
    ensures LatLngToVector3(lat, lng, radius, m) == LatLngToVector3(ClampLatitude(lat), lng, radius, m)
    ensures lat >= MaxLatitude ==> LatLngToVector3(lat, lng, radius, m) == LatLngToVector3(MaxLatitude, lng, radius, m)
    ensures lat <= -MaxLatitude ==> LatLngToVector3(lat, lng, radius, m) == LatLngToVector3(-MaxLatitude, lng, radius, m)
  {
    ClampIdempotent(lat);
  }

  /** The point of polar angle `phi` and azimuth `theta` has squared length
      radius² whenever sin² + cos² = 1. */
  lemma PointOnSphere(radius: real, phi: real, theta: real, m: Math)
    ensures Pythagorean(m) ==>
      SquaredLength(Vec3(-radius * m.sin(phi) * m.cos(theta), radius * m.cos(phi), radius * m.sin(phi) * m.sin(theta))) == radius * radius
  {
    if Pythagorean(m) {
      var a, b, c, d := m.sin(phi), m.cos(phi), m.cos(theta), m.sin(theta);
      assert a * a + b * b == 1.0;
      assert d * d + c * c == 1.0;
      MirroredNorm(radius, a, b, c, d);
    }
  }

  /** SphericalNorm for the point with its first coordinate negated. */
  lemma MirroredNorm(r: real, a: real, b: real, c: real, d: real)
    requires a * a + b * b == 1.0
    requires d * d + c * c == 1.0
    ensures SquaredLength(Vec3(-r * a * c, r * b, r * a * d)) == r * r
  {
    SphericalNorm(r, a, b, c, d);
    var x := r * a * c;
    assert -r * a * c == -x;
    assert Square(-x) == x * x;
  }

  /** Adding 360° to the longitude turns the azimuth by exactly one full turn. */
  lemma AzimuthPeriod(lng: real, m: Math)
    ensures AzimuthDegrees(lng + 360.0) == AzimuthDegrees(lng) + 360.0
    ensures Radians(AzimuthDegrees(lng + 360.0), m) == Radians(AzimuthDegrees(lng), m) + 2.0 * m.pi
  {
  }

  /** Longitudes lng and lng + 360 give the same point whenever sin and cos
      repeat after 2π, so the missing longitude reduction is harmless. */
  lemma {:induction false} LongitudePeriodic(lat: real, lng: real, radius: real, m: Math)
    requires Periodic(m)
    ensures LatLngToVector3(lat, lng + 360.0, radius, m) == LatLngToVector3(lat, lng, radius, m)
  {
    var theta := Radians(AzimuthDegrees(lng), m);
    AzimuthPeriod(lng, m);
    assert m.sin(theta + 2.0 * m.pi) == m.sin(theta);
    assert m.cos(theta + 2.0 * m.pi) == m.cos(theta);
  }

  /** The squared Euclidean distance between two points. */
  function DistanceSquared(a: Vec3, b: Vec3): (r: real)
    ensures r >= 0.0
    ensures r == 0.0 <==> a == b
  {
    var dx, dy, dz := a.x - b.x, a.y - b.y, a.z - b.z;
    if dx * dx + dy * dy + dz * dz == 0.0 then
      SumOfSquaresZero(dx, dy, dz);
      assert a == b;
      dx * dx + dy * dy + dz * dz
    else
      dx * dx + dy * dy + dz * dz
  }

  lemma DistanceSquaredSymmetric(a: Vec3, b: Vec3)
    ensures DistanceSquared(a, b) == DistanceSquared(b, a)
  {
    assert (a.x - b.x) * (a.x - b.x) == (b.x - a.x) * (b.x - a.x);
    assert (a.y - b.y) * (a.y - b.y) == (b.y - a.y) * (b.y - a.y);
    assert (a.z - b.z) * (a.z - b.z) == (b.z - a.z) * (b.z - a.z);
  }

  lemma SumOfSquaresZero(dx: real, dy: real, dz: real)
    requires dx * dx + dy * dy + dz * dz == 0.0
    ensures dx == 0.0 && dy == 0.0 && dz == 0.0
  {
    var sx, sy, sz := dx * dx, dy * dy, dz * dz;
    assert sx >= 0.0 && sy >= 0.0 && sz >= 0.0;
    assert sx == 0.0 && sy == 0.0 && sz == 0.0;
    ZeroSquare(dx);
    ZeroSquare(dy);
    ZeroSquare(dz);
  }

  lemma ZeroSquare(d: real)
    requires d * d == 0.0
    ensures d == 0.0
  {
    if d != 0.0 {
      calc {
        0.0;
      <
        d * d;
      ==
        0.0;
      }
    }
  }

  /** `calculateDistance`: the camera's distance to a position, `distanceTo`
      being the square root of the squared distance. */
  function Distance(camera: Vec3, position: Vec3, m: Math): (r: real)
    ensures SqrtSpec(m) ==> r >= 0.0 && r * r == DistanceSquared(camera, position)
    ensures SqrtSpec(m) ==> (r == 0.0 <==> camera == position)
  {
    var d := DistanceSquared(camera, position);
    SqrtOfZero(d, m);
    m.sqrt(d)
  }

  /** A correct square root is zero exactly at zero. */
  lemma SqrtOfZero(d: real, m: Math)
    requires d >= 0.0
    ensures SqrtSpec(m) ==> (m.sqrt(d) == 0.0 <==> d == 0.0)
  {
    if SqrtSpec(m) {
      var s := m.sqrt(d);
      assert s * s == d;
      if d == 0.0 {
        ZeroSquare(s);
      }
    }
  }

  /** With a correct square root the distance is a metric's distance:
      non-negative, symmetric, zero exactly at coincidence, and its square
      is the squared distance. */
  lemma DistanceIsMetric(a: Vec3, b: Vec3, m: Math)
    requires SqrtSpec(m)
    ensures Distance(a, b, m) >= 0.0
    ensures Distance(a, b, m) == Distance(b, a, m)
    ensures Distance(a, b, m) * Distance(a, b, m) == DistanceSquared(a, b)
    ensures Distance(a, b, m) == 0.0 <==> a == b
  {
    DistanceSquaredSymmetric(a, b);
  }

  /** Comparing a distance against a bound is comparing the squared distance
      against the squared bound. */
  lemma {:induction false} DistanceExceeds(a: Vec3, b: Vec3, bound: real, m: Math)
    requires SqrtSpec(m) && bound >= 0.0
    ensures Distance(a, b, m) > bound <==> DistanceSquared(a, b) > bound * bound
  {
    DistanceIsMetric(a, b, m);
    SquareMonotone(bound, Distance(a, b, m));
  }

  /** `calculateOpacity`: 1 nearer than `minDistance`, 0.2 beyond
      `maxDistance`, and a straight line from 1 down to 0.2 in between.
      When all three arguments are equal the source divides 0 by 0 and
      answers NaN; that answer is `None` here, and it is the only one. */
  function CalculateOpacity(distance: real, minDistance: real, maxDistance: real): (r: Option<real>)
    ensures r.None? <==> distance == minDistance && minDistance == maxDistance
    ensures distance < minDistance ==> r == Some(1.0)
    ensures minDistance <= distance && distance > maxDistance ==> r == Some(0.2)
    ensures minDistance < maxDistance ==> r.Some? && 0.2 <= r.value <= 1.0
    ensures minDistance < maxDistance && distance == minDistance ==> r == Some(1.0)
    ensures minDistance < maxDistance && distance == maxDistance ==> r == Some(0.2)
  {
    if distance < minDistance then Some(1.0)
    else if distance > maxDistance then Some(0.2)
    else if minDistance == maxDistance then None
    else
      var normalized := (distance - minDistance) / (maxDistance - minDistance);
      FractionBounds(distance - minDistance, maxDistance - minDistance);
      assert distance == maxDistance ==> normalized == 1.0;
      Some(1.0 - normalized * 0.8)
  }

  /** The fade never brightens as the camera moves away. */
  lemma {:induction false} OpacityMonotone(d1: real, d2: real, minDistance: real, maxDistance: real)
    requires minDistance < maxDistance && d1 <= d2
    ensures CalculateOpacity(d1, minDistance, maxDistance).value >= CalculateOpacity(d2, minDistance, maxDistance).value
  {
    if minDistance <= d1 && d2 <= maxDistance {
      QuotientMonotone(d1 - minDistance, d2 - minDistance, maxDistance - minDistance);
    }
  }

  /** The fade of the city markers, which pass 8 and 20, at a few distances. */
  lemma OpacityExamples()
    ensures CalculateOpacity(5.0, 8.0, 20.0) == Some(1.0)
    ensures CalculateOpacity(8.0, 8.0, 20.0) == Some(1.0)
    ensures CalculateOpacity(14.0, 8.0, 20.0) == Some(0.6)
    ensures CalculateOpacity(20.0, 8.0, 20.0) == Some(0.2)
    ensures CalculateOpacity(30.0, 8.0, 20.0) == Some(0.2)
  {
  }
}
