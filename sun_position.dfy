/** An approximate sun position 50 units from the origin
    (`utils/sunPosition.ts`), meant for day/night lighting; no caller in the
    source uses it yet. It goes through day of year, mean longitude and
    anomaly, ecliptic longitude, declination and hour angle.
    The date enters as the milliseconds since the start of its year and its
    UTC hour and minute; `Math`'s sin, cos, asin and PI are parameters. */
module SunPosition {
  import opened Numerics
  import opened Coordinates

  const MillisPerDay: int := 1000 * 60 * 60 * 24
  /** The sun's distance from the origin, in scene units. */
  const SunDistance: real := 50.0
  /** The obliquity of the ecliptic, in degrees. */
  const Obliquity: real := 23.439

  /** `getDayOfYear`: `Math.floor(diff / 86400000) + 1`, 1 on the first day.
      Dafny's integer division rounds down for a positive divisor, as
      `Math.floor` does, negative differences included. */
  function DayOfYear(diffMillis: int): (n: int)
    ensures (n - 1) * MillisPerDay <= diffMillis < n * MillisPerDay
    ensures diffMillis >= 0 ==> n >= 1
    ensures 0 <= diffMillis < MillisPerDay ==> n == 1
  {
    diffMillis / MillisPerDay + 1
  }

  /** `getUTCHours() + getUTCMinutes() / 60`. */
  function FractionalHour(hours: int, minutes: int): (h: real)
    ensures 0 <= hours <= 23 && 0 <= minutes <= 59 ==> 0.0 <= h < 24.0
    ensures minutes == 0 ==> h == hours as real
  {
    hours as real + minutes as real / 60.0
  }

  /** The hour angle in degrees, 15° per hour away from noon UTC. */
  function HourAngleDegrees(hour: real): (r: real)
    ensures r == 0.0 <==> hour == 12.0
    ensures 0.0 <= hour < 24.0 ==> -180.0 <= r < 180.0
  {
    (hour - 12.0) * 15.0
  }

  /** Mean longitude `L` of the sun, in degrees: the linear term less whole
      turns, and within one turn from the first day of the year on. */
  function MeanLongitude(n: int): (r: real)
    ensures n >= 1 ==> 0.0 <= r < 360.0
    ensures IsMultiple(280.460 + 0.9856474 * n as real - r, 360.0)
  {
    var raw := 280.460 + 0.9856474 * n as real;
    assert n >= 1 ==> raw >= 0.0;
    FMod(raw, 360.0)
  }

  /** Mean anomaly `g` of the sun, in degrees, before conversion to radians;
      reduced like the mean longitude. */
  function MeanAnomalyDegrees(n: int): (r: real)
    ensures n >= 1 ==> 0.0 <= r < 360.0
    ensures IsMultiple(357.528 + 0.9856003 * n as real - r, 360.0)
  {
    var raw := 357.528 + 0.9856003 * n as real;
    assert n >= 1 ==> raw >= 0.0;
    FMod(raw, 360.0)
  }

  /** From the first day of the year on, both reductions land in [0, 360). */
  lemma {:induction false} ReductionsInRange(n: int)
    requires n >= 1
    ensures 0.0 <= MeanLongitude(n) < 360.0
    ensures 0.0 <= MeanAnomalyDegrees(n) < 360.0
  {
  }

  /** The ecliptic longitude λ in degrees: the mean longitude plus the
      equation of centre, which never moves it by more than 1.935°. */
  function EclipticLongitudeDegrees(n: int, m: Math): (r: real)
    ensures Pythagorean(m) ==> MeanLongitude(n) - 1.935 <= r <= MeanLongitude(n) + 1.935
  {
    var g := Radians(MeanAnomalyDegrees(n), m);
    SineBounded(m, g);
    SineBounded(m, 2.0 * g);
    MeanLongitude(n) + 1.915 * m.sin(g) + 0.020 * m.sin(2.0 * g)
  }

  /** The ecliptic longitude λ, in radians, for day `n`. */
  function EclipticLongitude(n: int, m: Math): real
  {
    Radians(EclipticLongitudeDegrees(n, m), m)
  }

  /** sin ε · sin λ, the sine of the declination: never larger in size than
      sin ε, so always inside the domain of asin. */
  function DeclinationSine(n: int, m: Math): (s: real)
    ensures Pythagorean(m) ==> Abs(s) <= Abs(m.sin(Radians(Obliquity, m))) <= 1.0
  {
    var e, l := Radians(Obliquity, m), EclipticLongitude(n, m);
    SineProductBounded(m, e, l);
    m.sin(e) * m.sin(l)
  }

  /** Under sin² + cos² = 1, sin e · sin l is no larger in size than sin e. */
  lemma SineProductBounded(m: Math, e: real, l: real)
    ensures Pythagorean(m) ==> Abs(m.sin(e) * m.sin(l)) <= Abs(m.sin(e)) <= 1.0
  {
    if Pythagorean(m) {
      var x, y := m.sin(e), m.sin(l);
      SineBounded(m, e);
      SineBounded(m, l);
      FactorBounded(x, y);
    }
  }

  /** The declination δ, in radians, for day `n`. Its sine argument lies in
      asin's domain, so its cosine is never negative: the sun never passes
      behind the poles. */
  function Declination(n: int, m: Math): (d: real)
    ensures Pythagorean(m) && CosOfAsinNonNegative(m) ==> m.cos(d) >= 0.0
  {
    var s := DeclinationSine(n, m);
    assert Pythagorean(m) ==> -1.0 <= s <= 1.0;
    m.asin(s)
  }

  /** `calculateSunPosition`: the sun at distance 50 in every direction the
      declination and hour angle give, and at 12:00 UTC straight over the
      meridian (no x component). */
  function CalculateSunPosition(diffMillis: int, hours: int, minutes: int, m: Math): (r: Vec3)
    ensures Pythagorean(m) ==> SquaredLength(r) == SunDistance * SunDistance
    ensures hours == 12 && minutes == 0 && ZeroAngle(m) ==>
      r.x == 0.0 && r.z == SunDistance * m.cos(Declination(DayOfYear(diffMillis), m))
  {
    var declination := Declination(DayOfYear(diffMillis), m);
    var hourAngle := Radians(HourAngleDegrees(FractionalHour(hours, minutes)), m);
    SunComponents(declination, hourAngle, m);
    assert hours == 12 && minutes == 0 ==> hourAngle == 0.0;
    Vec3(SunDistance * m.cos(declination) * m.sin(hourAngle),
         SunDistance * m.sin(declination),
         SunDistance * m.cos(declination) * m.cos(hourAngle))
  }

  /** The facts about the sun vector of one declination and hour angle. */
  lemma SunComponents(declination: real, hourAngle: real, m: Math)
    ensures var v := Vec3(SunDistance * m.cos(declination) * m.sin(hourAngle),
                          SunDistance * m.sin(declination),
                          SunDistance * m.cos(declination) * m.cos(hourAngle));
      && (Pythagorean(m) ==> SquaredLength(v) == SunDistance * SunDistance)
      && (hourAngle == 0.0 && ZeroAngle(m) ==> v.x == 0.0 && v.z == SunDistance * m.cos(declination))
  {
    var a, b, c, d := m.cos(declination), m.sin(declination), m.sin(hourAngle), m.cos(hourAngle);
    if Pythagorean(m) {
      assert b * b + a * a == 1.0;
      assert c * c + d * d == 1.0;
      SphericalNorm(SunDistance, a, b, c, d);
    }
  }

  /** Under sin² + cos² = 1, sine and cosine lie in [-1, 1]. */
  lemma SineBounded(m: Math, a: real)
    ensures Pythagorean(m) ==> -1.0 <= m.sin(a) <= 1.0 && -1.0 <= m.cos(a) <= 1.0
  {
    if Pythagorean(m) {
      UnitBound(m.sin(a), m.cos(a));
      UnitBound(m.cos(a), m.sin(a));
    }
  }

  /** At 12:00 UTC the hour angle vanishes: the sun has no x component and
      is not behind the globe. */
  lemma {:induction false} NoonSun(diffMillis: int, m: Math)
    requires Pythagorean(m) && ZeroAngle(m) && CosOfAsinNonNegative(m)
    ensures CalculateSunPosition(diffMillis, 12, 0, m).x == 0.0
    ensures CalculateSunPosition(diffMillis, 12, 0, m).z >= 0.0
    ensures CalculateSunPosition(diffMillis, 12, 0, m).z == SunDistance * m.cos(Declination(DayOfYear(diffMillis), m))
  {
    var c := m.cos(Declination(DayOfYear(diffMillis), m));
    assert c >= 0.0;
    ScaleLe(SunDistance, 0.0, c);
  }

  /** Under sin² + cos² = 1 the sun stays 50 units from the origin. */
  lemma {:induction false} SunAtFixedDistance(diffMillis: int, hours: int, minutes: int, m: Math)
    requires Pythagorean(m)
    ensures SquaredLength(CalculateSunPosition(diffMillis, hours, minutes, m)) == SunDistance * SunDistance
  {
  }
}
