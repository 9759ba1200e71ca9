/** The external collaborators of the engine, as parameters: the ephemeris
    library (the `ephem` bodies and `ephem.Ecliptic`), the trigonometric
    functions `np.cos` and `np.sin`, and the polar-to-Cartesian projection
    written out at lightlag/app.py lines 30-32, 71-72 and 82-83. */
module Sky {

  /** An ephemeris date: `ephem.Date` is a float count of days. */
  type Instant = real

  /** The ephemeris objects the program creates: the seven planets of the
      catalog and the Sun, which it uses to locate the Earth. */
  datatype Body = Sun | Mercury | Venus | Mars | Jupiter | Saturn | Uranus | Neptune

  /** What `body.compute(t)` makes available about a body at instant `t`.
      Distances are in AU, angles in radians. */
  datatype Ephemeris = Ephemeris(
    earthDistance: (Body, Instant) -> real,  // body.earth_distance
    sunDistance: (Body, Instant) -> real,    // body.sun_distance
    hlon: (Body, Instant) -> real,           // body.hlon, heliocentric ecliptic longitude
    eclipticLon: (Body, Instant) -> real)    // ephem.Ecliptic(body).lon, geocentric

  /** `np.cos` and `np.sin`, left uninterpreted. */
  datatype Trig = Trig(cos: real -> real, sin: real -> real)

  datatype Point = Point(x: real, y: real)

  /** A plotted position, the tuple `(name, x, y)` of the program. */
  datatype NamedPoint = NamedPoint(name: string, x: real, y: real)

  /** `np.pi`, as the decimal the double prints as. */
  const Pi: real := 3.141592653589793

  /** The projection convention: x = r cos(theta), y = r sin(theta). */
  function Project(trig: Trig, r: real, theta: real): (p: Point)
    ensures p.x * trig.sin(theta) == p.y * trig.cos(theta)
    ensures r == 0.0 ==> p == Point(0.0, 0.0)
  {
    Point(r * trig.cos(theta), r * trig.sin(theta))
  }

  /** Hypotheses about a `Trig`; the model never assumes them, the lemmas
      below only take them as premises. Real cosine and sine satisfy the
      first two. They do not satisfy the third exactly, because `Pi` is a
      decimal slightly below the real pi; it holds for a `Trig` whose angle
      unit is scaled so that `Pi` is a half-turn, and for `np.cos` and
      `np.sin` only up to rounding. */
  ghost predicate Pythagorean(trig: Trig)
  {
    forall theta :: trig.cos(theta) * trig.cos(theta) + trig.sin(theta) * trig.sin(theta) == 1.0
  }

  ghost predicate UnitBounded(trig: Trig)
  {
    forall theta :: -1.0 <= trig.cos(theta) <= 1.0 && -1.0 <= trig.sin(theta) <= 1.0
  }

  ghost predicate HalfTurnOdd(trig: Trig)
  {
    forall theta :: trig.cos(theta + Pi) == -trig.cos(theta) && trig.sin(theta + Pi) == -trig.sin(theta)
  }

  /** Where cos^2 + sin^2 = 1, the projected point lies at distance r from the origin. */
  lemma ProjectionKeepsRadius(trig: Trig, r: real, theta: real)
    requires Pythagorean(trig)
    ensures Project(trig, r, theta).x * Project(trig, r, theta).x
          + Project(trig, r, theta).y * Project(trig, r, theta).y == r * r
  {
  }

  /** Where |cos| and |sin| are at most 1, each coordinate lies within [-r, r]. */
  lemma ProjectionWithinRadius(trig: Trig, r: real, theta: real, bound: real)
    requires UnitBounded(trig)
    requires 0.0 <= r <= bound
    ensures -bound <= Project(trig, r, theta).x <= bound
    ensures -bound <= Project(trig, r, theta).y <= bound
  {
    var c, s := trig.cos(theta), trig.sin(theta);
    assert Project(trig, r, theta) == Point(r * c, r * s);
    MulBounded(r, c);
    MulBounded(r, s);
  }

  lemma MulBounded(r: real, c: real)
    requires r >= 0.0 && -1.0 <= c <= 1.0
    ensures -r <= r * c <= r
  {
  }

  /** Where rotating by pi negates cos and sin, a half-turn negates the
      projected point: the Earth seen from the Sun is the Sun seen from the
      Earth, reflected through the origin. */
  lemma HalfTurnNegates(trig: Trig, r: real, theta: real)
    requires HalfTurnOdd(trig)
    ensures Project(trig, r, theta + Pi) == Point(-Project(trig, r, theta).x, -Project(trig, r, theta).y)
  {
  }
}
