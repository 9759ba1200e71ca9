/** The unit conversions behind the distance and light-delay columns of the
    table (lightlag/app.py, lines 10-11, 22-23 and 35-36). Floating-point
    values are modelled as exact reals. */
module Units {

  /** Kilometres in one astronomical unit. */
  const AuKm: real := 149597870.7
  /** Speed of light in km/s, an integer in the program. */
  const SpeedOfLightKmPerS: real := 299792.0

  /** The distance in km: dividing back by the AU length recovers the AU. */
  function DistanceKm(au: real): (km: real)
    ensures km / AuKm == au
  {
    au * AuKm
  }

  /** The same distance counted in millions of km. */
  function DistanceMillionKm(au: real): (m: real)
    ensures m * 1000000.0 == DistanceKm(au)
  {
    DistanceKm(au) / 1000000.0
  }

  /** Light-travel time, in seconds, across `au` astronomical units. */
  function DelaySeconds(au: real): (s: real)
    ensures s * SpeedOfLightKmPerS == DistanceKm(au)
  {
    DistanceKm(au) / SpeedOfLightKmPerS
  }

  /** The same light-travel time in minutes. */
  function DelayMinutes(au: real): (m: real)
    ensures m * 60.0 == DelaySeconds(au)
  {
    DelaySeconds(au) / 60.0
  }

  /** The whole conversion chain, written out in terms of the distance in AU. */
  lemma ConversionChain(au: real)
    ensures DistanceMillionKm(au) * 1000000.0 == DistanceKm(au)
    ensures DelaySeconds(au) == au * AuKm / SpeedOfLightKmPerS
    ensures DelaySeconds(au) * SpeedOfLightKmPerS == DistanceKm(au)
    ensures DelayMinutes(au) * 60.0 == DelaySeconds(au)
    ensures DelayMinutes(au) == au * AuKm / (SpeedOfLightKmPerS * 60.0)
  {
  }

  /** No derived column is negative when the distance is not. */
  lemma DelayNonNegative(au: real)
    requires au >= 0.0
    ensures DistanceKm(au) >= 0.0 && DistanceMillionKm(au) >= 0.0
    ensures DelaySeconds(au) >= 0.0 && DelayMinutes(au) >= 0.0
  {
  }

  /** Light delay orders bodies exactly as their distance does, in both directions. */
  lemma DelayStrictlyIncreasing(a: real, b: real)
    ensures a < b <==> DelaySeconds(a) < DelaySeconds(b)
    ensures a < b <==> DelayMinutes(a) < DelayMinutes(b)
    ensures a == b <==> DelaySeconds(a) == DelaySeconds(b)
  {
  }

  /** A body 0.6 AU away (a fixture value, not an ephemeris value):
      89758722.42 km, about 89.76 million km, 299.40 s and 4.99 min. */
  lemma MarsFixture()
    ensures DistanceKm(0.6) == 89758722.42
    ensures DistanceMillionKm(0.6) == 89.75872242
    ensures 299.40 < DelaySeconds(0.6) < 299.41
    ensures 4.99 < DelayMinutes(0.6) < 5.0
  {
  }
}
