/** The distance and light-delay table, `compute_planet_distances`
    (lightlag/app.py, lines 14-47). */
module Geocentric {
  import opened Sky
  import opened Units
  import opened Catalog

  /** One entry of `result`: the row dictionary, with the numbers unformatted. */
  datatype Row = Row(
    planet: string,
    distanceAU: real,
    distanceMillionKm: real,
    delaySeconds: real,
    delayMinutes: real,
    position: Point)

  /** What one pass of the loop derives for catalog entry `e` at instant `t`. */
  function Observe(eph: Ephemeris, trig: Trig, t: Instant, e: CatalogEntry): (row: Row)
    ensures row.planet == e.name && row.distanceAU == eph.earthDistance(e.body, t)
    ensures row.distanceMillionKm * 1000000.0 == row.distanceAU * AuKm
    ensures row.delaySeconds * SpeedOfLightKmPerS == row.distanceAU * AuKm
    ensures row.delayMinutes * 60.0 == row.delaySeconds
    ensures row.position == Project(trig, row.distanceAU, eph.eclipticLon(e.body, t))
  {
    var au := eph.earthDistance(e.body, t);
    Row(e.name, au, DistanceMillionKm(au), DelaySeconds(au), DelayMinutes(au),
        Project(trig, au, eph.eclipticLon(e.body, t)))
  }

  /** The rows for the whole catalog, in catalog order. */
  function DistanceTable(eph: Ephemeris, trig: Trig, t: Instant): (rows: seq<Row>)
    ensures |rows| == |Planets|
    ensures forall i :: 0 <= i < |rows| ==>
              rows[i].planet == Planets[i].name && rows[i].distanceAU == eph.earthDistance(Planets[i].body, t)
  {
    seq(|Planets|, i requires 0 <= i < |Planets| => Observe(eph, trig, t, Planets[i]))
  }

  /** The entry of `positions` that accompanies a row. */
  function PositionOf(row: Row): NamedPoint
  {
    NamedPoint(row.planet, row.position.x, row.position.y)
  }

  function GeoPositions(rows: seq<Row>): seq<NamedPoint>
  {
    seq(|rows|, i requires 0 <= i < |rows| => PositionOf(rows[i]))
  }

  method ComputePlanetDistances(eph: Ephemeris, trig: Trig, currentTime: Instant)
    returns (result: seq<Row>, positions: seq<NamedPoint>)
    ensures result == DistanceTable(eph, trig, currentTime)
    ensures positions == GeoPositions(result)
  {
    result := [];
    positions := [];
    for i := 0 to |Planets|
      invariant |result| == |positions| == i
      invariant forall j :: 0 <= j < i ==> result[j] == Observe(eph, trig, currentTime, Planets[j])
      invariant forall j :: 0 <= j < i ==> positions[j] == PositionOf(result[j])
    {
      var planetName, planet := Planets[i].name, Planets[i].body;
      var distanceAU := eph.earthDistance(planet, currentTime);
      var distanceKm := distanceAU * AuKm;
      var distanceMillionKm := distanceKm / 1000000.0;
      var longitudeRad := eph.eclipticLon(planet, currentTime);
      var r := distanceAU;
      var x := r * trig.cos(longitudeRad);
      var y := r * trig.sin(longitudeRad);
      var delaySeconds := distanceKm / SpeedOfLightKmPerS;
      var delayMinutes := delaySeconds / 60.0;
      var row := Row(planetName, distanceAU, distanceMillionKm, delaySeconds, delayMinutes, Point(x, y));
      assert row == Observe(eph, trig, currentTime, Planets[i]);
      result := result + [row];
      positions := positions + [NamedPoint(planetName, x, y)];
    }
    assert result == DistanceTable(eph, trig, currentTime);
  }

  /** One row per catalog body, in catalog order, and never the Earth. */
  lemma TableFollowsCatalog(eph: Ephemeris, trig: Trig, t: Instant)
    ensures |DistanceTable(eph, trig, t)| == |GeoPositions(DistanceTable(eph, trig, t))| == |Planets|
    ensures forall i :: 0 <= i < |Planets| ==>
              DistanceTable(eph, trig, t)[i].planet == GeoPositions(DistanceTable(eph, trig, t))[i].name == Planets[i].name
    ensures forall i :: 0 <= i < |Planets| ==> DistanceTable(eph, trig, t)[i].planet != "Earth"
  {
  }

  /** Every row is the conversion chain applied to the body's Earth distance,
      and its position is projected from that same distance and the body's
      geocentric ecliptic longitude. */
  lemma RowFacts(eph: Ephemeris, trig: Trig, t: Instant, i: nat)
    requires i < |Planets|
    ensures var row := DistanceTable(eph, trig, t)[i];
      && row.distanceAU == eph.earthDistance(Planets[i].body, t)
      && row.distanceMillionKm * 1000000.0 == row.distanceAU * AuKm
      && row.delaySeconds == row.distanceAU * AuKm / SpeedOfLightKmPerS
      && row.delayMinutes == row.delaySeconds / 60.0
      && row.position.x == row.distanceAU * trig.cos(eph.eclipticLon(Planets[i].body, t))
      && row.position.y == row.distanceAU * trig.sin(eph.eclipticLon(Planets[i].body, t))
  {
  }

  /** Rows that are further away have the longer light delay, and conversely. */
  lemma DelayOrdersRows(eph: Ephemeris, trig: Trig, t: Instant, i: nat, j: nat)
    requires i < |Planets| && j < |Planets|
    ensures DistanceTable(eph, trig, t)[i].distanceAU < DistanceTable(eph, trig, t)[j].distanceAU
        <==> DistanceTable(eph, trig, t)[i].delaySeconds < DistanceTable(eph, trig, t)[j].delaySeconds
  {
  }
}
