/** The computation part of `show_planet_plot` (lightlag/app.py, lines
    50-96): heliocentric positions of the selected planets, the Earth
    inferred from the Sun, and the scale of the plot window. Rendering is
    not modelled. */
module Heliocentric {
  import opened Optional
  import opened Sky
  import opened Catalog

  /** What the plot is drawn from: the `positions` list, `max_r` and `lim`. */
  datatype PlotData = PlotData(positions: seq<NamedPoint>, maxR: real, lim: real)

  /** Indices of the catalog entries among the first `k` whose name is
      selected: exactly those, each once, in catalog order. */
  function SelectedIndices(selected: seq<string>, k: nat): (ix: seq<nat>)
    requires k <= |Planets|
    ensures forall j :: 0 <= j < |ix| ==> ix[j] < k
    ensures forall j, j' :: 0 <= j < j' < |ix| ==> ix[j] < ix[j']
    ensures forall i :: 0 <= i < k ==> (i in ix <==> Planets[i].name in selected)
    ensures |ix| <= k
    ensures selected == [] ==> ix == []
  {
    if k == 0 then []
    else SelectedIndices(selected, k - 1) + (if Planets[k - 1].name in selected then [k - 1] else [])
  }

  /** A planet's heliocentric position: radius `sun_distance`, angle `hlon`. */
  function PlanetPoint(eph: Ephemeris, trig: Trig, t: Instant, e: CatalogEntry): (p: NamedPoint)
    ensures p.name == e.name
    ensures p.x * trig.sin(eph.hlon(e.body, t)) == p.y * trig.cos(eph.hlon(e.body, t))
    ensures Pythagorean(trig) ==> p.x * p.x + p.y * p.y == eph.sunDistance(e.body, t) * eph.sunDistance(e.body, t)
  {
    var p := Project(trig, eph.sunDistance(e.body, t), eph.hlon(e.body, t));
    NamedPoint(e.name, p.x, p.y)
  }

  /** The Earth is not queried: its radius is the Sun's Earth distance and
      its angle the Sun's geocentric ecliptic longitude turned by pi. */
  function EarthRadius(eph: Ephemeris, t: Instant): real
  {
    eph.earthDistance(Sun, t)
  }

  function EarthAngle(eph: Ephemeris, t: Instant): real
  {
    eph.eclipticLon(Sun, t) + Pi
  }

  function EarthPoint(eph: Ephemeris, trig: Trig, t: Instant): (p: NamedPoint)
    ensures p.name == "Earth"
    ensures Pythagorean(trig) ==> p.x * p.x + p.y * p.y == EarthRadius(eph, t) * EarthRadius(eph, t)
    ensures HalfTurnOdd(trig) ==>
              var sun := Project(trig, EarthRadius(eph, t), eph.eclipticLon(Sun, t));
              p.x == -sun.x && p.y == -sun.y
  {
    var p := Project(trig, EarthRadius(eph, t), EarthAngle(eph, t));
    NamedPoint("Earth", p.x, p.y)
  }

  /** The positions the loop has appended after visiting the first `k`
      catalog entries. */
  function PlanetPoints(eph: Ephemeris, trig: Trig, t: Instant, selected: seq<string>, k: nat): seq<NamedPoint>
    requires k <= |Planets|
  {
    if k == 0 then []
    else
      PlanetPoints(eph, trig, t, selected, k - 1)
      + (if Planets[k - 1].name in selected then [PlanetPoint(eph, trig, t, Planets[k - 1])] else [])
  }

  /** The radii folded into `max_r` after visiting the first `k` entries. */
  function PlanetRadii(eph: Ephemeris, t: Instant, selected: seq<string>, k: nat): seq<real>
    requires k <= |Planets|
  {
    if k == 0 then []
    else
      PlanetRadii(eph, t, selected, k - 1)
      + (if Planets[k - 1].name in selected then [eph.sunDistance(Planets[k - 1].body, t)] else [])
  }

  /** The positions the plot shows for selection `selected` at instant `t`. */
  function HelioPositions(eph: Ephemeris, trig: Trig, t: Instant, selected: seq<string>): (p: seq<NamedPoint>)
    ensures |p| <= |Planets| + 1
    ensures forall j :: 0 <= j < |p| ==> p[j].name in selected
    ensures selected == [] ==> p == []
  {
    PlanetPointsFollowIndices(eph, trig, t, selected, |Planets|);
    PlanetPoints(eph, trig, t, selected, |Planets|)
      + (if "Earth" in selected then [EarthPoint(eph, trig, t)] else [])
  }

  /** The radius of each of those positions, in the same order. */
  function PlottedRadii(eph: Ephemeris, t: Instant, selected: seq<string>): seq<real>
  {
    PlanetRadii(eph, t, selected, |Planets|)
      + (if "Earth" in selected then [EarthRadius(eph, t)] else [])
  }

  /** The appended planets are those of the selected indices, one for one. */
  lemma {:induction false} PlanetPointsFollowIndices(eph: Ephemeris, trig: Trig, t: Instant, selected: seq<string>, k: nat)
    requires k <= |Planets|
    ensures var ix := SelectedIndices(selected, k);
      && |PlanetPoints(eph, trig, t, selected, k)| == |PlanetRadii(eph, t, selected, k)| == |ix|
      && forall j :: 0 <= j < |ix| ==>
           PlanetPoints(eph, trig, t, selected, k)[j] == PlanetPoint(eph, trig, t, Planets[ix[j]]) &&
           PlanetRadii(eph, t, selected, k)[j] == eph.sunDistance(Planets[ix[j]].body, t)
  {
    PointsFollowIndices(eph, trig, t, selected, k);
    RadiiFollowIndices(eph, t, selected, k);
  }

  /** The appended positions are those of the selected indices, one for one. */
  lemma {:induction false} PointsFollowIndices(eph: Ephemeris, trig: Trig, t: Instant, selected: seq<string>, k: nat)
    requires k <= |Planets|
    ensures var ix := SelectedIndices(selected, k);
      && |PlanetPoints(eph, trig, t, selected, k)| == |ix|
      && forall j :: 0 <= j < |ix| ==>
           PlanetPoints(eph, trig, t, selected, k)[j] == PlanetPoint(eph, trig, t, Planets[ix[j]])
  {
    if k > 0 {
      PointsFollowIndices(eph, trig, t, selected, k - 1);
    }
  }

  /** The folded radii are the `sun_distance`s of the selected indices, one for one. */
  lemma {:induction false} RadiiFollowIndices(eph: Ephemeris, t: Instant, selected: seq<string>, k: nat)
    requires k <= |Planets|
    ensures var ix := SelectedIndices(selected, k);
      && |PlanetRadii(eph, t, selected, k)| == |ix|
      && forall j :: 0 <= j < |ix| ==>
           PlanetRadii(eph, t, selected, k)[j] == eph.sunDistance(Planets[ix[j]].body, t)
  {
    if k > 0 {
      RadiiFollowIndices(eph, t, selected, k - 1);
    }
  }

  /** `m` is the largest of `radii` and 1.0. */
  ghost predicate IsFlooredMax(m: real, radii: seq<real>)
  {
    && m >= 1.0
    && (forall j :: 0 <= j < |radii| ==> radii[j] <= m)
    && (m == 1.0 || m in radii)
  }

  /** Folding one more radius in with `max` keeps `max_r` the floored maximum. */
  lemma FlooredMaxStep(m: real, radii: seq<real>, r: real)
    requires IsFlooredMax(m, radii)
    ensures IsFlooredMax(if r > m then r else m, radii + [r])
  {
  }

  /** The half-width of the square plot window: `max_r` plus 15% padding. */
  function PlotLimit(maxR: real): (lim: real)
    ensures lim == 1.15 * maxR
    ensures maxR > 0.0 ==> maxR < lim
  {
    maxR + 0.15 * maxR
  }

  method HeliocentricPlot(eph: Ephemeris, trig: Trig, currentTime: Instant, selected: seq<string>)
    returns (plot: Option<PlotData>)
    ensures plot.None? <==> selected == []
    ensures plot.Some? ==> plot.value.positions == HelioPositions(eph, trig, currentTime, selected)
    ensures plot.Some? ==> IsFlooredMax(plot.value.maxR, PlottedRadii(eph, currentTime, selected))
    ensures plot.Some? ==> plot.value.lim == PlotLimit(plot.value.maxR)
  {
    if selected == [] {
      return None;
    }
    var positions: seq<NamedPoint> := [];
    var maxR := 1.0;
    ghost var radii: seq<real> := [];
    for i := 0 to |Planets|
      invariant positions == PlanetPoints(eph, trig, currentTime, selected, i)
      invariant radii == PlanetRadii(eph, currentTime, selected, i)
      invariant IsFlooredMax(maxR, radii)
    {
      var planetName, planet := Planets[i].name, Planets[i].body;
      if planetName in selected {
        var r := eph.sunDistance(planet, currentTime);
        FlooredMaxStep(maxR, radii, r);
        maxR := if r > maxR then r else maxR;
        var lon := eph.hlon(planet, currentTime);
        var p := Project(trig, r, lon);
        var x, y := p.x, p.y;
        positions := positions + [NamedPoint(planetName, x, y)];
        radii := radii + [r];
      }
    }
    if "Earth" in selected {
      var sun := Sun;
      var sunLon := eph.eclipticLon(sun, currentTime);
      var earthR := eph.earthDistance(sun, currentTime);
      var earthLon := sunLon + Pi;
      var earthP := Project(trig, earthR, earthLon);
      var earthX, earthY := earthP.x, earthP.y;
      positions := positions + [NamedPoint("Earth", earthX, earthY)];
      FlooredMaxStep(maxR, radii, earthR);
      maxR := if earthR > maxR then earthR else maxR;
      radii := radii + [earthR];
    }
    var padding := 0.15 * maxR;
    var lim := maxR + padding;
    plot := Some(PlotData(positions, maxR, lim));
  }

  /** The plot holds exactly the selected catalog planets, each once and in
      catalog order, at radius `sun_distance` and angle `hlon`, followed by
      the Earth when and only when it is selected. */
  lemma HelioLayout(eph: Ephemeris, trig: Trig, t: Instant, selected: seq<string>)
    ensures var ix := SelectedIndices(selected, |Planets|);
            var ps := HelioPositions(eph, trig, t, selected);
      && |ps| == |PlottedRadii(eph, t, selected)| == |ix| + (if "Earth" in selected then 1 else 0)
      && (forall i :: 0 <= i < |Planets| ==> (i in ix <==> Planets[i].name in selected))
      && (forall j, j' :: 0 <= j < j' < |ix| ==> ix[j] < ix[j'])
      && (forall j :: 0 <= j < |ix| ==>
            ps[j] == PlanetPoint(eph, trig, t, Planets[ix[j]]) &&
            PlottedRadii(eph, t, selected)[j] == eph.sunDistance(Planets[ix[j]].body, t))
      && ("Earth" in selected ==> ps[|ix|] == EarthPoint(eph, trig, t))
  {
    PlanetPointsFollowIndices(eph, trig, t, selected, |Planets|);
  }

  /** "Earth" is among the plotted names if and only if it is selected, and
      then it is the last one. */
  lemma EarthLastIffSelected(eph: Ephemeris, trig: Trig, t: Instant, selected: seq<string>)
    ensures var ps := HelioPositions(eph, trig, t, selected);
      && ((exists j :: 0 <= j < |ps| && ps[j].name == "Earth") <==> "Earth" in selected)
      && ("Earth" in selected ==> ps[|ps| - 1] == EarthPoint(eph, trig, t))
  {
    CatalogFacts();
    HelioLayout(eph, trig, t, selected);
    var ix := SelectedIndices(selected, |Planets|);
    var ps := HelioPositions(eph, trig, t, selected);
    forall j | 0 <= j < |ix|
      ensures ps[j].name != "Earth"
    {
      assert ps[j] == PlanetPoint(eph, trig, t, Planets[ix[j]]);
    }
    if "Earth" in selected {
      assert ps[|ix|].name == "Earth";
    }
  }

  /** The scale never falls below 1.0 and covers every plotted radius, so the
      window is at least 1.15 wide on each side. */
  lemma LimitBounds(m: real, radii: seq<real>)
    requires IsFlooredMax(m, radii)
    ensures PlotLimit(m) == 1.15 * m
    ensures PlotLimit(m) >= 1.15
    ensures forall j :: 0 <= j < |radii| ==> radii[j] < PlotLimit(m)
  {
  }

  /** The floor and the maximum determine `max_r` uniquely. */
  lemma FlooredMaxUnique(m1: real, m2: real, radii: seq<real>)
    requires IsFlooredMax(m1, radii) && IsFlooredMax(m2, radii)
    ensures m1 == m2
  {
  }

  /** Where |cos| and |sin| are at most 1 and the oracle's distances are not
      negative, every plotted point lies inside the window [-lim, lim]^2. */
  lemma PointsInsideWindow(eph: Ephemeris, trig: Trig, t: Instant, selected: seq<string>, m: real)
    requires UnitBounded(trig)
    requires forall b :: eph.sunDistance(b, t) >= 0.0 && eph.earthDistance(b, t) >= 0.0
    requires IsFlooredMax(m, PlottedRadii(eph, t, selected))
    ensures forall p :: p in HelioPositions(eph, trig, t, selected) ==>
              -PlotLimit(m) <= p.x <= PlotLimit(m) && -PlotLimit(m) <= p.y <= PlotLimit(m)
  {
    var ix := SelectedIndices(selected, |Planets|);
    var ps := HelioPositions(eph, trig, t, selected);
    var radii := PlottedRadii(eph, t, selected);
    HelioLayout(eph, trig, t, selected);
    forall p | p in ps
      ensures -PlotLimit(m) <= p.x <= PlotLimit(m) && -PlotLimit(m) <= p.y <= PlotLimit(m)
    {
      var j :| 0 <= j < |ps| && ps[j] == p;
      if j < |ix| {
        var e := Planets[ix[j]];
        assert radii[j] <= m;
        ProjectionWithinRadius(trig, eph.sunDistance(e.body, t), eph.hlon(e.body, t), PlotLimit(m));
      } else {
        assert radii[j] == EarthRadius(eph, t) <= m;
        ProjectionWithinRadius(trig, EarthRadius(eph, t), EarthAngle(eph, t), PlotLimit(m));
      }
    }
  }

  /** A selection of Mercury alone, at a fixture distance of 0.39 AU from the
      Sun, is still drawn at the minimum scale: `max_r` is 1.0, not 0.39. */
  lemma MercuryOnlyUsesFloor(eph: Ephemeris, t: Instant, m: real)
    requires eph.sunDistance(Mercury, t) == 0.39
    requires IsFlooredMax(m, PlottedRadii(eph, t, ["Mercury"]))
    ensures m == 1.0
  {
    HelioLayout(eph, Trig(x => 1.0, x => 0.0), t, ["Mercury"]);
    var radii := PlottedRadii(eph, t, ["Mercury"]);
    MercuryIndices();
    assert forall j :: 0 <= j < |radii| ==> radii[j] == 0.39;
  }

  lemma MercuryIndices()
    ensures forall j :: 0 <= j < |SelectedIndices(["Mercury"], |Planets|)| ==> SelectedIndices(["Mercury"], |Planets|)[j] == 0
  {
    var ix := SelectedIndices(["Mercury"], |Planets|);
    assert forall i :: 0 < i < |Planets| ==> Planets[i].name != "Mercury";
    forall j | 0 <= j < |ix|
      ensures ix[j] == 0
    {
      assert Planets[ix[j]].name in ["Mercury"];
    }
  }

  /** The Earth's inferred position is its direction from the Sun: where
      rotating by pi negates cos and sin, it is the Sun's geocentric
      projection reflected through the origin. */
  lemma EarthOppositeSun(eph: Ephemeris, trig: Trig, t: Instant)
    requires HalfTurnOdd(trig)
    ensures var sun := Project(trig, eph.earthDistance(Sun, t), eph.eclipticLon(Sun, t));
            EarthPoint(eph, trig, t) == NamedPoint("Earth", -sun.x, -sun.y)
  {
  }
}
