/** The refresh state of the window: the rows of the results table, the
    globals `plot_positions` and `plot_current_time`, and whether the
    "Show Plot" button is enabled. `update_from_date_field`
    (lightlag/app.py, lines 206-234) is the only operation that changes it;
    the button starts out disabled (line 246) and runs `show_planet_plot`. */
module Window {
  import opened Optional
  import opened Sky
  import opened Catalog
  import opened Geocentric
  import opened Heliocentric
  import opened DateField

  /** The five values the table shows for a row (lines 222-228). */
  datatype TableEntry = TableEntry(
    planet: string,
    distanceAU: real,
    distanceMillionKm: real,
    delaySeconds: real,
    delayMinutes: real)

  function EntryOf(row: Row): TableEntry
  {
    TableEntry(row.planet, row.distanceAU, row.distanceMillionKm, row.delaySeconds, row.delayMinutes)
  }

  function Entries(rows: seq<Row>): seq<TableEntry>
  {
    seq(|rows|, i requires 0 <= i < |rows| => EntryOf(rows[i]))
  }

  class LightLagWindow {
    /** The ephemeris library, `np.cos`/`np.sin`, and `strptime` with
        `ephem.Date`: fixed for the life of the window. */
    const eph: Ephemeris
    const trig: Trig
    const parseDate: string -> Option<Instant>

    /** The treeview's rows, top to bottom. */
    var rows: seq<TableEntry>
    var plotPositions: seq<NamedPoint>
    /** `plot_current_time`; `None` while the global is still unbound. */
    var plotTime: Option<Instant>
    var plotEnabled: bool

    /** The button is enabled exactly when a date has been accepted, and the
        table and stored positions always belong to the stored date. */
    ghost predicate Valid()
      reads this
    {
      && plotEnabled == plotTime.Some?
      && (plotTime.None? ==> rows == [] && plotPositions == [])
      && (plotTime.Some? ==>
            rows == Entries(DistanceTable(eph, trig, plotTime.value)) &&
            plotPositions == GeoPositions(DistanceTable(eph, trig, plotTime.value)))
    }

    /** The window as built, before the first date is entered. */
    constructor (eph: Ephemeris, trig: Trig, parseDate: string -> Option<Instant>)
      ensures Valid()
      ensures this.eph == eph && this.trig == trig && this.parseDate == parseDate
      ensures rows == [] && plotPositions == [] && plotTime == None && !plotEnabled
    {
      this.eph := eph;
      this.trig := trig;
      this.parseDate := parseDate;
      rows := [];
      plotPositions := [];
      plotTime := None;
      plotEnabled := false;
    }

    /** Recompute everything for the date typed into the entry, or do
        nothing if the gate rejects it. */
    method UpdateFromDateField(entryText: string)
      requires Valid()
      modifies this
      ensures Valid()
      ensures DateGate(parseDate, entryText).None? ==>
                rows == old(rows) && plotPositions == old(plotPositions) &&
                plotTime == old(plotTime) && plotEnabled == old(plotEnabled)
      ensures DateGate(parseDate, entryText).Some? ==>
                plotTime == DateGate(parseDate, entryText) && plotEnabled &&
                rows == Entries(DistanceTable(eph, trig, plotTime.value)) &&
                plotPositions == GeoPositions(DistanceTable(eph, trig, plotTime.value))
    {
      var dateStr := Strip(entryText);
      if |dateStr| != 10 {
        return;
      }
      var dateObj := parseDate(dateStr);
      if dateObj.None? {
        return;
      }
      var currentTime := dateObj.value;
      assert DateGate(parseDate, entryText) == Some(currentTime);
      var results, positions := ComputePlanetDistances(eph, trig, currentTime);

      // Delete every existing row.
      while rows != []
        decreases |rows|
      {
        rows := rows[1..];
      }

      // Insert one row per result, in order.
      for k := 0 to |results|
        invariant rows == Entries(results[..k])
      {
        rows := rows + [EntryOf(results[k])];
      }
      assert results[..|results|] == results;
      assert rows == Entries(DistanceTable(eph, trig, currentTime));

      plotPositions := positions;
      plotTime := Some(currentTime);
      plotEnabled := true;
    }

    /** The button's command: the plot for the ticked checkboxes at the date
        last accepted. The button can only be pressed once it is enabled. */
    method ShowPlanetPlot(checked: string -> bool) returns (plot: Option<PlotData>)
      requires Valid() && plotEnabled
      ensures var selected := SelectedNames(PlanetOrder, checked);
        && (plot.None? <==> selected == [])
        && (plot.Some? ==>
              plot.value.positions == HelioPositions(eph, trig, plotTime.value, selected) &&
              IsFlooredMax(plot.value.maxR, PlottedRadii(eph, plotTime.value, selected)) &&
              plot.value.lim == PlotLimit(plot.value.maxR))
    {
      var currentTime := plotTime.value;
      var selected := SelectedNames(PlanetOrder, checked);
      plot := HeliocentricPlot(eph, trig, currentTime, selected);
    }
  }

  /** The button stays disabled until a date passes the gate, and a rejected
      date after that leaves the previous results on screen. */
  method ButtonEnablesOnFirstAcceptedDate(eph: Ephemeris, trig: Trig,
                                          parseDate: string -> Option<Instant>, first: string, second: string)
    requires DateGate(parseDate, first).None?
    requires DateGate(parseDate, second).Some?
  {
    var w := new LightLagWindow(eph, trig, parseDate);
    w.UpdateFromDateField(first);
    assert !w.plotEnabled && w.rows == [];
    w.UpdateFromDateField(second);
    assert w.plotEnabled && w.plotTime == DateGate(parseDate, second);
    assert |w.rows| == |Planets|;
    w.UpdateFromDateField(first);
    assert w.plotTime == DateGate(parseDate, second);
  }
}
