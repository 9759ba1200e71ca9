# lightlag: distance, light delay and plot geometry

lightlag is a small desktop tool. For a date typed into its window it shows a
table. The table gives each planet's distance from the Earth, in AU and in
millions of km, and the time light takes to cover that distance, in seconds
and in minutes. A "Show Plot" button draws the selected planets around the Sun.

This project models the computation inside `lightlag/app.py`:

- the body catalog: the `planets` dictionary and the `planet_order` checkbox list (module `Catalog`);
- the unit conversions from AU to km to light delay (module `Units`);
- `compute_planet_distances`, the loop that builds the table rows and the
  Earth-centred positions (module `Geocentric`);
- the computing half of `show_planet_plot` (module `Heliocentric`). It filters
  the catalog by the selection and computes Sun-centred positions. It infers
  the Earth from the Sun, folds `max_r` with a floor of 1.0, and sets the
  window limit `lim`;
- the date gate of `update_from_date_field` (module `DateField`). It strips the
  text as Python's `str.strip()` does, demands ten characters, then parses;
- the refresh state (module `Window`). A class `LightLagWindow` holds the table
  rows, the globals `plot_positions` and `plot_current_time`, and the state of
  the plot button. `UpdateFromDateField` changes that state and
  `ShowPlanetPlot` reads it.

The ephemeris library is a parameter: a datatype `Ephemeris` of total
functions from a body and an instant to `earth_distance`, `sun_distance`,
`hlon` and the geocentric ecliptic longitude. `np.cos` and `np.sin` are the
uninterpreted functions of a `Trig` value. `strptime` followed by `ephem.Date`
is a parameter `parseDate: string -> Option<Instant>`. Floats are exact reals.
`np.pi` is the real 3.141592653589793. Trigonometric identities are never
assumed as facts. Some lemmas take them as hypotheses: cos² + sin² = 1,
|cos|, |sin| ≤ 1, or a half-turn by `Pi` negating both. Real cosine and sine
satisfy the first two. The third does not hold exactly for them, because the
decimal `Pi` is slightly below the real π. It holds for a `Trig` whose angle
unit makes `Pi` a half-turn, and for `np.cos` and `np.sin` only up to
rounding, so `Sky.HalfTurnNegates` and `Heliocentric.EarthOppositeSun`
describe the program only to that precision.

The module `Window` ends with a client method, `ButtonEnablesOnFirstAcceptedDate`.
It shows what a caller can conclude from the class's contracts alone. The button
stays disabled after a rejected date and is enabled after an accepted one. A
later rejected date leaves the accepted date in place.

Some things `app.py` does not do, and the model neither:

- The catalog has seven planets. It has no Moon and no Earth; the Earth is
  only a plot checkbox.
- Nothing rejects an unknown body name. The plot filters the fixed catalog by
  membership in the selection, so a stray name is ignored.
- There is no trajectory sampling.
- `update_from_date_field` returns nothing: the computed positions and date
  are kept in mutable globals. They are modelled as fields of the window class.
- Failures of the ephemeris library are not caught anywhere.

## Model

| member | source | states |
|---|---|---|
| `Units.DistanceKm` | lightlag/app.py:22 | kilometres per AU times the distance; dividing back by 149597870.7 recovers the AU |
| `Units.DistanceMillionKm` | lightlag/app.py:23 | the same distance in millions of km: a million of them make the km distance |
| `Units.DelaySeconds` | lightlag/app.py:35 | the light-travel time: light at 299792 km/s covers the km distance in exactly that many seconds |
| `Units.DelayMinutes` | lightlag/app.py:36 | the same time in minutes: sixty times it is the seconds |
| `Units.ConversionChain` | lightlag/app.py:22-36 | km = AU·149597870.7, million km = km/10⁶, seconds = km/299792 = AU·149597870.7/299792, minutes = seconds/60, exactly |
| `Units.DelayNonNegative` | lightlag/app.py:10-11 | a non-negative distance gives non-negative km, million km, seconds and minutes |
| `Units.DelayStrictlyIncreasing` | lightlag/app.py:35-36 | light delay (seconds and minutes) is strictly increasing in the AU distance and injective, in both directions |
| `Units.MarsFixture` | lightlag/app.py:10-36 | at 0.6 AU: 89758722.42 km, 89.75872242 million km, delay between 299.40 and 299.41 s and between 4.99 and 5.0 min |
| `Sky.Project` | lightlag/app.py:30-32 | the point at radius r and angle θ lies on the line through the origin at angle θ (x·sin θ = y·cos θ), and is the origin when r = 0 |
| `Sky.ProjectionKeepsRadius` | lightlag/app.py:30-32 | if cos²+sin² = 1 then the projected (x, y) satisfies x²+y² = r² |
| `Sky.ProjectionWithinRadius` | lightlag/app.py:71-72 | if \|cos\|, \|sin\| ≤ 1 and 0 ≤ r ≤ b then both coordinates lie in [-b, b] |
| `Sky.HalfTurnNegates` | lightlag/app.py:81-83 | if turning by π negates cos and sin then projecting at θ+π negates the point projected at θ |
| `Catalog.CatalogFacts` | lightlag/app.py:111-119 | seven entries with distinct names; none is "Earth" or the Sun; each has a checkbox in `planet_order`, which also holds "Earth" |
| `Catalog.SelectedNames` | lightlag/app.py:52 | a name is selected iff its checkbox exists and is ticked; the selection is empty iff no box is ticked |
| `Geocentric.Observe` | lightlag/app.py:18-36 | one pass of the loop: the row is named after the entry, its AU is the body's `earth_distance`, million km, seconds and minutes are the conversions of that AU, and the position is the projection at the ecliptic longitude |
| `Geocentric.DistanceTable` | lightlag/app.py:17-46 | one row per catalog entry, in catalog order, each named after its entry with that body's `earth_distance` |
| `Geocentric.ComputePlanetDistances` | lightlag/app.py:14-47 | result is the table of `Observe` over the catalog in order; positions[i] is (name, x, y) of result[i], so both have one entry per body |
| `Geocentric.TableFollowsCatalog` | lightlag/app.py:17 | the table and the positions have one entry per catalog body, named in catalog order, and never "Earth" |
| `Geocentric.RowFacts` | lightlag/app.py:21-36 | each row: AU = the body's `earth_distance`; million km, seconds and minutes follow the chain; x, y = AU·cos(lon), AU·sin(lon) with lon the body's ecliptic longitude |
| `Geocentric.DelayOrdersRows` | lightlag/app.py:35 | of two rows, one is nearer iff its light delay is shorter |
| `Heliocentric.SelectedIndices` | lightlag/app.py:64-66 | the catalog indices kept by the filter: every selected one, only those, strictly increasing (catalog order) |
| `Heliocentric.PlanetPoint` | lightlag/app.py:68-73 | a planet's plotted point is named after it, lies on the line through the Sun at angle `hlon`, and, where cos²+sin² = 1, at distance `sun_distance` from the Sun |
| `Heliocentric.EarthPoint` | lightlag/app.py:77-84 | the inferred point is named "Earth", lies at the Sun's `earth_distance` where cos²+sin² = 1, and, where a half-turn by `Pi` negates cos and sin, is the Sun's geocentric point negated |
| `Heliocentric.HelioPositions` | lightlag/app.py:64-84 | at most one position per catalog planet plus the Earth; every position is of a selected name; none for an empty selection |
| `Heliocentric.PlanetPointsFollowIndices` | lightlag/app.py:64-73 | the appended positions and radii are, one for one, the selected catalog entries at radius `sun_distance` and angle `hlon` |
| `Heliocentric.FlooredMaxStep` | lightlag/app.py:69 | `max(max_r, r)` keeps `max_r` ≥ 1.0, ≥ every radius folded so far, and equal to 1.0 or one of them |
| `Heliocentric.PlotLimit` | lightlag/app.py:93-94 | `lim = 1.15·max_r`, and `lim` exceeds any positive `max_r` |
| `Heliocentric.HeliocentricPlot` | lightlag/app.py:50-96 | nothing is computed iff the selection is empty; otherwise the positions are `HelioPositions`, `max_r` is the floored maximum of the plotted radii, and `lim = max_r + 0.15·max_r` |
| `Heliocentric.HelioLayout` | lightlag/app.py:64-84 | the plot holds exactly the selected planets, once each, in catalog order, with their `sun_distance` radii, then the Earth iff it is selected |
| `Heliocentric.EarthLastIffSelected` | lightlag/app.py:76-84 | a position is named "Earth" iff "Earth" is selected, and then it is the last one, at radius the Sun's `earth_distance` and angle its longitude + π |
| `Heliocentric.LimitBounds` | lightlag/app.py:93-94 | `lim = 1.15·max_r`, `lim` ≥ 1.15, and every plotted radius is below `lim` |
| `Heliocentric.FlooredMaxUnique` | lightlag/app.py:63 | the floor and max conditions determine `max_r` uniquely |
| `Heliocentric.PointsInsideWindow` | lightlag/app.py:93-96 | if \|cos\|, \|sin\| ≤ 1 and distances are non-negative then every plotted point lies inside [-lim, lim]² |
| `Heliocentric.MercuryOnlyUsesFloor` | lightlag/app.py:63-69 | with only Mercury selected at 0.39 AU from the Sun, `max_r` is 1.0 |
| `Heliocentric.EarthOppositeSun` | lightlag/app.py:77-83 | if a half-turn negates cos and sin then the inferred Earth is the Sun's geocentric projection reflected through the origin |
| `DateField.SkipLeading` | lightlag/app.py:207 | the first index from i on that is not whitespace, or the length; everything skipped is whitespace |
| `DateField.SkipTrailing` | lightlag/app.py:207 | scanning left to `lo`: everything skipped is whitespace, and the new end is `lo` or follows a non-whitespace character |
| `DateField.Strip` | lightlag/app.py:207 | the result is the slice between a whitespace prefix and a whitespace suffix; it is empty or starts and ends with non-whitespace |
| `DateField.StripUnique` | lightlag/app.py:207 | every such slice of a string equals `Strip` of it |
| `DateField.StripIgnoresPadding` | lightlag/app.py:207 | whitespace added before and after a string does not change its strip |
| `DateField.StripIdempotent` | lightlag/app.py:207 | stripping twice is stripping once |
| `DateField.DateGate` | lightlag/app.py:207-213 | a date comes through iff the stripped text has ten characters and the parser accepts it, and it is then the parse of the stripped text |
| `DateField.DateGateOutcomes` | lightlag/app.py:207-213 | rejected if the stripped length is not 10 (so an all-whitespace entry is rejected) and if the parser refuses; an accepted date is the parse of the ten-character stripped text |
| `DateField.DateGateIgnoresPadding` | lightlag/app.py:207 | surrounding whitespace in the entry never changes the gate's outcome |
| `Window.LightLagWindow.constructor` | lightlag/app.py:236-246 | empty table, no stored positions or date, plot button disabled |
| `Window.LightLagWindow.UpdateFromDateField` | lightlag/app.py:206-234 | rejected text leaves rows, positions, date and button unchanged; accepted text replaces the rows wholly by the new table in order, stores the positions and the date, and enables the button; the button stays enabled exactly when a date is stored |
| `Window.LightLagWindow.ShowPlanetPlot` | lightlag/app.py:50-54 | run only once the button is enabled; plots the ticked names at the stored date, or nothing for an empty selection |

## Left out

- Tk widgets, the calendar date picker, focus handling, event bindings and the main loop (lightlag/app.py:121-204, 236-272): user-interface plumbing. The default text, today's date from the clock (line 132), and the first call at start-up (line 257) are left to the caller.
- matplotlib rendering, the labels and the legend (lines 56-59, 87-108). Only `lim` is computed.
- The ephemeris library's internals: it is an oracle of total functions, and any exception it might raise is not modelled.
- Floating-point arithmetic: the model computes exactly over reals, so rounding, NaN and infinity are not captured.
- The 5- and 2-decimal string formatting of the table cells (lines 40-43): the rows keep the unformatted numbers.
- The semantics of `np.cos`, `np.sin` and `strptime`: they are parameters, and no property of them is assumed as a fact.
- Trajectory sampling and a Moon entry: neither is in this code.
