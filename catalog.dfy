/** The fixed body catalog: the `planets` dictionary (lightlag/app.py,
    lines 111-119), whose insertion order is the table's row order, and the
    `planet_order` list of plot checkboxes (line 261), which adds "Earth". */
module Catalog {
  import opened Sky

  /** One entry of `planets`: a display name and its ephemeris object. */
  datatype CatalogEntry = CatalogEntry(name: string, body: Body)

  const Planets: seq<CatalogEntry> := [
    CatalogEntry("Mercury", Mercury),
    CatalogEntry("Venus", Venus),
    CatalogEntry("Mars", Mars),
    CatalogEntry("Jupiter", Jupiter),
    CatalogEntry("Saturn", Saturn),
    CatalogEntry("Uranus", Uranus),
    CatalogEntry("Neptune", Neptune)
  ]

  const PlanetOrder: seq<string> :=
    ["Mercury", "Venus", "Earth", "Mars", "Jupiter", "Saturn", "Uranus", "Neptune"]

  /** The catalog holds seven distinct planets; neither the Earth nor the
      Sun is one of them, and every planet has a checkbox. */
  lemma CatalogFacts()
    ensures |Planets| == 7
    ensures forall i :: 0 <= i < |Planets| ==> Planets[i].name != "Earth" && Planets[i].body != Sun
    ensures forall i :: 0 <= i < |Planets| ==> Planets[i].name in PlanetOrder
    ensures forall i, j :: 0 <= i < j < |Planets| ==> Planets[i].name != Planets[j].name
    ensures "Earth" in PlanetOrder
  {
  }

  /** The names whose checkbox is ticked, in checkbox order: the list
      comprehension over `planet_vars` (line 52). */
  function SelectedNames(order: seq<string>, checked: string -> bool): (selected: seq<string>)
    ensures |selected| <= |order|
    ensures forall n :: n in selected <==> n in order && checked(n)
    ensures selected == [] <==> forall n :: n in order ==> !checked(n)
  {
    if order == [] then []
    else (if checked(order[0]) then [order[0]] else []) + SelectedNames(order[1..], checked)
  }
}
