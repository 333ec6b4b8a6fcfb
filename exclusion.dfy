/** Step 1 of the pipeline: rows whose Type is out of scope for the chart
    (depreciated plants, carbon capture, immature or distributed sources) are
    dropped before anything else happens. */
module Exclusion {
  import opened LcoeData

  /** The excluded types (`skipped_types`). */
  const SkippedTypes: set<string> := {
    "Depreciated Coal", "20-30% CCS", "90+% CCS", "IGCC with CCS", "Supercritical with CCS",
    "Combustion Turbine", "Gas Peaking", "Natural Gas CCS", "Diesel Generator", "Biomass Microgrid",
    "Incineration with CCS", "Depreciated Nuclear", "Advanced Nuclear", "Small Modular Reactor",
    "Generation IV", "Sodium-Cooled Fast Reactor", "High Temperature Reactor", "Fusion",
    "Refurbishments", "Organic PV", "Solar Updraft Tower", "Space-Based Solar",
    "Distributed Solar - Small", "Distributed Solar - Large", "Community Solar", "High Altitude",
    "Wind Microgrid", "Enhanced Geothermal System", "Hydrothermal Vents", "Fuel Cell",
    "Solid Oxide Fuel Cells", "Molten Carbonate Fuel Cells"
  }

  /** The negated `isin` mask of the filter. */
  predicate InScope(r: Row) {
    r.typ !in SkippedTypes
  }

  /** The exclusion filter: keep the rows whose Type is not excluded. */
  function DropSkippedTypes(rows: seq<Row>): (kept: seq<Row>)
    ensures |kept| <= |rows|
    ensures forall r :: r in kept ==> r in rows && r.typ !in SkippedTypes
    ensures multiset(kept) <= multiset(rows)
  {
    Keep(rows, InScope)
  }

  /** Every in-scope row survives, in its original relative order: row `i`
      lands right after the survivors of `rows[..i]`. */
  lemma DropSkippedTypesKeepsOrder(rows: seq<Row>, i: nat)
    requires i < |rows| && rows[i].typ !in SkippedTypes
    ensures |DropSkippedTypes(rows[..i])| < |DropSkippedTypes(rows)|
    ensures DropSkippedTypes(rows)[|DropSkippedTypes(rows[..i])|] == rows[i]
  {
    KeepPlacement(rows, InScope, i);
  }

  /** A row survives exactly when its type is not excluded. */
  lemma DropSkippedTypesExact(rows: seq<Row>)
    ensures forall r :: r in DropSkippedTypes(rows) <==> r in rows && r.typ !in SkippedTypes
  {
    KeepComplete(rows, InScope);
  }
}
