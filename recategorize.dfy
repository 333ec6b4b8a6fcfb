/** Step 2 of the pipeline: the chart's categories differ from the data set's.
    Solar is split into PV and non-PV, Wind into onshore and offshore,
    Petroleum becomes Oil and MHK becomes Ocean, all decided by the row's Type. */
module Recategorize {
  import opened LcoeData
  import Exclusion

  /** Type -> chart category (`category_changes`). */
  const CategoryChanges: map<string, string> := map[
    "Photovoltaics" := "Solar PV",
    "Crystalline PV" := "Solar PV",
    "Thin Film PV" := "Solar PV",
    "Perovskite" := "Solar PV",
    "Organic PV" := "Solar PV",
    "PV Fixed" := "Solar PV",
    "PV 1-Axis Tracking" := "Solar PV",
    "PV 2-Axis Tracking" := "Solar PV",
    "Solar Thermal" := "Solar,\nNon-PV",
    "Solar Thermal without Storage" := "Solar,\nNon-PV",
    "Solar Thermal with Storage" := "Solar,\nNon-PV",
    "Concentrated PV" := "Solar,\nNon-PV",
    "Onshore Wind" := "Onshore\nWind",
    "Offshore Wind" := "Offshore\nWind",
    "Deep Offshore" := "Offshore\nWind",
    "Floating Offshore" := "Offshore\nWind",
    "Offshore Vertical Axis" := "Offshore\nWind",
    "MHK" := "Ocean",
    "Tidal" := "Ocean",
    "Wave" := "Ocean",
    "OTEC" := "Ocean",
    "Osmotic" := "Ocean",
    "Oil Power Plant" := "Oil"
  ]

  /** The categories the map introduces. */
  const ChartCategories: set<string> :=
    {"Solar PV", "Solar,\nNon-PV", "Onshore\nWind", "Offshore\nWind", "Ocean", "Oil"}

  /** `rename_category`: the mapped category when the Type is a key of the
      map, otherwise the row's own Category. */
  function RenameCategory(row: Row): (c: string)
    ensures row.typ in CategoryChanges ==> c == CategoryChanges[row.typ] && c in ChartCategories
    ensures row.typ !in CategoryChanges ==> c == row.category
  {
    if row.typ in CategoryChanges then CategoryChanges[row.typ] else row.category
  }

  /** The row after the Category column is overwritten with `rename_category`. */
  function RenameRow(row: Row): Row {
    row.(category := RenameCategory(row))
  }

  /** Only the Category changes: Type and the three numbers are untouched,
      and renaming a second time changes nothing. */
  lemma RenameRowTouchesOnlyCategory(row: Row)
    ensures RenameRow(row).typ == row.typ
    ensures RenameRow(row).lcoe == row.lcoe && RenameRow(row).low == row.low && RenameRow(row).high == row.high
    ensures RenameRow(row).category == RenameCategory(row)
    ensures RenameRow(RenameRow(row)) == RenameRow(row)
  {
  }

  /** The whole table after its Category column is overwritten: the same rows
      in the same order, each with its own Type and numbers, and a Category
      that is a chart category or the row's own. */
  function Recategorized(rows: seq<Row>): (out: seq<Row>)
    ensures |out| == |rows|
    ensures forall i :: 0 <= i < |rows| ==> out[i] == RenameRow(rows[i])
    ensures forall i :: 0 <= i < |rows| ==>
              out[i].typ == rows[i].typ && out[i].lcoe == rows[i].lcoe &&
              out[i].low == rows[i].low && out[i].high == rows[i].high
    ensures forall i :: 0 <= i < |rows| ==>
              out[i].category in ChartCategories || out[i].category == rows[i].category
  {
    seq(|rows|, i requires 0 <= i < |rows| => RenameRow(rows[i]))
  }

  /** "Organic PV" is both excluded and a key of the map; the filter runs
      first, so no row ever reaches that map entry. */
  lemma OrganicPvEntryIsDead(rows: seq<Row>)
    ensures "Organic PV" in CategoryChanges && "Organic PV" in Exclusion.SkippedTypes
    ensures forall r :: r in Exclusion.DropSkippedTypes(rows) ==> r.typ != "Organic PV"
  {
  }
}
