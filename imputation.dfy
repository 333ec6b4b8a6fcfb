/** Step 3 of the pipeline: every study gets a point value, a low and a high.
    A missing point is the midpoint of the range; a missing bound is the point.
    The three columns are overwritten one after the other (LCOE, then LCOE Low,
    then LCOE High), so the bounds are filled from the already-imputed point. */
module Imputation {
  import opened LcoeData

  /** `interpolate_lcoe`: a reported point is kept; a missing one becomes
      the value equally far from both bounds. */
  function InterpolateLcoe(r: Row): (v: real)
    ensures r.lcoe > 0.0 ==> v == r.lcoe
    ensures r.lcoe <= 0.0 ==> v - r.low == r.high - v
    // on non-negative data the point is reported as soon as any value is
    ensures NonNegative(r) ==> (v > 0.0 <==> r.lcoe > 0.0 || r.low > 0.0 || r.high > 0.0)
  {
    if r.lcoe > 0.0 then r.lcoe else (r.low + r.high) / 2.0
  }

  /** `interpolate_lcoe_low`: the reported low, or else the point. */
  function InterpolateLow(r: Row): (v: real)
    ensures r.low > 0.0 ==> v == r.low
    ensures r.low <= 0.0 ==> v == r.lcoe
    ensures v == r.low || v == r.lcoe
    ensures v > 0.0 <==> r.low > 0.0 || r.lcoe > 0.0
  {
    if r.low > 0.0 then r.low else r.lcoe
  }

  /** `interpolate_lcoe_high`: the reported high, or else the point. */
  function InterpolateHigh(r: Row): (v: real)
    ensures r.high > 0.0 ==> v == r.high
    ensures r.high <= 0.0 ==> v == r.lcoe
    ensures v == r.high || v == r.lcoe
    ensures v > 0.0 <==> r.high > 0.0 || r.lcoe > 0.0
  {
    if r.high > 0.0 then r.high else r.lcoe
  }

  /** One row after the three column overwrites, in the order the script runs them. */
  function ImputeRow(r: Row): (out: Row)
    ensures out.category == r.category && out.typ == r.typ
    // a reported value is kept
    ensures r.lcoe > 0.0 ==> out.lcoe == r.lcoe
    ensures r.low > 0.0 ==> out.low == r.low
    ensures r.high > 0.0 ==> out.high == r.high
    // a missing point is the midpoint of the reported range
    ensures r.lcoe <= 0.0 ==> out.lcoe == (r.low + r.high) / 2.0
    // a missing bound is the imputed point, not the original one
    ensures r.low <= 0.0 ==> out.low == out.lcoe
    ensures r.high <= 0.0 ==> out.high == out.lcoe
    ensures NonNegative(r) ==> NonNegative(out)
    // one reported value is enough to fill all three
    ensures NonNegative(r) && (r.lcoe > 0.0 || r.low > 0.0 || r.high > 0.0) ==>
              out.lcoe > 0.0 && out.low > 0.0 && out.high > 0.0
  {
    var withPoint := r.(lcoe := InterpolateLcoe(r));
    var withLow := withPoint.(low := InterpolateLow(withPoint));
    withLow.(high := InterpolateHigh(withLow))
  }

  /** Imputing an imputed row changes nothing, provided no value was negative. */
  lemma ImputeRowIdempotent(r: Row)
    requires NonNegative(r)
    ensures ImputeRow(ImputeRow(r)) == ImputeRow(r)
  {
  }

  /** With non-negative inputs a row is either complete or entirely missing. */
  lemma ImputeRowAllOrNothing(r: Row)
    requires NonNegative(r)
    ensures var out := ImputeRow(r);
            (out.lcoe > 0.0 && out.low > 0.0 && out.high > 0.0) ||
            (out.lcoe == 0.0 && out.low == 0.0 && out.high == 0.0)
  {
  }

  /** {LCOE 0, Low 4, High 10} -> LCOE 7; {LCOE 5, Low 0, High 0} -> Low = High = 5. */
  lemma ImputeRowExamples()
    ensures ImputeRow(Row("Coal", "Coal", 0.0, 4.0, 10.0)) == Row("Coal", "Coal", 7.0, 4.0, 10.0)
    ensures ImputeRow(Row("Coal", "Coal", 5.0, 0.0, 0.0)) == Row("Coal", "Coal", 5.0, 5.0, 5.0)
  {
  }

  /** Imputation does not order the three values: {LCOE 0, Low 4, High 0}
      becomes LCOE 2, Low 4, High 2, so Low > LCOE. */
  lemma BoundsNotOrdered()
    ensures var out := ImputeRow(Row("Coal", "Coal", 0.0, 4.0, 0.0));
            out.lcoe == 2.0 && out.low == 4.0 && out.high == 2.0 && out.low > out.lcoe
  {
  }

  /** The whole table after the three column overwrites: the same rows in
      the same order, each with its Category and Type, and no negative value
      introduced. */
  function Imputed(rows: seq<Row>): (out: seq<Row>)
    ensures |out| == |rows|
    ensures forall i :: 0 <= i < |rows| ==> out[i] == ImputeRow(rows[i])
    ensures forall i :: 0 <= i < |rows| ==>
              out[i].category == rows[i].category && out[i].typ == rows[i].typ
    ensures (forall i :: 0 <= i < |rows| ==> NonNegative(rows[i])) ==>
              forall i :: 0 <= i < |out| ==> NonNegative(out[i])
  {
    seq(|rows|, i requires 0 <= i < |rows| => ImputeRow(rows[i]))
  }

  /** Imputation keeps the rows, their order and their Category column. */
  lemma ImputedKeepsCategories(rows: seq<Row>)
    ensures |Imputed(rows)| == |rows|
    ensures Categories(Imputed(rows)) == Categories(rows)
  {
  }

  /** Re-running the imputation on the whole table changes nothing. */
  lemma ImputedIdempotent(rows: seq<Row>)
    requires forall r :: r in rows ==> NonNegative(r)
    ensures Imputed(Imputed(rows)) == Imputed(rows)
  {
    forall i | 0 <= i < |rows| ensures Imputed(Imputed(rows))[i] == Imputed(rows)[i] {
      ImputeRowIdempotent(rows[i]);
    }
  }
}
