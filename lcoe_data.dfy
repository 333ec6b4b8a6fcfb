/** The LCOE table: one row per study and type of power, and the row filter
    that pandas boolean indexing performs on it. */
module LcoeData {

  /** One row of the table. `category` is the broad class (Coal, Nuclear, ...),
      `typ` the specific technology. A numeric value <= 0 means the study did
      not report it. */
  datatype Row = Row(category: string, typ: string, lcoe: real, low: real, high: real)

  /** All three numeric fields are non-negative (the shape of the data set). */
  predicate NonNegative(r: Row) {
    r.lcoe >= 0.0 && r.low >= 0.0 && r.high >= 0.0
  }

  /** The Category column, in table order. */
  function Categories(rows: seq<Row>): seq<string> {
    seq(|rows|, i requires 0 <= i < |rows| => rows[i].category)
  }

  /** The rows satisfying `p`, in table order: `df[mask]` for a row-wise mask. */
  function Keep(rows: seq<Row>, p: Row -> bool): (kept: seq<Row>)
    ensures |kept| <= |rows|
    ensures forall r :: r in kept ==> r in rows && p(r)
    ensures multiset(kept) <= multiset(rows)
  {
    if rows == [] then []
    else
      assert rows == [rows[0]] + rows[1..];
      (if p(rows[0]) then [rows[0]] else []) + Keep(rows[1..], p)
  }

  /** Filtering a concatenation filters each part. */
  lemma {:induction false} KeepAppend(a: seq<Row>, b: seq<Row>, p: Row -> bool)
    ensures Keep(a + b, p) == Keep(a, p) + Keep(b, p)
  {
    if a != [] {
      assert (a + b)[1..] == a[1..] + b;
      KeepAppend(a[1..], b, p);
    } else {
      assert a + b == b;
    }
  }

  /** A row that satisfies `p` survives, at the position given by the number
      of surviving rows before it: the filter keeps relative order. */
  lemma KeepPlacement(rows: seq<Row>, p: Row -> bool, i: nat)
    requires i < |rows| && p(rows[i])
    ensures |Keep(rows[..i], p)| < |Keep(rows, p)|
    ensures Keep(rows, p)[|Keep(rows[..i], p)|] == rows[i]
  {
    assert rows == rows[..i] + rows[i..];
    KeepAppend(rows[..i], rows[i..], p);
    assert rows[i..][1..] == rows[i + 1..];
  }

  /** Every row of the table that satisfies `p` is among the kept rows. */
  lemma KeepComplete(rows: seq<Row>, p: Row -> bool)
    ensures forall r :: r in rows && p(r) ==> r in Keep(rows, p)
  {
    forall r | r in rows && p(r) ensures r in Keep(rows, p) {
      var i :| 0 <= i < |rows| && rows[i] == r;
      KeepPlacement(rows, p, i);
    }
  }
}
