/** The script from the parsed table to the two lists the chart is drawn
    from: the category labels and, for each, its array of LCOE values. The
    table is one object, filtered and then overwritten column by column. */
module Pipeline {
  import opened LcoeData
  import Exclusion
  import Recategorize
  import Imputation
  import opened Grouping
  import opened Ranking

  /** The table `df_lcoe`. */
  class Frame {
    var rows: seq<Row>

    constructor (parsed: seq<Row>)
      ensures rows == parsed
    {
      rows := parsed;
    }

    /** The exclusion filter: the table keeps only the rows whose Type is not excluded. */
    method DropSkippedTypes()
      modifies this
      ensures rows == Exclusion.DropSkippedTypes(old(rows))
    {
      rows := Exclusion.DropSkippedTypes(rows);
    }

    /** The Category column is overwritten with `rename_category` of each row. */
    method RenameCategories()
      modifies this
      ensures |rows| == |old(rows)|
      ensures forall i :: 0 <= i < |rows| ==>
                rows[i] == Recategorize.RenameRow(old(rows)[i])
    {
      var current := rows;
      rows := seq(|current|, i requires 0 <= i < |current| =>
                Recategorize.RenameRow(current[i]));
    }

    /** The LCOE column is overwritten with `interpolate_lcoe` of each row. */
    method InterpolateLcoeColumn()
      modifies this
      ensures |rows| == |old(rows)|
      ensures forall i :: 0 <= i < |rows| ==>
                rows[i] == old(rows)[i].(lcoe := Imputation.InterpolateLcoe(old(rows)[i]))
    {
      var current := rows;
      rows := seq(|current|, i requires 0 <= i < |current| =>
                current[i].(lcoe := Imputation.InterpolateLcoe(current[i])));
    }

    /** The LCOE Low column is overwritten with `interpolate_lcoe_low` of each row. */
    method InterpolateLowColumn()
      modifies this
      ensures |rows| == |old(rows)|
      ensures forall i :: 0 <= i < |rows| ==>
                rows[i] == old(rows)[i].(low := Imputation.InterpolateLow(old(rows)[i]))
    {
      var current := rows;
      rows := seq(|current|, i requires 0 <= i < |current| =>
                current[i].(low := Imputation.InterpolateLow(current[i])));
    }

    /** The LCOE High column is overwritten with `interpolate_lcoe_high` of each row. */
    method InterpolateHighColumn()
      modifies this
      ensures |rows| == |old(rows)|
      ensures forall i :: 0 <= i < |rows| ==>
                rows[i] == old(rows)[i].(high := Imputation.InterpolateHigh(old(rows)[i]))
    {
      var current := rows;
      rows := seq(|current|, i requires 0 <= i < |current| =>
                current[i].(high := Imputation.InterpolateHigh(current[i])));
    }
  }

  /** The table as the chart sees it: filtered, recategorized, imputed. */
  function Prepared(parsed: seq<Row>): seq<Row> {
    Imputation.Imputed(Recategorize.Recategorized(Exclusion.DropSkippedTypes(parsed)))
  }

  /** `lcoe_keys` before the sort: the categories in order of first appearance. */
  function FirstAppearance(parsed: seq<Row>): seq<string> {
    UniqueInOrder(Categories(Prepared(parsed)))
  }

  /** `keyed_lcoe_values` after the sort, built from a prepared table. */
  function Ranked(table: seq<Row>): seq<Keyed> {
    var lcoeKeys := UniqueInOrder(Categories(table));
    RankByMean(Pair(lcoeKeys, GroupAll(table, lcoeKeys)))
  }

  /** The ranked keys are the table's categories, each once. */
  lemma RankedKeys(table: seq<Row>)
    ensures Distinct(KeysOf(Ranked(table)))
    ensures forall c :: c in KeysOf(Ranked(table)) <==> c in Categories(table)
  {
    var lcoeKeys := UniqueInOrder(Categories(table));
    var before := Pair(lcoeKeys, GroupAll(table, lcoeKeys));
    var keyed := Ranked(table);
    KeysPermutation(keyed, before);
    DistinctIffSingletons(lcoeKeys);
    DistinctIffSingletons(KeysOf(keyed));
    forall c ensures c in KeysOf(keyed) <==> c in lcoeKeys {
      assert c in KeysOf(keyed) <==> c in multiset(KeysOf(keyed));
      assert c in lcoeKeys <==> c in multiset(lcoeKeys);
    }
  }

  /** Each ranked key carries its own category's array, which is never empty. */
  lemma RankedPairing(table: seq<Row>)
    ensures forall p :: p in Ranked(table) ==>
              p.values == GroupValues(table, p.key) && |p.values| > 0
  {
    var lcoeKeys := UniqueInOrder(Categories(table));
    var lcoeValues := GroupAll(table, lcoeKeys);
    var before := Pair(lcoeKeys, lcoeValues);
    forall p | p in Ranked(table)
      ensures p.values == GroupValues(table, p.key) && |p.values| > 0
    {
      assert p in multiset(Ranked(table));
      assert p in before;
      var j := PairedAt(lcoeKeys, lcoeValues, p);
      assert lcoeKeys[j] in Categories(table);
    }
  }

  /** A pair of the zipped lists comes from one position of both. */
  lemma PairedAt(keys: seq<string>, values: seq<seq<real>>, p: Keyed) returns (j: nat)
    requires |keys| == |values| && p in Pair(keys, values)
    ensures j < |keys| && p.key == keys[j] && p.values == values[j]
  {
    j :| 0 <= j < |keys| && Pair(keys, values)[j] == p;
  }

  /** The ranked arrays hold three values per row of the table. */
  lemma RankedTotal(table: seq<Row>)
    ensures TotalLength(ValuesOf(Ranked(table))) == 3 * |table|
  {
    var lcoeKeys := UniqueInOrder(Categories(table));
    var lcoeValues := GroupAll(table, lcoeKeys);
    var before := Pair(lcoeKeys, lcoeValues);
    ValuesPermutation(Ranked(table), before);
    TotalLengthPermutation(ValuesOf(Ranked(table)), lcoeValues);
    GroupSizesSum(table, lcoeKeys);
  }

  /** The script in order: the table and key list up to the sort, with the
      keys taken after recategorization and before imputation. */
  method Run(parsed: seq<Row>) returns (keys: seq<string>, values: seq<seq<real>>)
    ensures |keys| == |values|
    // each post-rename category once
    ensures Distinct(keys)
    ensures forall c :: c in keys <==> c in Categories(Prepared(parsed))
    // each key still paired with its own array, which is never empty
    ensures forall i :: 0 <= i < |keys| ==>
              values[i] == GroupValues(Prepared(parsed), keys[i]) && |values[i]| > 0
    // highest mean first
    ensures forall i, j :: 0 <= i < j < |values| ==> SortMean(values[i]) >= SortMean(values[j])
    // a reordering of the first-appearance list, stable on equal means
    ensures var before := Pair(FirstAppearance(parsed), GroupAll(Prepared(parsed), FirstAppearance(parsed)));
            multiset(Pair(keys, values)) == multiset(before) &&
            forall k :: Tied(Pair(keys, values), SortKey, k) == Tied(before, SortKey, k)
    // three values per surviving row
    ensures TotalLength(values) == 3 * |Exclusion.DropSkippedTypes(parsed)|
  {
    var df := new Frame(parsed);
    df.DropSkippedTypes();
    df.RenameCategories();
    ghost var renamed := df.rows;
    assert renamed == Recategorize.Recategorized(Exclusion.DropSkippedTypes(parsed));
    var lcoeKeys := UniqueInOrder(Categories(df.rows));
    df.InterpolateLcoeColumn();
    df.InterpolateLowColumn();
    df.InterpolateHighColumn();
    assert df.rows == Imputation.Imputed(renamed);
    Imputation.ImputedKeepsCategories(renamed);
    assert lcoeKeys == FirstAppearance(parsed);

    var lcoeValues := GroupAll(df.rows, lcoeKeys);
    var keyed := RankByMean(Pair(lcoeKeys, lcoeValues));
    values := ValuesOf(keyed);
    keys := KeysOf(keyed);

    assert keyed == Ranked(df.rows);
    assert Pair(keys, values) == keyed;
    RankedKeys(df.rows);
    RankedPairing(df.rows);
    RankedTotal(df.rows);
    forall i | 0 <= i < |keys| ensures values[i] == GroupValues(df.rows, keys[i]) && |values[i]| > 0 {
      assert keyed[i] in keyed;
    }
  }
}
