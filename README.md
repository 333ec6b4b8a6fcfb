# LCOE chart data pipeline, modelled in Dafny

The script `lcoe.py` draws a boxplot of the levelized cost of electricity
(LCOE) by source. Between reading its CSV and drawing the chart, it turns a
table of studies into two lists, the category labels and one array of LCOE
values per label. This project models that transform and proves its
properties:

1. **Exclusion**: rows whose Type is in the fixed `skipped_types` list are
   dropped (`Exclusion`).
2. **Recategorization**: the Category column is overwritten with
   `rename_category`. A Type that is a key of `category_changes` gets the
   mapped chart category. Every other row keeps its own Category
   (`Recategorize`).
3. **Imputation**: a value `<= 0` counts as missing. The LCOE, LCOE Low and
   LCOE High columns are overwritten in that order. A missing point becomes
   the midpoint of the range. A missing bound becomes the point, and because
   the LCOE column is written first, that is the already-imputed point
   (`Imputation`).
4. **Grouping**: the categories are listed once each, in order of first
   appearance. Each category gets the lows, then the points, then the highs
   of its rows (`Grouping`).
5. **Ranking**: the (category, array) pairs are sorted stably by the negated
   mean of the array, and then split back into two lists (`Ranking`).

`Pipeline` runs these steps on one table object (`Frame`, the pandas
DataFrame `df_lcoe`). Its column writes are methods that overwrite `rows`.
`Pipeline.Run` performs the writes in the script's order and states the end
result: the keys are distinct and cover the categories, each key is paired
with its own non-empty array, the means do not increase, ties keep
first-appearance order, and the arrays hold three values per surviving row.

Floats are modelled as `real`. A row is
`Row(category, typ, lcoe, low, high)`. The parsed CSV is the input
`seq<Row>`.

The imputation does not order the three values: `{LCOE 0, Low 4, High 0}`
becomes LCOE 2, Low 4, High 2 (`Imputation.BoundsNotOrdered`). A
non-negative row whose three values are all 0 stays all 0
(`Imputation.ImputeRowAllOrNothing`).

## Model

| member | source | states |
|---|---|---|
| `LcoeData.Keep` | lcoe.py:27 | Row-mask filtering keeps only rows of the table that satisfy the mask, each at most as often as the table holds it (the kept multiset is a sub-multiset of the table's) |
| `LcoeData.KeepPlacement` | lcoe.py:27 | A row that satisfies the mask survives at the position given by the number of survivors before it, so relative order is kept |
| `Exclusion.DropSkippedTypes` | lcoe.py:26-27 | No surviving row has a Type in `skipped_types`; every survivor is a row of the input, kept at most as often as the input holds it |
| `Exclusion.DropSkippedTypesKeepsOrder` | lcoe.py:26-27 | Every row whose Type is not excluded survives, in its original relative order |
| `Exclusion.DropSkippedTypesExact` | lcoe.py:26-27 | A row survives if and only if it is in the input and its Type is not excluded |
| `Recategorize.RenameCategory` | lcoe.py:33-64 | A Type that is a key of `category_changes` gives the mapped category, one of the six chart categories; any other Type gives the row's existing Category |
| `Recategorize.RenameRowTouchesOnlyCategory` | lcoe.py:60-65 | Overwriting the Category column leaves Type, LCOE, Low and High untouched, and a second overwrite changes nothing |
| `Recategorize.Recategorized` | lcoe.py:65 | The Category overwrite applied to the whole table gives each row `rename_category` of that row as its Category, in table order; it keeps the length and each row's Type, LCOE, Low and High; each new Category is a chart category or the row's own |
| `Recategorize.OrganicPvEntryIsDead` | lcoe.py:26-38 | "Organic PV" is both excluded and a map key; no row that survives the filter has that Type, so the map entry is never used |
| `Imputation.InterpolateLcoe` | lcoe.py:74-77 | A reported point (> 0) is kept; a missing point is equally far from the Low and the High. On a non-negative row the result is positive exactly when some value is reported |
| `Imputation.InterpolateLow` | lcoe.py:78-81 | A reported Low (> 0) is returned; a missing one falls back to the row's LCOE, whatever its value; the result is positive exactly when one of the two is |
| `Imputation.InterpolateHigh` | lcoe.py:82-85 | A reported High (> 0) is returned; a missing one falls back to the row's LCOE, whatever its value; the result is positive exactly when one of the two is |
| `Imputation.ImputeRow` | lcoe.py:74-89 | Reported values (> 0) are kept. A missing LCOE becomes the midpoint of the original Low and High. A missing bound becomes the imputed LCOE. Non-negative rows stay non-negative. With non-negative inputs, one positive value makes all three positive |
| `Imputation.ImputeRowIdempotent` | lcoe.py:74-89 | For a non-negative row, imputing a second time changes nothing |
| `Imputation.ImputeRowAllOrNothing` | lcoe.py:74-89 | For a non-negative row, the result is either all three positive or all three zero |
| `Imputation.ImputeRowExamples` | lcoe.py:70-89 | {LCOE 0, Low 4, High 10} gives LCOE 7 with the bounds kept; {LCOE 5, Low 0, High 0} gives Low = High = 5 |
| `Imputation.BoundsNotOrdered` | lcoe.py:78-89 | {LCOE 0, Low 4, High 0} gives LCOE 2, Low 4, High 2: the imputation does not order Low <= LCOE <= High |
| `Imputation.Imputed` | lcoe.py:87-89 | The three overwrites applied to the whole table turn each row, in table order, into its imputed row (`ImputeRow`); they keep the length, each row's Category and Type, and non-negativity |
| `Imputation.ImputedKeepsCategories` | lcoe.py:87-89 | The three column overwrites keep the number of rows and the Category column |
| `Imputation.ImputedIdempotent` | lcoe.py:87-89 | For a non-negative table, re-running the three overwrites changes nothing |
| `Grouping.UniqueInOrder` | lcoe.py:68 | Every category appears exactly once, no other value appears, and categories are ordered by first appearance in the column |
| `Grouping.RowsOf` | lcoe.py:93 | The rows selected for a category are exactly the table's rows with that Category, and no more rows than the table has |
| `Grouping.RowsOfCount` | lcoe.py:93 | The rows of a category number as many as that category's entries in the Category column |
| `Grouping.GroupValues` | lcoe.py:92-97 | A category's array is 3 × its row count long. It holds its rows' Low values in table order, then their LCOE values, then their High values. It is non-empty for a category that occurs |
| `Grouping.GroupAll` | lcoe.py:98 | One array per key, in key order, each the key's grouped array |
| `Grouping.GroupSizesSum` | lcoe.py:68-98 | With distinct keys covering every category, the array lengths sum to 3 × the number of rows |
| `Grouping.GroupsNonEmpty` | lcoe.py:68-98 | The array of every first-appearance key is non-empty, so the mean never divides by zero |
| `Ranking.SortMean` | lcoe.py:102 | The mean inside the sort key, `sum(x / len(x))`, is the arithmetic mean of a non-empty array and 0 for an empty one |
| `Ranking.SortKey` | lcoe.py:102 | The key handed to `sorted` is the negated arithmetic mean of the pair's array, and 0 for an empty array |
| `Ranking.SortedBy` | lcoe.py:102 | `sorted` with a key returns a permutation of its input with keys in ascending order |
| `Ranking.SortedByStable` | lcoe.py:102 | `sorted` is stable: for every key value, the elements with that key keep their input order |
| `Ranking.RankByMean` | lcoe.py:101-102 | Sorting by the negated mean gives a permutation of the pairs with non-increasing means; pairs with equal means keep their input order |
| `Ranking.Pair` | lcoe.py:101 | Zipping the keys with their arrays gives one pair per key; splitting the pairs returns the keys and the arrays it was built from |
| `Ranking.KeysOf` | lcoe.py:104 | The key list taken out of the sorted pairs has one entry per pair, the pair's key, in pair order |
| `Ranking.ValuesOf` | lcoe.py:103 | The array list taken out of the sorted pairs has one entry per pair, the pair's array, in pair order |
| `Ranking.SplitPair` | lcoe.py:101-104 | Zipping the split lists back together rebuilds the pairs, so pairing and splitting are inverse |
| `Pipeline.Frame.constructor` | lcoe.py:18 | The table holds the parsed rows |
| `Pipeline.Frame.DropSkippedTypes` | lcoe.py:27 | The table becomes its rows with an in-scope Type |
| `Pipeline.Frame.RenameCategories` | lcoe.py:65 | Each row's Category becomes `rename_category` of that row; nothing else changes |
| `Pipeline.Frame.InterpolateLcoeColumn` | lcoe.py:87 | Each row's LCOE becomes `interpolate_lcoe` of the current row; nothing else changes |
| `Pipeline.Frame.InterpolateLowColumn` | lcoe.py:88 | Each row's Low becomes `interpolate_lcoe_low` of the current row, whose LCOE is already imputed; nothing else changes |
| `Pipeline.Frame.InterpolateHighColumn` | lcoe.py:89 | Each row's High becomes `interpolate_lcoe_high` of the current row; nothing else changes |
| `Pipeline.RankedKeys` | lcoe.py:98-104 | After ranking, the keys are the table's categories, each exactly once |
| `Pipeline.RankedPairing` | lcoe.py:98-104 | After ranking, every key is still paired with its own category's array, which is non-empty |
| `Pipeline.RankedTotal` | lcoe.py:98-104 | After ranking, the arrays hold 3 values per row of the table |
| `Pipeline.Run` | lcoe.py:27-104 | From the parsed rows to the two lists: keys are distinct and are exactly the post-rename categories. Each key is paired with its own non-empty array. Means do not increase. The result is a permutation of the first-appearance list, with equal means in first-appearance order. Array lengths sum to 3 × the filtered row count |

## Left out

- Reading the CSV (`pd.read_csv`) is file I/O. The model takes the parsed rows as input.
- All plotting is left out: the figure and boxplot, ticks and axis limits, per-point markers, the mean annotations and their rounding, the legend's illustrative values, the logo, the caption and `savefig`. It is rendering with no stateable logic.
- IEEE floating-point rounding in the midpoint and in `sum(x / len(x))` is not modelled. Values are `real`.
- NaN cells are not modelled. A missing value is one that is `<= 0`, as the data set encodes it.
- pandas and numpy internals (`apply`, `isin`, `unique`, `to_numpy`, `concatenate`) are modelled only by what they do to a sequence of rows.
- The script rebinds `df_lcoe` to a new filtered DataFrame. The model updates the one table object in place (`Pipeline.Frame.DropSkippedTypes`). No other reference to the old frame exists, so the difference cannot be observed.
