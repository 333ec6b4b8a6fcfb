/** Step 4 of the pipeline: the chart's rows are the distinct categories in
    order of first appearance, and each category gets one flat array holding
    the lows, then the points, then the highs of its rows. */
module Grouping {
  import opened LcoeData
  import opened Permutations

  /** No element occurs twice. */
  predicate Distinct(s: seq<string>) {
    forall i, j :: 0 <= i < j < |s| ==> s[i] != s[j]
  }

  /** A list is duplicate-free exactly when no element occurs more than once in its multiset. */
  lemma {:induction false} DistinctIffSingletons(s: seq<string>)
    ensures Distinct(s) <==> forall x :: multiset(s)[x] <= 1
  {
    if s != [] {
      var t := s[1..];
      DistinctIffSingletons(t);
      assert s == [s[0]] + t;
      assert forall x :: multiset(s)[x] == multiset(t)[x] + (if x == s[0] then 1 else 0);
      if Distinct(s) {
        assert s[0] !in t;
        assert Distinct(t) by {
          forall i, j | 0 <= i < j < |t| ensures t[i] != t[j] {
            assert t[i] == s[i + 1] && t[j] == s[j + 1];
          }
        }
      }
      if forall x :: multiset(s)[x] <= 1 {
        assert multiset(s)[s[0]] <= 1;
        assert s[0] !in t;
        forall i, j | 0 <= i < j < |s| ensures s[i] != s[j] {
          assert s[j] == t[j - 1];
          if i > 0 {
            assert s[i] == t[i - 1];
          }
        }
      }
    }
  }

  /** Position of the first occurrence of `x` in `s`. */
  function FirstIndex(s: seq<string>, x: string): (k: nat)
    requires x in s
    ensures k < |s| && s[k] == x
    ensures forall j :: 0 <= j < k ==> s[j] != x
  {
    if s[0] == x then 0 else 1 + FirstIndex(s[1..], x)
  }

  /** The first occurrence in a prefix is the first occurrence in the whole. */
  lemma FirstIndexPrefix(s: seq<string>, n: nat, x: string)
    requires n <= |s| && x in s[..n]
    ensures FirstIndex(s[..n], x) == FirstIndex(s, x)
  {
    var k := FirstIndex(s[..n], x);
    assert s[k] == x;
  }

  /** Values ordered by their first occurrence in `s`. */
  predicate FirstAppearanceOrder(s: seq<string>, u: seq<string>)
    requires forall x :: x in u ==> x in s
  {
    forall i, j :: 0 <= i < j < |u| ==> FirstIndex(s, u[i]) < FirstIndex(s, u[j])
  }

  /** A new last entry of the column comes after every earlier value in
      first-appearance order. */
  lemma UniqueStepOrder(s: seq<string>, u: seq<string>)
    requires s != []
    requires forall x :: x in u <==> x in s[..|s| - 1]
    requires FirstAppearanceOrder(s[..|s| - 1], u)
    ensures FirstAppearanceOrder(s, u)
    ensures s[|s| - 1] !in u ==> FirstAppearanceOrder(s, u + [s[|s| - 1]])
  {
    var init, last := s[..|s| - 1], s[|s| - 1];
    assert s == init + [last];
    forall x | x in u ensures x in s && FirstIndex(s, x) == FirstIndex(init, x) {
      FirstIndexPrefix(s, |s| - 1, x);
    }
    if last !in u {
      assert FirstIndex(s, last) == |s| - 1;
      var r := u + [last];
      forall i, j | 0 <= i < j < |r| ensures FirstIndex(s, r[i]) < FirstIndex(s, r[j]) {
        assert r[i] == u[i];
        if j < |u| {
          assert r[j] == u[j];
        }
      }
    }
  }

  /** `unique()` on the Category column: each value once, in order of first appearance. */
  function UniqueInOrder(s: seq<string>): (u: seq<string>)
    ensures Distinct(u)
    ensures forall x :: x in u <==> x in s
    ensures FirstAppearanceOrder(s, u)
  {
    if s == [] then []
    else
      var u := UniqueInOrder(s[..|s| - 1]);
      assert s == s[..|s| - 1] + [s[|s| - 1]];
      UniqueStepOrder(s, u);
      if s[|s| - 1] in u then u else u + [s[|s| - 1]]
  }

  /** The mask selecting the rows of category `c`. */
  function InCategory(c: string): Row -> bool {
    (r: Row) => r.category == c
  }

  /** `df_cat`: the rows of one category, in table order. */
  function RowsOf(rows: seq<Row>, c: string): (sel: seq<Row>)
    ensures |sel| <= |rows|
    ensures forall r :: r in sel <==> r in rows && r.category == c
  {
    KeepComplete(rows, InCategory(c));
    Keep(rows, InCategory(c))
  }

  /** A category has as many rows as it has entries in the Category column. */
  lemma {:induction false} RowsOfCount(rows: seq<Row>, c: string)
    ensures |RowsOf(rows, c)| == multiset(Categories(rows))[c]
  {
    if rows != [] {
      RowsOfCount(rows[1..], c);
      assert Categories(rows) == [rows[0].category] + Categories(rows[1..]);
    }
  }

  /** The LCOE Low, LCOE and LCOE High columns as arrays (`to_numpy`). */
  function Lows(rows: seq<Row>): seq<real> {
    seq(|rows|, i requires 0 <= i < |rows| => rows[i].low)
  }

  function Points(rows: seq<Row>): seq<real> {
    seq(|rows|, i requires 0 <= i < |rows| => rows[i].lcoe)
  }

  function Highs(rows: seq<Row>): seq<real> {
    seq(|rows|, i requires 0 <= i < |rows| => rows[i].high)
  }

  /** `get_lcoe_by_category`: three values per row of the category, laid out
      as all lows, then all points, then all highs, each in table order. */
  function GroupValues(rows: seq<Row>, c: string): (g: seq<real>)
    ensures |g| == 3 * |RowsOf(rows, c)| == 3 * multiset(Categories(rows))[c]
    ensures c in Categories(rows) ==> |g| > 0
    ensures var sel := RowsOf(rows, c);
            forall i :: 0 <= i < |sel| ==>
              g[i] == sel[i].low && g[|sel| + i] == sel[i].lcoe && g[2 * |sel| + i] == sel[i].high
  {
    RowsOfCount(rows, c);
    var sel := RowsOf(rows, c);
    Lows(sel) + Points(sel) + Highs(sel)
  }

  /** `lcoe_values`: one array per key, in key order. */
  function GroupAll(rows: seq<Row>, keys: seq<string>): (gs: seq<seq<real>>)
    ensures |gs| == |keys|
    ensures forall i :: 0 <= i < |keys| ==> gs[i] == GroupValues(rows, keys[i])
  {
    if keys == [] then [] else [GroupValues(rows, keys[0])] + GroupAll(rows, keys[1..])
  }

  /** Total number of values held by the arrays. */
  function TotalLength(gs: seq<seq<real>>): nat {
    if gs == [] then 0 else |gs[0]| + TotalLength(gs[1..])
  }

  lemma {:induction false} TotalLengthAppend(a: seq<seq<real>>, b: seq<seq<real>>)
    ensures TotalLength(a + b) == TotalLength(a) + TotalLength(b)
  {
    if a == [] {
      assert a + b == b;
    } else {
      TotalLengthAppend(a[1..], b);
      assert (a + b)[1..] == a[1..] + b;
    }
  }

  /** Reordering the arrays does not change how many values they hold. */
  lemma {:induction false} TotalLengthPermutation(a: seq<seq<real>>, b: seq<seq<real>>)
    requires multiset(a) == multiset(b)
    ensures TotalLength(a) == TotalLength(b)
  {
    if a != [] {
      var k := RemoveFirst(a, b);
      var pre, post := b[..k], b[k + 1..];
      TotalLengthPermutation(a[1..], pre + post);
      assert a == [a[0]] + a[1..];
      TotalLengthAppend(pre + [b[k]], post);
      TotalLengthAppend(pre, [b[k]]);
      TotalLengthAppend(pre, post);
    }
  }

  /** Sum over `keys` of the multiplicity of each key in `m`. */
  function CountOver(keys: seq<string>, m: multiset<string>): nat {
    if keys == [] then 0 else m[keys[0]] + CountOver(keys[1..], m)
  }

  lemma {:induction false} CountOverEmpty(keys: seq<string>)
    ensures CountOver(keys, multiset{}) == 0
  {
    if keys != [] {
      CountOverEmpty(keys[1..]);
    }
  }

  lemma {:induction false} CountOverAdd(keys: seq<string>, m: multiset<string>, x: string)
    ensures CountOver(keys, m + multiset{x}) == CountOver(keys, m) + multiset(keys)[x]
  {
    if keys != [] {
      CountOverAdd(keys[1..], m, x);
      assert keys == [keys[0]] + keys[1..];
    }
  }

  lemma {:induction false} DistinctOccursOnce(keys: seq<string>, x: string)
    requires Distinct(keys) && x in keys
    ensures multiset(keys)[x] == 1
  {
    assert keys == [keys[0]] + keys[1..];
    if keys[0] == x {
      assert x !in keys[1..];
    } else {
      DistinctOccursOnce(keys[1..], x);
    }
  }

  /** Distinct keys covering a column count each entry of the column once. */
  lemma {:induction false} CountOverCovering(keys: seq<string>, cats: seq<string>)
    requires Distinct(keys)
    requires forall c :: c in cats ==> c in keys
    ensures CountOver(keys, multiset(cats)) == |cats|
  {
    if cats == [] {
      CountOverEmpty(keys);
    } else {
      var init := cats[..|cats| - 1];
      var last := cats[|cats| - 1];
      assert cats == init + [last];
      CountOverCovering(keys, init);
      CountOverAdd(keys, multiset(init), last);
      DistinctOccursOnce(keys, last);
    }
  }

  lemma {:induction false} TotalLengthIsCount(rows: seq<Row>, keys: seq<string>)
    ensures TotalLength(GroupAll(rows, keys)) == 3 * CountOver(keys, multiset(Categories(rows)))
  {
    if keys != [] {
      TotalLengthIsCount(rows, keys[1..]);
      assert GroupAll(rows, keys)[1..] == GroupAll(rows, keys[1..]);
    }
  }

  /** With one key per category, the arrays hold 3 values per row of the table. */
  lemma GroupSizesSum(rows: seq<Row>, keys: seq<string>)
    requires Distinct(keys)
    requires forall c :: c in Categories(rows) ==> c in keys
    ensures TotalLength(GroupAll(rows, keys)) == 3 * |rows|
  {
    TotalLengthIsCount(rows, keys);
    CountOverCovering(keys, Categories(rows));
  }

  /** Keying the arrays by the distinct categories gives every array at least one value. */
  lemma GroupsNonEmpty(rows: seq<Row>)
    ensures forall c :: c in UniqueInOrder(Categories(rows)) ==> |GroupValues(rows, c)| > 0
  {
  }
}
