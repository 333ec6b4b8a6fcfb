/** Step 5 of the pipeline: the (category, values) pairs are sorted, stably,
    by the negated mean of the values, so the chart lists categories from the
    highest mean LCOE to the lowest; the pairs are then split back into a key
    list and a value list. */
module Ranking {
  import opened Permutations

  /** One `[key, array]` pair. */
  datatype Keyed = Keyed(key: string, values: seq<real>)

  function Sum(xs: seq<real>): real {
    if xs == [] then 0.0 else xs[0] + Sum(xs[1..])
  }

  /** Sum of `x / n` over the elements (the array is divided before summing). */
  function ScaledSum(xs: seq<real>, n: real): real
    requires xs != [] ==> n != 0.0
  {
    if xs == [] then 0.0 else xs[0] / n + ScaledSum(xs[1..], n)
  }

  /** The mean inside the sort key, `sum(x / len(x))`: each element is divided
      by the length before summing; an empty array sums to 0. */
  function SortMean(xs: seq<real>): (m: real)
    ensures xs == [] ==> m == 0.0
    ensures xs != [] ==> m == Sum(xs) / (|xs| as real)
  {
    if xs != [] then ScaledSumIsQuotient(xs, |xs| as real); ScaledSum(xs, |xs| as real)
    else 0.0
  }

  lemma {:induction false} ScaledSumIsQuotient(xs: seq<real>, n: real)
    requires n != 0.0
    ensures ScaledSum(xs, n) == Sum(xs) / n
  {
    if xs != [] {
      ScaledSumIsQuotient(xs[1..], n);
    }
  }

  /** The key handed to `sorted`: the negated mean, so that a higher mean
      sorts earlier. */
  function SortKey(p: Keyed): (k: real)
    ensures p.values != [] ==> k == -(Sum(p.values) / (|p.values| as real))
    ensures p.values == [] ==> k == 0.0
  {
    -SortMean(p.values)
  }

  /** Keys never decrease along the list. */
  predicate AscendingBy(s: seq<Keyed>, key: Keyed -> real) {
    forall i, j :: 0 <= i < j < |s| ==> key(s[i]) <= key(s[j])
  }

  /** Insert `x` in front of the first element whose key is not smaller:
      `x` goes before every element it ties with. */
  function Insert(x: Keyed, s: seq<Keyed>, key: Keyed -> real): seq<Keyed> {
    if s == [] then [x]
    else if key(x) <= key(s[0]) then [x] + s
    else [s[0]] + Insert(x, s[1..], key)
  }

  lemma {:induction false} InsertPermutation(x: Keyed, s: seq<Keyed>, key: Keyed -> real)
    ensures multiset(Insert(x, s, key)) == multiset(s) + multiset{x}
  {
    if s != [] && key(x) > key(s[0]) {
      InsertPermutation(x, s[1..], key);
      assert s == [s[0]] + s[1..];
    }
  }

  /** A list stays ascending when an element no larger than all of it is put in front. */
  lemma ConsAscending(a: Keyed, t: seq<Keyed>, key: Keyed -> real)
    requires AscendingBy(t, key)
    requires forall j :: 0 <= j < |t| ==> key(a) <= key(t[j])
    ensures AscendingBy([a] + t, key)
  {
    var r := [a] + t;
    forall i, j | 0 <= i < j < |r| ensures key(r[i]) <= key(r[j]) {
      assert r[j] == t[j - 1];
      if i > 0 {
        assert r[i] == t[i - 1];
      }
    }
  }

  lemma {:induction false} InsertAscending(x: Keyed, s: seq<Keyed>, key: Keyed -> real)
    requires AscendingBy(s, key)
    ensures AscendingBy(Insert(x, s, key), key)
  {
    if s == [] {
    } else if key(x) > key(s[0]) {
      var rest := Insert(x, s[1..], key);
      InsertAscending(x, s[1..], key);
      InsertPermutation(x, s[1..], key);
      forall y | y in rest ensures key(s[0]) <= key(y) {
        assert y in multiset(rest);
        if y != x {
          assert y in multiset(s[1..]);
          var j :| 0 <= j < |s[1..]| && s[1..][j] == y;
          assert s[j + 1] == y;
        }
      }
      forall j | 0 <= j < |rest| ensures key(s[0]) <= key(rest[j]) {
        assert rest[j] in rest;
      }
      ConsAscending(s[0], rest, key);
    } else {
      ConsAscending(x, s, key);
    }
  }

  /** Python's `sorted(s, key=key)`: a stable sort, ascending by key. */
  function SortedBy(s: seq<Keyed>, key: Keyed -> real): (r: seq<Keyed>)
    ensures multiset(r) == multiset(s)
    ensures AscendingBy(r, key)
  {
    if s == [] then []
    else
      assert s == [s[0]] + s[1..];
      var rest := SortedBy(s[1..], key);
      InsertAscending(s[0], rest, key);
      InsertPermutation(s[0], rest, key);
      Insert(s[0], rest, key)
  }

  /** The pairs whose key equals `k`, in list order. */
  function Tied(s: seq<Keyed>, key: Keyed -> real, k: real): seq<Keyed> {
    if s == [] then []
    else (if key(s[0]) == k then [s[0]] else []) + Tied(s[1..], key, k)
  }

  lemma TiedCons(a: Keyed, t: seq<Keyed>, key: Keyed -> real, k: real)
    ensures Tied([a] + t, key, k) == (if key(a) == k then [a] else []) + Tied(t, key, k)
  {
    assert ([a] + t)[0] == a && ([a] + t)[1..] == t;
  }

  lemma {:induction false} InsertTied(x: Keyed, s: seq<Keyed>, key: Keyed -> real, k: real)
    ensures Tied(Insert(x, s, key), key, k) == (if key(x) == k then [x] else []) + Tied(s, key, k)
  {
    if s == [] {
      TiedCons(x, [], key, k);
    } else if key(x) > key(s[0]) {
      var rest := Insert(x, s[1..], key);
      assert Insert(x, s, key) == [s[0]] + rest;
      InsertTied(x, s[1..], key, k);
      TiedCons(s[0], rest, key, k);
      TiedCons(s[0], s[1..], key, k);
      assert s == [s[0]] + s[1..];
      var tx := if key(x) == k then [x] else [];
      var t0 := if key(s[0]) == k then [s[0]] else [];
      // x and s[0] have different keys, so at most one of them is tied
      assert t0 == [] || tx == [];
      calc {
        Tied(Insert(x, s, key), key, k);
        t0 + Tied(rest, key, k);
        t0 + (tx + Tied(s[1..], key, k));
      }
    } else {
      assert Insert(x, s, key) == [x] + s;
      TiedCons(x, s, key, k);
    }
  }

  /** Stability: the pairs sharing any one key come out in the order they went in. */
  lemma {:induction false} SortedByStable(s: seq<Keyed>, key: Keyed -> real, k: real)
    ensures Tied(SortedBy(s, key), key, k) == Tied(s, key, k)
  {
    if s != [] {
      SortedByStable(s[1..], key, k);
      InsertTied(s[0], SortedBy(s[1..], key), key, k);
    }
  }

  /** Means never increase along the list. */
  predicate DescendingByMean(s: seq<Keyed>) {
    forall i, j :: 0 <= i < j < |s| ==> SortMean(s[i].values) >= SortMean(s[j].values)
  }

  /** The pairs ranked from the highest mean to the lowest, as a
      permutation of the input in which equal means keep their input order. */
  function RankByMean(s: seq<Keyed>): (r: seq<Keyed>)
    ensures multiset(r) == multiset(s)
    ensures DescendingByMean(r)
    ensures forall k :: Tied(r, SortKey, k) == Tied(s, SortKey, k)
  {
    var r := SortedBy(s, SortKey);
    assert forall i, j :: 0 <= i < j < |r| ==> SortKey(r[i]) <= SortKey(r[j]);
    forall k ensures Tied(r, SortKey, k) == Tied(s, SortKey, k) {
      SortedByStable(s, SortKey, k);
    }
    r
  }

  /** The keys zipped with their arrays, position by position; splitting the
      result gives both lists back. */
  function Pair(keys: seq<string>, values: seq<seq<real>>): (ps: seq<Keyed>)
    requires |keys| == |values|
    ensures |ps| == |keys|
    ensures KeysOf(ps) == keys && ValuesOf(ps) == values
  {
    seq(|keys|, i requires 0 <= i < |keys| => Keyed(keys[i], values[i]))
  }

  /** The key list taken back out of the sorted pairs, in pair order. */
  function KeysOf(ps: seq<Keyed>): (ks: seq<string>)
    ensures |ks| == |ps|
    ensures forall i :: 0 <= i < |ps| ==> ks[i] == ps[i].key
  {
    seq(|ps|, i requires 0 <= i < |ps| => ps[i].key)
  }

  /** The array list taken back out of the sorted pairs, in pair order. */
  function ValuesOf(ps: seq<Keyed>): (vs: seq<seq<real>>)
    ensures |vs| == |ps|
    ensures forall i :: 0 <= i < |ps| ==> vs[i] == ps[i].values
  {
    seq(|ps|, i requires 0 <= i < |ps| => ps[i].values)
  }

  /** Zipping the split lists rebuilds the pairs: pairing and splitting are inverse. */
  lemma SplitPair(ps: seq<Keyed>)
    ensures Pair(KeysOf(ps), ValuesOf(ps)) == ps
  {
  }

  /** Reordering the pairs reorders the keys alike. */
  lemma KeysPermutation(a: seq<Keyed>, b: seq<Keyed>)
    requires multiset(a) == multiset(b)
    ensures multiset(KeysOf(a)) == multiset(KeysOf(b))
  {
    var key := (p: Keyed) => p.key;
    ProjectPermutation(a, b, key);
    ProjectIsKeys(a);
    ProjectIsKeys(b);
  }

  lemma {:induction false} ProjectIsKeys(s: seq<Keyed>)
    ensures Project(s, (p: Keyed) => p.key) == KeysOf(s)
  {
    if s != [] {
      ProjectIsKeys(s[1..]);
    }
  }

  /** Reordering the pairs reorders the arrays alike. */
  lemma ValuesPermutation(a: seq<Keyed>, b: seq<Keyed>)
    requires multiset(a) == multiset(b)
    ensures multiset(ValuesOf(a)) == multiset(ValuesOf(b))
  {
    var values := (p: Keyed) => p.values;
    ProjectPermutation(a, b, values);
    ProjectIsValues(a);
    ProjectIsValues(b);
  }

  lemma {:induction false} ProjectIsValues(s: seq<Keyed>)
    ensures Project(s, (p: Keyed) => p.values) == ValuesOf(s)
  {
    if s != [] {
      ProjectIsValues(s[1..]);
    }
  }
}
