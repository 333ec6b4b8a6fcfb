/** Facts about reordered sequences, used where the ranking reorders the
    (category, values) pairs. */
module Permutations {

  /** Removing one occurrence of `a[0]` from a permutation of `a` leaves a
      permutation of `a[1..]`. */
  lemma RemoveFirst<T>(a: seq<T>, b: seq<T>) returns (k: nat)
    requires a != [] && multiset(a) == multiset(b)
    ensures k < |b| && b[k] == a[0]
    ensures b == b[..k] + [a[0]] + b[k + 1..]
    ensures multiset(a[1..]) == multiset(b[..k] + b[k + 1..])
  {
    assert a[0] in multiset(b);
    k :| 0 <= k < |b| && b[k] == a[0];
    assert b == b[..k] + [b[k]] + b[k + 1..];
    assert a == [a[0]] + a[1..];
    assert multiset(b) == multiset(b[..k]) + multiset{a[0]} + multiset(b[k + 1..]);
    assert multiset(b[..k] + b[k + 1..]) == multiset(b[..k]) + multiset(b[k + 1..]);
    assert multiset(a[1..]) == multiset(a) - multiset{a[0]};
  }

  /** `f` applied to every element, in order. */
  function Project<A, B>(s: seq<A>, f: A -> B): (r: seq<B>)
    ensures |r| == |s|
  {
    if s == [] then [] else [f(s[0])] + Project(s[1..], f)
  }

  lemma {:induction false} ProjectAppend<A, B>(s: seq<A>, t: seq<A>, f: A -> B)
    ensures Project(s + t, f) == Project(s, f) + Project(t, f)
  {
    if s == [] {
      assert s + t == t;
    } else {
      assert (s + t)[1..] == s[1..] + t;
      ProjectAppend(s[1..], t, f);
    }
  }

  /** Projecting two permutations of each other gives permutations of each other. */
  lemma {:induction false} ProjectPermutation<A, B>(a: seq<A>, b: seq<A>, f: A -> B)
    requires multiset(a) == multiset(b)
    ensures multiset(Project(a, f)) == multiset(Project(b, f))
  {
    if a != [] {
      var k := RemoveFirst(a, b);
      var pre, post := b[..k], b[k + 1..];
      ProjectPermutation(a[1..], pre + post, f);
      ProjectAppend(pre + [a[0]], post, f);
      ProjectAppend(pre, [a[0]], f);
      ProjectAppend(pre, post, f);
      assert Project([a[0]], f) == [f(a[0])];
      var left, right := Project(pre, f), Project(post, f);
      assert multiset(Project(pre + post, f)) == multiset(left) + multiset(right);
      assert multiset(Project(b, f)) == multiset(left) + multiset{f(a[0])} + multiset(right);
    }
  }
}
