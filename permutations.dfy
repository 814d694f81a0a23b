/**
 * The enumeration behind `itertools.permutations`: every ordering of a list,
 * chosen by position, in lexicographic order of the positions.  The route search
 * runs over the orderings of the positions 0, 1, ..., n-1 of the stop list and
 * applies each one to the stops.
 */
module Permutations {

  /** The positions 0, 1, ..., n-1 of a list of length n. */
  function Range(n: nat): seq<nat>
  {
    seq(n, k => k)
  }

  /** `xs` without the element at position `i`. */
  function RemoveAt(xs: seq<nat>, i: nat): (r: seq<nat>)
    requires i < |xs|
    ensures |r| == |xs| - 1
  {
    xs[..i] + xs[i + 1..]
  }

  /** Every sequence of `ps`, with `x` put in front. */
  function PrependAll(x: nat, ps: seq<seq<nat>>): (r: seq<seq<nat>>)
    ensures |r| == |ps|
    ensures forall k :: 0 <= k < |ps| ==> r[k] == [x] + ps[k]
  {
    seq(|ps|, k requires 0 <= k < |ps| => [x] + ps[k])
  }

  /**
   * All orderings of `xs`: first those that start with `xs[0]`, then those that
   * start with `xs[1]`, and so on, each group ordered the same way recursively.
   */
  function Orderings(xs: seq<nat>): seq<seq<nat>>
    decreases |xs|, 1, 0
  {
    if xs == [] then [[]] else OrderingsFrom(xs, 0)
  }

  /** The orderings of `xs` whose first element is taken from position `i` or later. */
  function OrderingsFrom(xs: seq<nat>, i: nat): seq<seq<nat>>
    requires i <= |xs|
    decreases |xs|, 0, |xs| - i
  {
    if i == |xs| then []
    else PrependAll(xs[i], Orderings(RemoveAt(xs, i))) + OrderingsFrom(xs, i + 1)
  }

  /** `p` rearranges the positions 0, ..., n-1: each one appears exactly once. */
  predicate IsOrdering(p: seq<nat>, n: nat)
  {
    multiset(p) == multiset(Range(n))
  }

  /** Strict lexicographic order on sequences of positions (a proper prefix comes first). */
  predicate LexLess(a: seq<nat>, b: seq<nat>)
    decreases |a|
  {
    if a == [] then b != []
    else b != [] && (a[0] < b[0] || (a[0] == b[0] && LexLess(a[1..], b[1..])))
  }

  predicate LexSorted(ps: seq<seq<nat>>)
  {
    forall j, k :: 0 <= j < k < |ps| ==> LexLess(ps[j], ps[k])
  }

  predicate Increasing(xs: seq<nat>)
  {
    forall j, k :: 0 <= j < k < |xs| ==> xs[j] < xs[k]
  }

  function Factorial(n: nat): nat
  {
    if n == 0 then 1 else n * Factorial(n - 1)
  }

  // ----- what the enumeration yields -----

  lemma RemoveAtMultiset(xs: seq<nat>, i: nat)
    requires i < |xs|
    ensures multiset(xs) == multiset{xs[i]} + multiset(RemoveAt(xs, i))
  {
    assert xs == xs[..i] + [xs[i]] + xs[i + 1..];
  }

  /** Every enumerated sequence is an ordering of `xs`. */
  lemma {:induction false} OrderingsSound(xs: seq<nat>)
    ensures forall p: seq<nat> :: p in Orderings(xs) ==> multiset(p) == multiset(xs)
    decreases |xs|, 1, 0
  {
    if xs != [] {
      OrderingsFromSound(xs, 0);
    }
  }

  lemma {:induction false} OrderingsFromSound(xs: seq<nat>, i: nat)
    requires i <= |xs|
    ensures forall p: seq<nat> :: p in OrderingsFrom(xs, i) ==> multiset(p) == multiset(xs)
    decreases |xs|, 0, |xs| - i
  {
    if i < |xs| {
      var rest := RemoveAt(xs, i);
      var block := PrependAll(xs[i], Orderings(rest));
      OrderingsSound(rest);
      OrderingsFromSound(xs, i + 1);
      RemoveAtMultiset(xs, i);
      forall p: seq<nat> | p in block
        ensures multiset(p) == multiset(xs)
      {
        var k :| 0 <= k < |block| && block[k] == p;
        assert p == [xs[i]] + Orderings(rest)[k];
        assert Orderings(rest)[k] in Orderings(rest);
      }
    }
  }

  lemma {:induction false} OrderingsFromHas(xs: seq<nat>, j: nat, i: nat, q: seq<nat>)
    requires j <= i < |xs|
    requires q in Orderings(RemoveAt(xs, i))
    ensures [xs[i]] + q in OrderingsFrom(xs, j)
    decreases i - j
  {
    if j == i {
      var ps := Orderings(RemoveAt(xs, i));
      var k :| 0 <= k < |ps| && ps[k] == q;
      assert PrependAll(xs[i], ps)[k] == [xs[i]] + q;
    } else {
      OrderingsFromHas(xs, j + 1, i, q);
    }
  }

  /** Every ordering of `xs` is enumerated. */
  lemma {:induction false} OrderingsComplete(xs: seq<nat>, p: seq<nat>)
    requires multiset(p) == multiset(xs)
    ensures p in Orderings(xs)
    decreases |xs|
  {
    if xs == [] {
      assert |p| == |multiset(p)| == 0;
    } else {
      assert |p| == |multiset(p)| == |multiset(xs)| == |xs|;
      assert p[0] in multiset(xs);
      var i :| 0 <= i < |xs| && xs[i] == p[0];
      assert p == [p[0]] + p[1..];
      RemoveAtMultiset(xs, i);
      assert multiset(p) == multiset{p[0]} + multiset(p[1..]);
      assert multiset(p[1..]) == multiset(p) - multiset{p[0]};
      assert multiset(p[1..]) == multiset(RemoveAt(xs, i));
      OrderingsComplete(RemoveAt(xs, i), p[1..]);
      OrderingsFromHas(xs, 0, i, p[1..]);
    }
  }

  /** The first enumerated ordering is `xs` itself: itertools starts from the input order. */
  lemma {:induction false} OrderingsFirst(xs: seq<nat>)
    ensures |Orderings(xs)| > 0 && Orderings(xs)[0] == xs
    decreases |xs|
  {
    if xs != [] {
      OrderingsFirst(xs[1..]);
      assert RemoveAt(xs, 0) == xs[1..];
      assert [xs[0]] + xs[1..] == xs;
    }
  }

  /** There are n! orderings of n positions. */
  lemma {:induction false} OrderingsCount(xs: seq<nat>)
    ensures |Orderings(xs)| == Factorial(|xs|)
    decreases |xs|, 1, 0
  {
    if xs != [] {
      OrderingsFromCount(xs, 0);
    }
  }

  lemma {:induction false} OrderingsFromCount(xs: seq<nat>, i: nat)
    requires i <= |xs| && xs != []
    ensures |OrderingsFrom(xs, i)| == (|xs| - i) * Factorial(|xs| - 1)
    decreases |xs|, 0, |xs| - i
  {
    if i < |xs| {
      OrderingsCount(RemoveAt(xs, i));
      OrderingsFromCount(xs, i + 1);
      var f := Factorial(|xs| - 1);
      assert (|xs| - i) * f == f + (|xs| - (i + 1)) * f;
    }
  }

  // ----- lexicographic order of the enumeration -----

  lemma {:induction false} LexIrreflexive(a: seq<nat>)
    ensures !LexLess(a, a)
    decreases |a|
  {
    if a != [] {
      LexIrreflexive(a[1..]);
    }
  }

  lemma {:induction false} LexAsymmetric(a: seq<nat>, b: seq<nat>)
    requires LexLess(a, b)
    ensures !LexLess(b, a)
    decreases |a|
  {
    if a != [] && a[0] == b[0] {
      LexAsymmetric(a[1..], b[1..]);
    }
  }

  lemma RemoveAtIncreasing(xs: seq<nat>, i: nat)
    requires i < |xs| && Increasing(xs)
    ensures Increasing(RemoveAt(xs, i))
  {
    var r := RemoveAt(xs, i);
    forall j, k | 0 <= j < k < |r|
      ensures r[j] < r[k]
    {
      var j' := if j < i then j else j + 1;
      var k' := if k < i then k else k + 1;
      assert r[j] == xs[j'] && r[k] == xs[k'];
    }
  }

  lemma PrependAllSorted(x: nat, ps: seq<seq<nat>>)
    requires LexSorted(ps)
    ensures LexSorted(PrependAll(x, ps))
  {
    var r := PrependAll(x, ps);
    forall j, k | 0 <= j < k < |r|
      ensures LexLess(r[j], r[k])
    {
      assert r[j][1..] == ps[j] && r[k][1..] == ps[k];
    }
  }

  lemma ConcatSorted(a: seq<seq<nat>>, b: seq<seq<nat>>)
    requires LexSorted(a) && LexSorted(b)
    requires forall p: seq<nat>, q: seq<nat> :: p in a && q in b ==> LexLess(p, q)
    ensures LexSorted(a + b)
  {
    var r := a + b;
    forall j, k | 0 <= j < k < |r|
      ensures LexLess(r[j], r[k])
    {
      if k < |a| {
        assert r[j] == a[j] && r[k] == a[k];
      } else if j < |a| {
        assert r[j] == a[j] && r[k] == b[k - |a|];
        assert r[j] in a && r[k] in b;
      } else {
        assert r[j] == b[j - |a|] && r[k] == b[k - |a|];
      }
    }
  }

  /** Every ordering taken from position `i` on starts with `xs[i]` or a later (larger) element. */
  lemma {:induction false} OrderingsFromHeads(xs: seq<nat>, i: nat)
    requires i < |xs| && Increasing(xs)
    ensures forall p: seq<nat> :: p in OrderingsFrom(xs, i) ==> p != [] && xs[i] <= p[0]
    decreases |xs| - i
  {
    var block := PrependAll(xs[i], Orderings(RemoveAt(xs, i)));
    forall p: seq<nat> | p in block
      ensures p != [] && p[0] == xs[i]
    {
      var k :| 0 <= k < |block| && block[k] == p;
    }
    if i + 1 < |xs| {
      OrderingsFromHeads(xs, i + 1);
    }
  }

  /** The enumeration of an increasing list is strictly increasing in lexicographic order. */
  lemma {:induction false} OrderingsSorted(xs: seq<nat>)
    requires Increasing(xs)
    ensures LexSorted(Orderings(xs))
    decreases |xs|, 1, 0
  {
    if xs != [] {
      OrderingsFromSorted(xs, 0);
    }
  }

  lemma {:induction false} OrderingsFromSorted(xs: seq<nat>, i: nat)
    requires i <= |xs| && Increasing(xs)
    ensures LexSorted(OrderingsFrom(xs, i))
    decreases |xs|, 0, |xs| - i
  {
    if i < |xs| {
      var rest := RemoveAt(xs, i);
      var block := PrependAll(xs[i], Orderings(rest));
      var later := OrderingsFrom(xs, i + 1);
      RemoveAtIncreasing(xs, i);
      OrderingsSorted(rest);
      PrependAllSorted(xs[i], Orderings(rest));
      OrderingsFromSorted(xs, i + 1);
      if i + 1 < |xs| {
        OrderingsFromHeads(xs, i + 1);
      }
      forall p: seq<nat>, q: seq<nat> | p in block && q in later
        ensures LexLess(p, q)
      {
        var k :| 0 <= k < |block| && block[k] == p;
        assert p[0] == xs[i];
      }
      ConcatSorted(block, later);
    }
  }

  // ----- applying an ordering of positions to a list -----

  /** The list `items` read in the order of the positions `p` (`tuple(items[k] for k in p)`). */
  function Apply<T>(items: seq<T>, p: seq<nat>): (r: seq<T>)
    requires forall k :: 0 <= k < |p| ==> p[k] < |items|
    ensures |r| == |p|
  {
    seq(|p|, k requires 0 <= k < |p| => items[p[k]])
  }

  lemma OrderingInRange(p: seq<nat>, n: nat)
    requires IsOrdering(p, n)
    ensures |p| == n
    ensures forall k :: 0 <= k < |p| ==> p[k] < n
  {
    assert |p| == |multiset(p)| == |multiset(Range(n))| == n;
    forall k | 0 <= k < |p|
      ensures p[k] < n
    {
      assert p[k] in multiset(Range(n));
    }
  }

  lemma ApplyRemoveAt<T>(items: seq<T>, q: seq<nat>, i: nat)
    requires i < |q|
    requires forall k :: 0 <= k < |q| ==> q[k] < |items|
    ensures multiset(Apply(items, q)) == multiset{items[q[i]]} + multiset(Apply(items, RemoveAt(q, i)))
  {
    var left, right := Apply(items, q[..i]), Apply(items, q[i + 1..]);
    assert Apply(items, q) == left + [items[q[i]]] + right;
    assert Apply(items, RemoveAt(q, i)) == left + right;
  }

  lemma {:induction false} ApplyRearranges<T>(items: seq<T>, p: seq<nat>, q: seq<nat>)
    requires forall k :: 0 <= k < |p| ==> p[k] < |items|
    requires forall k :: 0 <= k < |q| ==> q[k] < |items|
    requires multiset(p) == multiset(q)
    ensures multiset(Apply(items, p)) == multiset(Apply(items, q))
    decreases |p|
  {
    if p == [] {
      assert |q| == |multiset(q)| == 0;
    } else {
      assert p[0] in multiset(q);
      var i :| 0 <= i < |q| && q[i] == p[0];
      var p', q' := RemoveAt(p, 0), RemoveAt(q, i);
      RemoveAtMultiset(p, 0);
      RemoveAtMultiset(q, i);
      assert multiset(p') == multiset(p) - multiset{p[0]};
      assert multiset(q') == multiset(q) - multiset{q[i]};
      RemoveAtInRange(p, 0, |items|);
      RemoveAtInRange(q, i, |items|);
      ApplyRearranges(items, p', q');
      ApplyRemoveAt(items, p, 0);
      ApplyRemoveAt(items, q, i);
    }
  }

  lemma RemoveAtInRange(xs: seq<nat>, i: nat, n: nat)
    requires i < |xs|
    requires forall k :: 0 <= k < |xs| ==> xs[k] < n
    ensures forall k :: 0 <= k < |xs| - 1 ==> RemoveAt(xs, i)[k] < n
  {
    forall k | 0 <= k < |xs| - 1
      ensures RemoveAt(xs, i)[k] < n
    {
      assert RemoveAt(xs, i)[k] == if k < i then xs[k] else xs[k + 1];
    }
  }

  /** Reading a list in the order of an ordering of its positions rearranges it. */
  lemma ApplyPermutes<T>(items: seq<T>, p: seq<nat>)
    requires IsOrdering(p, |items|)
    ensures |p| == |items|
    ensures forall k :: 0 <= k < |p| ==> p[k] < |items|
    ensures multiset(Apply(items, p)) == multiset(items)
  {
    OrderingInRange(p, |items|);
    ApplyRearranges(items, p, Range(|items|));
    assert Apply(items, Range(|items|)) == items;
  }

  /** `items` rearranged by an ordering of its positions. */
  function Arrange<T>(items: seq<T>, p: seq<nat>): (r: seq<T>)
    requires IsOrdering(p, |items|)
    ensures |r| == |items|
    ensures multiset(r) == multiset(items)
  {
    ApplyPermutes(items, p);
    Apply(items, p)
  }

  lemma RangeIncreasing(n: nat)
    ensures Increasing(Range(n))
  {
  }

  /**
   * `itertools.permutations(range(n))`: every ordering of the positions 0..n-1
   * and nothing else, each exactly once and in strictly increasing lexicographic
   * order, n! of them, the identity first.
   */
  function Candidates(n: nat): (r: seq<seq<nat>>)
    ensures forall i :: 0 <= i < |r| ==> IsOrdering(r[i], n)
    ensures forall p :: IsOrdering(p, n) ==> p in r
    ensures LexSorted(r)
    ensures |r| == Factorial(n)
    ensures |r| > 0 && r[0] == Range(n)
  {
    var r := Orderings(Range(n));
    OrderingsSound(Range(n));
    assert forall i :: 0 <= i < |r| ==> r[i] in r;
    assert forall p :: IsOrdering(p, n) ==> p in r by {
      forall p | IsOrdering(p, n) {
        OrderingsComplete(Range(n), p);
      }
    }
    RangeIncreasing(n);
    OrderingsSorted(Range(n));
    OrderingsCount(Range(n));
    OrderingsFirst(Range(n));
    r
  }
}
