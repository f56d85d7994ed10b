// Facts about sequences that several components share: order-preserving selections, sums
// over the threads of a protocol, and strictly ordered lists.
module Sequences {

  // ----- selections that keep the order -----

  // f picks, in order, the positions of b where the elements of a are found.
  ghost predicate Embeds<T>(f: seq<nat>, a: seq<T>, b: seq<T>) {
    && |f| == |a|
    && (forall i :: 0 <= i < |f| ==> f[i] < |b| && a[i] == b[f[i]])
    && (forall i, j :: 0 <= i < j < |f| ==> f[i] < f[j])
  }

  // a is b with some elements left out: nothing is invented, repeated or reordered.
  ghost predicate Subsequence<T>(a: seq<T>, b: seq<T>) {
    exists f: seq<nat> :: Embeds(f, a, b)
  }

  lemma SubsequenceSame<T>(a: seq<T>)
    ensures Subsequence(a, a)
  {
    assert Embeds(seq(|a|, i requires 0 <= i => i), a, a);
  }

  lemma SubsequenceSkip<T>(a: seq<T>, b: seq<T>, x: T)
    requires Subsequence(a, b)
    ensures Subsequence(a, b + [x])
  {
    var f: seq<nat> :| Embeds(f, a, b);
    assert Embeds(f, a, b + [x]);
  }

  lemma SubsequenceTake<T>(a: seq<T>, b: seq<T>, x: T)
    requires Subsequence(a, b)
    ensures Subsequence(a + [x], b + [x])
  {
    var f: seq<nat> :| Embeds(f, a, b);
    assert Embeds(f + [|b|], a + [x], b + [x]);
  }

  lemma SubsequenceDrop<T>(a: seq<T>, b: seq<T>, i: nat)
    requires Subsequence(a, b) && i < |a|
    ensures Subsequence(a[..i] + a[i + 1..], b)
  {
    var f: seq<nat> :| Embeds(f, a, b);
    assert Embeds(f[..i] + f[i + 1..], a[..i] + a[i + 1..], b);
  }

  lemma SubsequencePrefix<T>(a: seq<T>, b: seq<T>, n: nat)
    requires Subsequence(a, b) && n <= |a|
    ensures Subsequence(a[..n], b)
  {
    var f: seq<nat> :| Embeds(f, a, b);
    assert Embeds(f[..n], a[..n], b);
  }

  lemma SubsequenceTrans<T>(a: seq<T>, b: seq<T>, c: seq<T>)
    requires Subsequence(a, b) && Subsequence(b, c)
    ensures Subsequence(a, c)
  {
    var f: seq<nat> :| Embeds(f, a, b);
    var g: seq<nat> :| Embeds(g, b, c);
    assert Embeds(seq(|a|, i requires 0 <= i < |a| => g[f[i]]), a, c);
  }

  lemma SubsequenceLength<T>(a: seq<T>, b: seq<T>)
    requires Subsequence(a, b)
    ensures |a| <= |b|
  {
    var f: seq<nat> :| Embeds(f, a, b);
    if a != [] {
      var i := 0;
      while i < |f| - 1
        invariant 0 <= i < |f| && f[i] >= i
      {
        i := i + 1;
      }
    }
  }

  // ----- sums over the threads of a protocol -----

  ghost function Sum<T>(items: seq<T>, weight: T -> nat): nat {
    if items == [] then 0 else weight(items[0]) + Sum(items[1..], weight)
  }

  lemma {:induction false} SumAppend<T>(items: seq<T>, weight: T -> nat, x: T)
    ensures Sum(items + [x], weight) == Sum(items, weight) + weight(x)
  {
    if items == [] {
      assert [x][1..] == [];
    } else {
      assert (items + [x])[1..] == items[1..] + [x];
      SumAppend(items[1..], weight, x);
    }
  }

  lemma {:induction false} SumUpdate<T>(items: seq<T>, weight: T -> nat, i: nat, x: T)
    requires i < |items|
    ensures Sum(items[i := x], weight) + weight(items[i]) == Sum(items, weight) + weight(x)
  {
    if i == 0 {
      assert items[i := x][1..] == items[1..];
    } else {
      assert items[i := x][1..] == items[1..][i - 1 := x];
      SumUpdate(items[1..], weight, i - 1, x);
    }
  }

  // One thread never weighs more than all of them.
  lemma {:induction false} SumCovers<T>(items: seq<T>, weight: T -> nat, i: nat)
    requires i < |items|
    ensures weight(items[i]) <= Sum(items, weight)
  {
    if i > 0 {
      SumCovers(items[1..], weight, i - 1);
    }
  }

  lemma {:induction false} SumZero<T>(items: seq<T>, weight: T -> nat)
    ensures Sum(items, weight) == 0 <==> forall i :: 0 <= i < |items| ==> weight(items[i]) == 0
  {
    if items != [] {
      SumZero(items[1..], weight);
      assert forall i :: 1 <= i < |items| ==> items[i] == items[1..][i - 1];
      assert forall i :: 0 <= i < |items| - 1 ==> items[1..][i] == items[i + 1];
    }
  }

  lemma {:induction false} SumBelow<T>(items: seq<T>, light: T -> nat, heavy: T -> nat)
    requires forall i :: 0 <= i < |items| ==> light(items[i]) <= heavy(items[i])
    ensures Sum(items, light) <= Sum(items, heavy)
  {
    if items != [] {
      assert forall i :: 0 <= i < |items| - 1 ==> items[1..][i] == items[i + 1];
      SumBelow(items[1..], light, heavy);
    }
  }

  // ----- strictly ordered lists -----

  ghost predicate Ascending<T>(items: seq<T>, before: (T, T) -> bool) {
    forall i, j :: 0 <= i < j < |items| ==> before(items[i], items[j])
  }

  // before orders the elements of s strictly and completely.
  ghost predicate StrictOrderOn<T(!new)>(s: set<T>, before: (T, T) -> bool) {
    && (forall x :: x in s ==> !before(x, x))
    && (forall x, y :: x in s && y in s && x != y ==> before(x, y) || before(y, x))
    && (forall x, y, z :: x in s && y in s && z in s && before(x, y) && before(y, z) ==> before(x, z))
  }

  ghost function Elements<T>(items: seq<T>): set<T> {
    set x | x in items
  }

  ghost predicate AllDistinct<T>(items: seq<T>) {
    forall i, j :: 0 <= i < j < |items| ==> items[i] != items[j]
  }

  lemma PermutationElements<T>(a: seq<T>, b: seq<T>)
    requires multiset(a) == multiset(b)
    ensures |a| == |b| && Elements(a) == Elements(b)
  {
    assert |a| == |multiset(a)| == |multiset(b)| == |b|;
    assert forall x :: x in Elements(a) <==> x in multiset(a);
    assert forall x :: x in Elements(b) <==> x in multiset(b);
  }

  lemma {:induction false} CountDistinct<T>(items: seq<T>)
    ensures AllDistinct(items) <==> |Elements(items)| == |items|
    ensures |Elements(items)| <= |items|
  {
    if items == [] {
      NoElements(items);
    } else {
      var n := |items| - 1;
      CountDistinct(items[..n]);
      assert items == items[..n] + [items[n]];
      assert Elements(items) == Elements(items[..n]) + {items[n]};
      assert items[n] in Elements(items[..n]) <==> exists i :: 0 <= i < n && items[i] == items[n];
    }
  }

  lemma NoElements<T>(items: seq<T>)
    ensures Elements(items) == {} <==> items == []
  {
    assert items != [] ==> items[0] in Elements(items);
  }

  // A strict order leaves only one way to list a set.
  lemma {:induction false} AscendingUnique<T(!new)>(a: seq<T>, b: seq<T>, before: (T, T) -> bool)
    requires Ascending(a, before) && Ascending(b, before)
    requires Elements(a) == Elements(b)
    requires StrictOrderOn(Elements(a), before)
    ensures a == b
  {
    if a == [] {
      assert Elements(b) == {};
      NoElements(b);
    } else {
      assert a[0] in Elements(a);
      assert a[0] in Elements(b);
      assert b != [];
      assert b[0] in Elements(b);
      FirstIsLeast(a, b, before);
      AscendingUnique(a[1..], b[1..], before);
      assert a == [a[0]] + a[1..] && b == [b[0]] + b[1..];
    }
  }

  lemma FirstIsLeast<T(!new)>(a: seq<T>, b: seq<T>, before: (T, T) -> bool)
    requires Ascending(a, before) && Ascending(b, before) && a != [] && b != []
    requires Elements(a) == Elements(b)
    requires StrictOrderOn(Elements(a), before)
    ensures a[0] == b[0]
  {
    var first, other := a[0], b[0];
    assert first in Elements(a) && other in Elements(b);
    assert first in Elements(b) && other in Elements(a);
    var i :| 0 <= i < |b| && b[i] == first;
    var j :| 0 <= j < |a| && a[j] == other;
    assert (i == 0 || before(other, first)) && (j == 0 || before(first, other));
  }

  // ----- choosing and mapping -----

  ghost function FilterMap<T, U>(items: seq<T>, keep: T -> bool, f: T -> U): seq<U> {
    if items == [] then []
    else
      var n := |items| - 1;
      FilterMap(items[..n], keep, f) + if keep(items[n]) then [f(items[n])] else []
  }

  lemma FilterMapNext<T, U>(items: seq<T>, keep: T -> bool, f: T -> U, i: nat)
    requires i < |items|
    ensures FilterMap(items[..i + 1], keep, f) ==
      FilterMap(items[..i], keep, f) + if keep(items[i]) then [f(items[i])] else []
  {
    assert items[..i + 1][..i] == items[..i];
  }

  lemma {:induction false} FilterMapElement<T, U>(items: seq<T>, keep: T -> bool, f: T -> U, y: U)
    ensures y in FilterMap(items, keep, f) <==> exists x :: x in items && keep(x) && y == f(x)
  {
    if items != [] {
      var n := |items| - 1;
      FilterMapElement(items[..n], keep, f, y);
      assert items == items[..n] + [items[n]];
    }
  }

  lemma {:induction false} FilterMapAll<T, U>(items: seq<T>, keep: T -> bool, f: T -> U)
    requires forall i :: 0 <= i < |items| ==> keep(items[i])
    ensures |FilterMap(items, keep, f)| == |items|
    ensures forall i :: 0 <= i < |items| ==> FilterMap(items, keep, f)[i] == f(items[i])
  {
    if items != [] { FilterMapAll(items[..|items| - 1], keep, f); }
  }

  lemma FilterMapThree<T, U>(a: T, b: T, c: T, keep: T -> bool, f: T -> U)
    requires keep(a) && keep(b) && keep(c)
    ensures FilterMap([a, b, c], keep, f) == [f(a), f(b), f(c)]
  {
    FilterMapAll([a, b, c], keep, f);
  }

  // Where f keeps items apart, distinct items have distinct images.
  lemma {:induction false} FilterMapDistinct<T, U>(items: seq<T>, keep: T -> bool, f: T -> U)
    requires AllDistinct(items) && forall x, y :: f(x) == f(y) ==> x == y
    ensures AllDistinct(FilterMap(items, keep, f))
  {
    if items != [] {
      var n := |items| - 1;
      FilterMapDistinct(items[..n], keep, f);
      FilterMapElement(items[..n], keep, f, f(items[n]));
    }
  }
}
