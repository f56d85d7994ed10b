// Stable sorting by insertion, for any order.
module Sorting {
  import opened Sequences

  // Insertion from the right, past every element that x comes before.
  function Insert<T>(items: seq<T>, x: T, before: (T, T) -> bool): seq<T> {
    if items == [] then [x]
    else
      var n := |items| - 1;
      if before(x, items[n]) then Insert(items[..n], x, before) + [items[n]] else items + [x]
  }

  function Sorted<T>(items: seq<T>, before: (T, T) -> bool): seq<T> {
    if items == [] then []
    else
      var n := |items| - 1;
      Insert(Sorted(items[..n], before), items[n], before)
  }

  lemma {:induction false} InsertPermutes<T>(items: seq<T>, x: T, before: (T, T) -> bool)
    ensures multiset(Insert(items, x, before)) == multiset(items) + multiset{x}
  {
    if items != [] {
      var n := |items| - 1;
      InsertPermutes(items[..n], x, before);
      assert items == items[..n] + [items[n]];
    }
  }

  lemma {:induction false} SortedPermutes<T>(items: seq<T>, before: (T, T) -> bool)
    ensures multiset(Sorted(items, before)) == multiset(items)
    ensures |Sorted(items, before)| == |items|
    ensures Elements(Sorted(items, before)) == Elements(items)
  {
    if items != [] {
      var n := |items| - 1;
      SortedPermutes(items[..n], before);
      InsertPermutes(Sorted(items[..n], before), items[n], before);
      assert items == items[..n] + [items[n]];
    }
    PermutationElements(Sorted(items, before), items);
  }

  lemma AscendingAppend<T(!new)>(items: seq<T>, last: T, before: (T, T) -> bool)
    requires Ascending(items, before) && forall i :: 0 <= i < |items| ==> before(items[i], last)
    ensures Ascending(items + [last], before)
  {
  }

  lemma {:induction false} InsertAscending<T(!new)>(items: seq<T>, x: T, before: (T, T) -> bool)
    requires Ascending(items, before) && x !in items
    requires StrictOrderOn(Elements(items) + {x}, before)
    ensures Ascending(Insert(items, x, before), before)
    decreases |items|, 0
  {
    if items != [] {
      var n := |items| - 1;
      var last := items[n];
      assert items == items[..n] + [last] && last in Elements(items);
      if before(x, last) {
        InsertAscendingBehind(items[..n], last, x, before);
      } else {
        forall i | 0 <= i < |items| ensures before(items[i], x) {
          assert items[i] in Elements(items);
        }
        AscendingAppend(items, x, before);
      }
    }
  }

  lemma {:induction false} InsertAscendingBehind<T(!new)>(items: seq<T>, last: T, x: T, before: (T, T) -> bool)
    requires Ascending(items + [last], before) && x !in items && x != last && before(x, last)
    requires StrictOrderOn(Elements(items + [last]) + {x}, before)
    ensures Ascending(Insert(items, x, before) + [last], before)
    decreases |items|, 1
  {
    assert forall i :: 0 <= i < |items| ==> (items + [last])[i] == items[i];
    assert forall y :: y in Elements(items) ==> y in Elements(items + [last]);
    InsertAscending(items, x, before);
    InsertPermutes(items, x, before);
    var rest := Insert(items, x, before);
    forall i | 0 <= i < |rest| ensures before(rest[i], last) {
      assert rest[i] in multiset(rest);
      if rest[i] != x {
        var k :| 0 <= k < |items| && items[k] == rest[i];
        assert before((items + [last])[k], (items + [last])[|items|]);
      }
    }
    AscendingAppend(rest, last, before);
  }

  // Distinct elements that the order compares strictly come out ascending.
  lemma {:induction false} SortedAscending<T(!new)>(items: seq<T>, before: (T, T) -> bool)
    requires AllDistinct(items) && StrictOrderOn(Elements(items), before)
    ensures Ascending(Sorted(items, before), before)
  {
    if items != [] {
      var n := |items| - 1;
      var rest, last := Sorted(items[..n], before), items[n];
      assert items == items[..n] + [last];
      assert Elements(items) == Elements(items[..n]) + {last};
      StrictOrderSubset(Elements(items), Elements(items[..n]), before);
      SortedAscending(items[..n], before);
      SortedPermutes(items[..n], before);
      assert last in rest <==> last in Elements(items[..n]);
      InsertAscending(rest, last, before);
    }
  }

  lemma StrictOrderSubset<T(!new)>(s: set<T>, t: set<T>, before: (T, T) -> bool)
    requires StrictOrderOn(s, before) && t <= s
    ensures StrictOrderOn(t, before)
  {
  }

  lemma SwapStep<T>(all: seq<T>, left: seq<T>, last: T, x: T, right: seq<T>)
    requires all == (left + [last]) + [x] + right
    ensures var j := |left| + 1;
      all[j] == x && all[j - 1] == last && all[j := last][j - 1 := x] == left + [x] + ([last] + right)
  {
  }

  // An element that comes before all others is sorted to the front.
  lemma {:induction false} InsertFirst<T>(items: seq<T>, y: T, x: T, before: (T, T) -> bool)
    requires !before(x, x) && (y != x ==> !before(y, x))
    requires forall z :: z in items && z != x ==> before(x, z)
    requires x in items ==> items[0] == x
    requires y == x || x in items
    ensures Insert(items, y, before)[0] == x
  {
    if items != [] {
      var n := |items| - 1;
      assert items[n] in items;
      if before(y, items[n]) {
        assert x in items ==> n > 0 && items[..n][0] == x;
        InsertFirst(items[..n], y, x, before);
        InsertPermutes(items[..n], y, before);
      }
    }
  }

  lemma {:induction false} SortedFirst<T>(items: seq<T>, x: T, before: (T, T) -> bool)
    requires x in items && !before(x, x)
    requires forall z :: z in items && z != x ==> before(x, z) && !before(z, x)
    ensures Sorted(items, before) != [] && Sorted(items, before)[0] == x
  {
    var n := |items| - 1;
    assert items == items[..n] + [items[n]];
    SortedPermutes(items[..n], before);
    assert forall z :: z in Sorted(items[..n], before) <==> z in Elements(items[..n]);
    assert forall z :: z in Elements(items[..n]) ==> z in items;
    if x in items[..n] { SortedFirst(items[..n], x, before); }
    InsertFirst(Sorted(items[..n], before), items[n], x, before);
    SortedPermutes(items, before);
  }

  // ----- stability -----

  // The elements that p picks out, in their order.
  ghost function Pick<T>(items: seq<T>, p: T -> bool): seq<T> { FilterMap(items, p, x => x) }

  lemma PickLast<T>(items: seq<T>, last: T, p: T -> bool)
    ensures Pick(items + [last], p) == Pick(items, p) + if p(last) then [last] else []
  {
    assert (items + [last])[..|items|] == items;
  }

  lemma {:induction false} InsertStable<T(!new)>(items: seq<T>, x: T, before: (T, T) -> bool, p: T -> bool)
    requires forall a, b :: p(a) && p(b) ==> !before(a, b)
    ensures Pick(Insert(items, x, before), p) == Pick(items, p) + if p(x) then [x] else []
  {
    if items == [] {
      PickLast([], x, p);
      assert [] + [x] == [x];
    } else {
      var n := |items| - 1;
      PickLast(items, x, p);
      if before(x, items[n]) {
        InsertStable(items[..n], x, before, p);
        PickLast(Insert(items[..n], x, before), items[n], p);
        PickLast(items[..n], items[n], p);
        assert items == items[..n] + [items[n]];
      }
    }
  }

  // Sorting is stable: elements none of which comes before another keep their order.
  lemma {:induction false} SortedStable<T(!new)>(items: seq<T>, before: (T, T) -> bool, p: T -> bool)
    requires forall a, b :: p(a) && p(b) ==> !before(a, b)
    ensures Pick(Sorted(items, before), p) == Pick(items, p)
  {
    if items != [] {
      var n := |items| - 1;
      SortedStable(items[..n], before, p);
      InsertStable(Sorted(items[..n], before), items[n], before, p);
      PickLast(items[..n], items[n], p);
      assert items == items[..n] + [items[n]];
    }
  }

  // ----- in place -----

  // Sift the element at i left to its place.
  method Sift<T>(a: array<T>, i: nat, before: (T, T) -> bool)
    requires i < a.Length
    modifies a
    ensures a[..] == Insert(old(a[..i]), old(a[i]), before) + old(a[i + 1..])
  {
    ghost var x := a[i];
    ghost var left: seq<T> := a[..i];
    ghost var right: seq<T> := a[i + 1..];
    var j := i;
    assert a[..] == left + [x] + right;
    ghost var goal := Insert(left, x, before) + right;
    while j > 0 && before(a[j], a[j - 1])
      invariant j <= i && |left| == j
      invariant a[..] == left + [x] + right
      invariant Insert(left, x, before) + right == goal
    {
      ghost var shorter, last := left[..j - 1], left[j - 1];
      assert left == shorter + [last];
      SwapStep(a[..], shorter, last, x, right);
      assert Insert(shorter, x, before) + ([last] + right) == goal;
      ghost var swapped := a[..][j := last][j - 1 := x];
      a[j], a[j - 1] := a[j - 1], a[j];
      assert a[..] == swapped;
      left, right := shorter, [last] + right;
      j := j - 1;
    }
    if j > 0 {
      assert left == left[..j - 1] + [left[j - 1]];
      assert a[..][j] == x && a[..][j - 1] == left[j - 1];
    }
  }

  method SortStable<T>(a: array<T>, before: (T, T) -> bool)
    modifies a
    ensures a[..] == Sorted(old(a[..]), before)
  {
    ghost var items := a[..];
    assert items == [] + items[0..];
    for i := 0 to a.Length
      invariant a[..] == Sorted(items[..i], before) + items[i..]
    {
      SortedPermutes(items[..i], before);
      ghost var sorted, rest := Sorted(items[..i], before), items[i..];
      assert a[..][..i] == sorted && a[..][i..] == rest;
      assert a[..i] == sorted && a[i] == items[i] && a[i + 1..] == rest[1..] == items[i + 1..];
      Sift(a, i, before);
      assert items[..i + 1][..i] == items[..i];
    }
    assert items[..a.Length] == items && items[a.Length..] == [];
  }
}
