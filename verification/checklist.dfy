/** The checklist aggregation (`getChecklistSummary` in script.js): the
    checked service items are kept in declaration order, their weights are
    summed with non-finite weights counting as 0, and their labels listed. */
module Checklist {
  import opened JsValues

  /** One checklist checkbox: its value `name` (the label shown back to the user),
      its declared weight (`Number(dataset.weight)`, which may be non-finite)
      and whether it is checked. */
  datatype Item = Item(name: string, weight: Num, checked: bool)

  /** The aggregation result: the weighted sum and the checked labels. */
  datatype Summary = Summary(sum: real, items: seq<string>)

  /** The checked items, in declaration order (`filter`). */
  function Selected(items: seq<Item>): (s: seq<Item>)
    ensures |s| <= |items|
    ensures forall i :: 0 <= i < |s| ==> s[i].checked
    ensures forall x :: x in s ==> x in items
  {
    if items == [] then []
    else if items[0].checked then [items[0]] + Selected(items[1..])
    else Selected(items[1..])
  }

  /** What one item adds inside the reducer: its weight when finite, else 0. */
  function Weight(it: Item): real {
    OrZero(it.weight)
  }

  /** The `reduce` over the selected items, a left fold from `acc`. */
  function AddWeights(acc: real, s: seq<Item>): real
    decreases |s|
  {
    if s == [] then acc else AddWeights(acc + Weight(s[0]), s[1..])
  }

  /** The labels of the given items, in order (`map`). */
  function Labels(s: seq<Item>): (ls: seq<string>)
    ensures |ls| == |s|
    ensures forall i :: 0 <= i < |s| ==> ls[i] == s[i].name
  {
    if s == [] then [] else [s[0].name] + Labels(s[1..])
  }

  /** `getChecklistSummary`, on the checkboxes in declaration order. The
      sum is exactly the finite weights of the checked items (unchecked
      items and non-finite weights add nothing), and one label is listed
      per checked item. */
  function Summarize(items: seq<Item>): (r: Summary)
    ensures r.sum == CheckedTotal(items)
    ensures |r.items| == CheckedCount(items)
  {
    var selected := Selected(items);
    AddWeightsSelected(0.0, items);
    SelectedCount(items);
    Summary(AddWeights(0.0, selected), Labels(selected))
  }

  /* ---------------- an independent definition of the sum ---------------- */

  /** What an item contributes to the total: a checked item its finite
      weight, anything else nothing. */
  function Contribution(it: Item): real {
    if it.checked && it.weight.Finite? then it.weight.r else 0.0
  }

  /** The total contribution of all items, summed from the right. */
  function CheckedTotal(items: seq<Item>): real
    decreases |items|
  {
    if items == [] then 0.0 else Contribution(items[0]) + CheckedTotal(items[1..])
  }

  lemma {:induction false} CheckedTotalAppend(a: seq<Item>, b: seq<Item>)
    ensures CheckedTotal(a + b) == CheckedTotal(a) + CheckedTotal(b)
    decreases |a|
  {
    if a == [] {
      assert a + b == b;
    } else {
      assert (a + b)[1..] == a[1..] + b;
      CheckedTotalAppend(a[1..], b);
    }
  }

  lemma {:induction false} AddWeightsSelected(acc: real, items: seq<Item>)
    ensures AddWeights(acc, Selected(items)) == acc + CheckedTotal(items)
    decreases |items|
  {
    if items != [] {
      AddWeightsSelected(acc + Weight(items[0]), items[1..]);
      AddWeightsSelected(acc, items[1..]);
      if items[0].checked {
        var s := [items[0]] + Selected(items[1..]);
        assert s[0] == items[0] && s[1..] == Selected(items[1..]);
      }
    }
  }

  /** Taking one item out of the middle removes exactly its contribution. */
  lemma {:induction false} CheckedTotalRemove(b: seq<Item>, j: int)
    requires 0 <= j < |b|
    ensures CheckedTotal(b) == Contribution(b[j]) + CheckedTotal(b[..j] + b[j + 1..])
  {
    var tail := [b[j]] + b[j + 1..];
    assert b == b[..j] + tail;
    CheckedTotalAppend(b[..j], tail);
    assert tail[1..] == b[j + 1..];
    CheckedTotalAppend(b[..j], b[j + 1..]);
  }

  lemma {:induction false} MultisetRemove(b: seq<Item>, j: int)
    requires 0 <= j < |b|
    ensures multiset(b[..j] + b[j + 1..]) == multiset(b) - multiset{b[j]}
  {
    assert b == b[..j] + [b[j]] + b[j + 1..];
  }

  /** Removing the first item of `a` and a matching item of its
      permutation `b` leaves two permutations of each other. */
  lemma {:induction false} RemoveMatching(a: seq<Item>, b: seq<Item>, j: int)
    requires multiset(a) == multiset(b)
    requires a != [] && 0 <= j < |b| && b[j] == a[0]
    ensures multiset(a[1..]) == multiset(b[..j] + b[j + 1..])
  {
    MultisetRemove(b, j);
    MultisetTail(a);
  }

  lemma {:induction false} MultisetTail(a: seq<Item>)
    requires a != []
    ensures multiset(a[1..]) == multiset(a) - multiset{a[0]}
  {
    assert a == [a[0]] + a[1..];
  }

  lemma {:induction false} CheckedTotalPermutation(a: seq<Item>, b: seq<Item>)
    requires multiset(a) == multiset(b)
    ensures CheckedTotal(a) == CheckedTotal(b)
    decreases |a|
  {
    if a == [] {
      assert |b| == |multiset(b)| == 0;
    } else {
      assert a[0] in multiset(b) by { assert a[0] in multiset(a); }
      var j :| 0 <= j < |b| && b[j] == a[0];
      RemoveMatching(a, b, j);
      CheckedTotalPermutation(a[1..], b[..j] + b[j + 1..]);
      CheckedTotalRemove(b, j);
    }
  }

  /** Reordering the checkboxes never changes the sum. */
  lemma SumPermutationInvariant(a: seq<Item>, b: seq<Item>)
    requires multiset(a) == multiset(b)
    ensures Summarize(a).sum == Summarize(b).sum
  {
    CheckedTotalPermutation(a, b);
  }

  /* ---------------- declaration order of the labels ---------------- */

  lemma {:induction false} SelectedAppend(a: seq<Item>, b: seq<Item>)
    ensures Selected(a + b) == Selected(a) + Selected(b)
    decreases |a|
  {
    if a == [] {
      assert a + b == b;
    } else {
      assert (a + b)[0] == a[0];
      assert (a + b)[1..] == a[1..] + b;
      SelectedAppend(a[1..], b);
    }
  }

  /** The label list is built piecewise along the declaration order: the
      labels of a concatenation are the labels of the first part followed by
      those of the second, and a single checkbox yields its own label exactly
      when it is checked. Together these fix the list as the checked labels
      in declaration order (not the order the boxes were ticked). */
  lemma {:induction false} SummaryItemsInDeclarationOrder(a: seq<Item>, b: seq<Item>, x: Item)
    ensures Summarize(a + b).items == Summarize(a).items + Summarize(b).items
    ensures Summarize([x]).items == if x.checked then [x.name] else []
  {
    SelectedAppend(a, b);
    LabelsAppend(Selected(a), Selected(b));
    assert [x][1..] == [];
  }

  lemma {:induction false} LabelsAppend(a: seq<Item>, b: seq<Item>)
    ensures Labels(a + b) == Labels(a) + Labels(b)
  {
    var l := Labels(a + b);
    assert forall i :: 0 <= i < |a| ==> l[i] == a[i].name;
    assert forall i :: |a| <= i < |a| + |b| ==> l[i] == b[i - |a|].name;
  }

  /** The number of checked items. */
  function CheckedCount(items: seq<Item>): nat
    decreases |items|
  {
    if items == [] then 0 else (if items[0].checked then 1 else 0) + CheckedCount(items[1..])
  }

  /** One item is selected per checked checkbox. */
  lemma {:induction false} SelectedCount(items: seq<Item>)
    ensures |Selected(items)| == CheckedCount(items)
    decreases |items|
  {
    if items != [] {
      SelectedCount(items[1..]);
    }
  }

  /** With no negative weight declared, the sum is never negative. */
  lemma {:induction false} SumNonNegative(items: seq<Item>)
    requires forall i :: 0 <= i < |items| && items[i].weight.Finite? ==> items[i].weight.r >= 0.0
    ensures Summarize(items).sum >= 0.0
  {
    CheckedTotalNonNegative(items);
  }

  lemma {:induction false} CheckedTotalNonNegative(items: seq<Item>)
    requires forall i :: 0 <= i < |items| && items[i].weight.Finite? ==> items[i].weight.r >= 0.0
    ensures CheckedTotal(items) >= 0.0
    decreases |items|
  {
    if items != [] {
      CheckedTotalNonNegative(items[1..]);
    }
  }
}
