/** The split calculation of the results screen: subtotal, tip, tax, total and
    the amount each person owes. Money is an exact `real`, so every division
    is exact and conservation of the total holds exactly. */
module Split {
  import opened SeqUtil

  datatype Item = Item(name: string, price: real, sharedBy: seq<string>)

  datatype ChargeKind = Percentage | Amount

  /** A tip or a tax: a percentage of the subtotal or a fixed amount. */
  datatype Charge = Charge(kind: ChargeKind, value: real)

  datatype SplitResult = SplitResult(
    splitBill: map<string, real>,
    subtotal: real,
    tipAmount: real,
    taxAmount: real,
    total: real)

  /** Sum of all item prices, added left to right from 0. */
  function Subtotal(items: seq<Item>): real
  {
    if items == [] then 0.0
    else Subtotal(items[..|items| - 1]) + items[|items| - 1].price
  }

  /** The subtotal of two lists of items is the sum of their subtotals. */
  lemma {:induction false} SubtotalAppend(a: seq<Item>, b: seq<Item>)
    ensures Subtotal(a + b) == Subtotal(a) + Subtotal(b)
  {
    if b == [] {
      assert a + b == a;
    } else {
      var init := b[..|b| - 1];
      assert (a + b)[..|a + b| - 1] == a + init;
      assert (a + b)[|a + b| - 1] == b[|b| - 1];
      SubtotalAppend(a, init);
    }
  }

  /** Sum of the prices of the items somebody shares. */
  function AssignedSubtotal(items: seq<Item>): real
  {
    if items == [] then 0.0
    else
      var last := items[|items| - 1];
      AssignedSubtotal(items[..|items| - 1]) + (if last.sharedBy == [] then 0.0 else last.price)
  }

  function ChargeAmount(c: Charge, subtotal: real): real
  {
    match c.kind
    case Percentage => subtotal * (c.value / 100.0)
    case Amount => c.value
  }

  /** The part of a charge that does not depend on the subtotal. */
  function FixedPart(c: Charge): real
  {
    if c.kind == Amount then c.value else 0.0
  }

  /** Every item with sharers can be divided by the subtotal `s`. */
  predicate Divisible(items: seq<Item>, s: real)
  {
    forall i :: 0 <= i < |items| && items[i].sharedBy != [] ==> s != 0.0
  }

  /** Every name an item is shared by is one of the people. */
  predicate SharersKnown(items: seq<Item>, people: seq<string>)
  {
    forall i, j :: 0 <= i < |items| && 0 <= j < |items[i].sharedBy| ==> items[i].sharedBy[j] in people
  }

  predicate AllAssigned(items: seq<Item>)
  {
    forall i :: 0 <= i < |items| ==> items[i].sharedBy != []
  }

  /** The item's price plus its part of the surcharge (tip plus tax),
      in proportion to its price. */
  function ItemTotal(item: Item, subtotal: real, surcharge: real): (r: real)
    requires subtotal != 0.0
    ensures r * subtotal == item.price * (subtotal + surcharge)
  {
    item.price + (item.price / subtotal) * surcharge
  }

  /** What each listing of a name in `sharedBy` receives: together the
      listings receive the whole fully loaded amount. */
  function SplitAmount(item: Item, subtotal: real, surcharge: real): (r: real)
    requires subtotal != 0.0 && item.sharedBy != []
    ensures r * |item.sharedBy| as real == ItemTotal(item, subtotal, surcharge)
  {
    ItemTotal(item, subtotal, surcharge) / |item.sharedBy| as real
  }

  /** What one item adds to `p`'s amount; nothing when nobody shares it. */
  function ItemShare(item: Item, p: string, subtotal: real, surcharge: real): real
    requires item.sharedBy != [] ==> subtotal != 0.0
  {
    if item.sharedBy == [] then 0.0
    else Times(Count(item.sharedBy, p), SplitAmount(item, subtotal, surcharge))
  }

  /** `n` additions of `a`, as `calculateSplit`'s `+=` makes them. */
  function Times(n: nat, a: real): real
  {
    if n == 0 then 0.0 else Times(n - 1, a) + a
  }

  lemma {:induction false} TimesAdd(m: nat, n: nat, a: real)
    ensures Times(m + n, a) == Times(m, a) + Times(n, a)
  {
    if n > 0 {
      TimesAdd(m, n - 1, a);
    }
  }

  lemma {:induction false} TimesIsProduct(n: nat, a: real)
    ensures Times(n, a) == n as real * a
  {
    if n > 0 {
      TimesIsProduct(n - 1, a);
    }
  }

  /** What `p` owes over all items: every listing of `p` in an item's
      `sharedBy` earns one split amount of that item. */
  function Owed(items: seq<Item>, p: string, subtotal: real, surcharge: real): real
    requires Divisible(items, subtotal)
  {
    if items == [] then 0.0
    else
      var init := items[..|items| - 1];
      assert Divisible(init, subtotal) by {
        forall i | 0 <= i < |init| ensures init[i] == items[i] { }
      }
      Owed(init, p, subtotal, surcharge) + ItemShare(items[|items| - 1], p, subtotal, surcharge)
  }

  /** Sum of the map's values at the names `ps`, in that order. */
  function SumOver(ps: seq<string>, m: map<string, real>): real
    requires forall i :: 0 <= i < |ps| ==> ps[i] in m
  {
    if ps == [] then 0.0 else SumOver(ps[..|ps| - 1], m) + m[ps[|ps| - 1]]
  }

  /** The per-person amounts as `calculateSplit`'s record holds them. */
  function SplitBill(items: seq<Item>, people: seq<string>, subtotal: real, surcharge: real): (m: map<string, real>)
    requires Divisible(items, subtotal)
    ensures forall p :: p in m <==> p in people
  {
    map p | p in people :: Owed(items, p, subtotal, surcharge)
  }

  // ---------------------------------------------------------------------
  // The calculation itself
  // ---------------------------------------------------------------------

  /** `calculateSplit` of the results screen: subtotal, charges and total, then the
      per-person record. */
  method CalculateSplit(items: seq<Item>, people: seq<string>, tip: Charge, tax: Charge)
    returns (r: SplitResult)
    requires Divisible(items, Subtotal(items))
    requires SharersKnown(items, people)
    ensures r.subtotal == Subtotal(items)
    ensures r.tipAmount == ChargeAmount(tip, r.subtotal)
    ensures r.taxAmount == ChargeAmount(tax, r.subtotal)
    ensures r.total == r.subtotal + r.tipAmount + r.taxAmount
    ensures r.splitBill == SplitBill(items, people, r.subtotal, r.tipAmount + r.taxAmount)
    ensures forall p :: p in people && (forall i :: 0 <= i < |items| ==> p !in items[i].sharedBy) ==>
      r.splitBill[p] == 0.0
    ensures r.subtotal != 0.0 && AllAssigned(items) ==> SumOver(Dedup(people), r.splitBill) == r.total
  {
    var subtotal := Subtotal(items);
    var tipAmount := ChargeAmount(tip, subtotal);
    var taxAmount := ChargeAmount(tax, subtotal);
    var total := subtotal + tipAmount + taxAmount;
    var surcharge := tipAmount + taxAmount;
    var splitBill := AllocateShares(items, people, subtotal, surcharge);
    assert splitBill == SplitBill(items, people, subtotal, surcharge);
    forall p | p in people && (forall i :: 0 <= i < |items| ==> p !in items[i].sharedBy)
      ensures splitBill[p] == 0.0
    {
      NotSharingOwesZero(items, p, subtotal, surcharge);
    }
    if subtotal != 0.0 && AllAssigned(items) {
      Conservation(items, people, surcharge);
    }
    r := SplitResult(splitBill, subtotal, tipAmount, taxAmount, total);
  }

  /** The per-person record: everyone in `people` starts at 0, then each
      item adds its split amount to every name listed in its `sharedBy`. */
  method AllocateShares(items: seq<Item>, people: seq<string>, subtotal: real, surcharge: real)
    returns (splitBill: map<string, real>)
    requires Divisible(items, subtotal)
    requires SharersKnown(items, people)
    ensures forall p :: p in splitBill <==> p in people
    ensures forall p :: p in people ==> splitBill[p] == Owed(items, p, subtotal, surcharge)
  {
    splitBill := map[];
    var k := 0;
    while k < |people|
      invariant k <= |people|
      invariant forall p :: p in splitBill <==> p in people[..k]
      invariant forall p :: p in splitBill ==> splitBill[p] == 0.0
    {
      splitBill := splitBill[people[k] := 0.0];
      k := k + 1;
    }
    assert people[..k] == people;

    var i := 0;
    while i < |items|
      invariant i <= |items|
      invariant forall p :: p in splitBill <==> p in people
      invariant Divisible(items[..i], subtotal)
      invariant forall p :: p in people ==> splitBill[p] == Owed(items[..i], p, subtotal, surcharge)
    {
      var item := items[i];
      assert items[..i + 1][..i] == items[..i];
      assert items[..i + 1][i] == item;
      forall j | 0 <= j < |item.sharedBy| ensures item.sharedBy[j] in people {
        assert items[i].sharedBy[j] in people;
      }
      // With nobody listed, `calculateSplit`'s division by zero yields a value
      // that is never used: the loop in ShareItem then runs zero times.
      var splitAmount := if item.sharedBy == [] then 0.0 else SplitAmount(item, subtotal, surcharge);
      splitBill := ShareItem(splitBill, people, item.sharedBy, splitAmount);
      i := i + 1;
    }
    assert items[..i] == items;
  }

  /** Adds `splitAmount` to the amount of every name in `sharedBy`, once
      per listing. */
  method ShareItem(splitBill: map<string, real>, people: seq<string>, sharedBy: seq<string>, splitAmount: real)
    returns (updated: map<string, real>)
    requires forall p :: p in splitBill <==> p in people
    requires forall j :: 0 <= j < |sharedBy| ==> sharedBy[j] in people
    ensures forall p :: p in updated <==> p in people
    ensures forall p :: p in people ==> updated[p] == splitBill[p] + Times(Count(sharedBy, p), splitAmount)
  {
    updated := splitBill;
    var j := 0;
    while j < |sharedBy|
      invariant j <= |sharedBy|
      invariant forall p :: p in updated <==> p in people
      invariant forall p :: p in people ==> updated[p] == splitBill[p] + Times(Count(sharedBy[..j], p), splitAmount)
    {
      var person := sharedBy[j];
      assert sharedBy[..j + 1] == sharedBy[..j] + [person];
      forall p ensures Count(sharedBy[..j + 1], p) == Count(sharedBy[..j], p) + (if person == p then 1 else 0) {
        CountAppend(sharedBy[..j], p, person);
      }
      updated := updated[person := updated[person] + splitAmount];
      j := j + 1;
    }
    assert sharedBy[..j] == sharedBy;
  }

  // ---------------------------------------------------------------------
  // Properties
  // ---------------------------------------------------------------------

  /** Somebody listed in no item's `sharedBy` owes exactly 0. */
  lemma {:induction false} NotSharingOwesZero(items: seq<Item>, p: string, subtotal: real, surcharge: real)
    requires Divisible(items, subtotal)
    requires forall i :: 0 <= i < |items| ==> p !in items[i].sharedBy
    ensures Owed(items, p, subtotal, surcharge) == 0.0
  {
    if items != [] {
      var init := items[..|items| - 1];
      assert Divisible(init, subtotal) by {
        forall i | 0 <= i < |init| ensures init[i] == items[i] { }
      }
      NotSharingOwesZero(init, p, subtotal, surcharge);
      CountZero(items[|items| - 1].sharedBy, p);
    }
  }

  /** Occurrences in `s` of the names `ps`, added up. */
  function Listings(ps: seq<string>, s: seq<string>): nat
  {
    if ps == [] then 0 else Listings(ps[..|ps| - 1], s) + Count(s, ps[|ps| - 1])
  }

  lemma {:induction false} ListingsSnoc(ps: seq<string>, s: seq<string>, x: string)
    ensures Listings(ps, s + [x]) == Listings(ps, s) + Count(ps, x)
  {
    if ps != [] {
      ListingsSnoc(ps[..|ps| - 1], s, x);
      CountAppend(s, ps[|ps| - 1], x);
    }
  }

  /** When every listing names one of `ps` and `ps` has no repeats, the
      listings of `ps` are all the listings of `s`. */
  lemma {:induction false} ListingsAll(ps: seq<string>, s: seq<string>)
    requires Distinct(ps)
    requires forall j :: 0 <= j < |s| ==> s[j] in ps
    ensures Listings(ps, s) == |s|
  {
    if s == [] {
      ListingsEmpty(ps);
    } else {
      var init, x := s[..|s| - 1], s[|s| - 1];
      assert s == init + [x];
      ListingsAll(ps, init);
      ListingsSnoc(ps, init, x);
      CountDistinct(ps, x);
    }
  }

  lemma {:induction false} ListingsEmpty(ps: seq<string>)
    ensures Listings(ps, []) == 0
  {
    if ps != [] {
      ListingsEmpty(ps[..|ps| - 1]);
    }
  }

  /** Sum of `Owed` over the names `ps`. */
  function OwedSum(ps: seq<string>, items: seq<Item>, subtotal: real, surcharge: real): real
    requires Divisible(items, subtotal)
  {
    if ps == [] then 0.0
    else OwedSum(ps[..|ps| - 1], items, subtotal, surcharge) + Owed(items, ps[|ps| - 1], subtotal, surcharge)
  }

  /** Adding an item to the bill adds its split amount once per listing. */
  lemma {:induction false} OwedSumSnoc(ps: seq<string>, items: seq<Item>, item: Item, subtotal: real, surcharge: real)
    requires Divisible(items, subtotal) && (item.sharedBy != [] ==> subtotal != 0.0)
    ensures Divisible(items + [item], subtotal)
    ensures OwedSum(ps, items + [item], subtotal, surcharge) ==
      OwedSum(ps, items, subtotal, surcharge) +
      (if item.sharedBy == [] then 0.0
       else Times(Listings(ps, item.sharedBy), SplitAmount(item, subtotal, surcharge)))
  {
    var all := items + [item];
    assert all[..|items|] == items;
    assert Divisible(all, subtotal) by {
      forall i | 0 <= i < |all| && all[i].sharedBy != [] ensures subtotal != 0.0 {
        if i < |items| { assert all[i] == items[i]; }
      }
    }
    if ps != [] {
      var init := ps[..|ps| - 1];
      OwedSumSnoc(init, items, item, subtotal, surcharge);
      if item.sharedBy != [] {
        TimesAdd(Listings(init, item.sharedBy), Count(item.sharedBy, ps[|ps| - 1]), SplitAmount(item, subtotal, surcharge));
      }
    }
  }

  /** The listings of an item together receive its fully loaded amount. */
  lemma LoadedItem(item: Item, subtotal: real, surcharge: real)
    requires subtotal != 0.0 && item.sharedBy != []
    ensures Times(|item.sharedBy|, SplitAmount(item, subtotal, surcharge)) == ItemTotal(item, subtotal, surcharge)
  {
    TimesIsProduct(|item.sharedBy|, SplitAmount(item, subtotal, surcharge));
  }

  /** Within one shared item every listing of a name earns the same amount:
      a name listed `k` times gets `k` times the fully loaded amount divided
      by the number of listings. */
  lemma EqualShares(item: Item, p: string, subtotal: real, surcharge: real)
    requires subtotal != 0.0 && item.sharedBy != []
    ensures ItemShare(item, p, subtotal, surcharge) * |item.sharedBy| as real
      == Count(item.sharedBy, p) as real * (item.price + (item.price / subtotal) * surcharge)
  {
    var a := SplitAmount(item, subtotal, surcharge);
    TimesIsProduct(Count(item.sharedBy, p), a);
    calc {
      ItemShare(item, p, subtotal, surcharge) * |item.sharedBy| as real;
      (Count(item.sharedBy, p) as real * a) * |item.sharedBy| as real;
      Count(item.sharedBy, p) as real * (a * |item.sharedBy| as real);
      Count(item.sharedBy, p) as real * ItemTotal(item, subtotal, surcharge);
    }
  }

  /** Sum of the fully loaded amounts of the items somebody shares. */
  function LoadedSum(items: seq<Item>, subtotal: real, surcharge: real): real
    requires subtotal != 0.0
  {
    if items == [] then 0.0
    else
      var last := items[|items| - 1];
      LoadedSum(items[..|items| - 1], subtotal, surcharge)
        + (if last.sharedBy == [] then 0.0 else ItemTotal(last, subtotal, surcharge))
  }

  /** Loading is proportional: the loaded sum is the assigned prices plus
      their proportional part of the surcharge. */
  lemma {:induction false} LoadedSumValue(items: seq<Item>, subtotal: real, surcharge: real)
    requires subtotal != 0.0
    ensures LoadedSum(items, subtotal, surcharge) == AssignedSubtotal(items) + AssignedSubtotal(items) / subtotal * surcharge
  {
    if items != [] {
      var init := items[..|items| - 1];
      LoadedSumValue(init, subtotal, surcharge);
      ProportionalAdd(AssignedSubtotal(init), items[|items| - 1].price, subtotal, surcharge);
    }
  }

  lemma ProportionalAdd(a: real, b: real, subtotal: real, surcharge: real)
    requires subtotal != 0.0
    ensures a / subtotal * surcharge + b / subtotal * surcharge == (a + b) / subtotal * surcharge
  {
  }

  /** The people together owe the fully loaded amounts of the assigned items. */
  lemma {:induction false} AllocatedSum(ps: seq<string>, items: seq<Item>, subtotal: real, surcharge: real)
    requires subtotal != 0.0
    requires Distinct(ps) && SharersKnown(items, ps)
    ensures OwedSum(ps, items, subtotal, surcharge) == LoadedSum(items, subtotal, surcharge)
  {
    if items == [] {
      OwedSumEmpty(ps, subtotal, surcharge);
    } else {
      var init, item := items[..|items| - 1], items[|items| - 1];
      assert items == init + [item];
      assert SharersKnown(init, ps) by {
        forall i, j | 0 <= i < |init| && 0 <= j < |init[i].sharedBy| ensures init[i].sharedBy[j] in ps {
          assert init[i] == items[i];
        }
      }
      AllocatedSum(ps, init, subtotal, surcharge);
      OwedSumSnoc(ps, init, item, subtotal, surcharge);
      if item.sharedBy != [] {
        forall j | 0 <= j < |item.sharedBy| ensures item.sharedBy[j] in ps {
          assert items[|items| - 1].sharedBy[j] in ps;
        }
        ListingsAll(ps, item.sharedBy);
        LoadedItem(item, subtotal, surcharge);
      }
    }
  }

  lemma LoadFactor(assignedSum: real, subtotal: real, surcharge: real)
    requires assignedSum == subtotal != 0.0
    ensures assignedSum + assignedSum / subtotal * surcharge == subtotal + surcharge
  {
  }

  lemma {:induction false} OwedSumEmpty(ps: seq<string>, subtotal: real, surcharge: real)
    ensures OwedSum(ps, [], subtotal, surcharge) == 0.0
  {
    if ps != [] {
      OwedSumEmpty(ps[..|ps| - 1], subtotal, surcharge);
    }
  }

  lemma {:induction false} SumOverSplitBill(ps: seq<string>, items: seq<Item>, people: seq<string>, subtotal: real, surcharge: real)
    requires Divisible(items, subtotal)
    requires forall i :: 0 <= i < |ps| ==> ps[i] in people
    ensures SumOver(ps, SplitBill(items, people, subtotal, surcharge)) == OwedSum(ps, items, subtotal, surcharge)
  {
    if ps != [] {
      SumOverSplitBill(ps[..|ps| - 1], items, people, subtotal, surcharge);
    }
  }

  /** With a non-zero subtotal and every item shared by known people, the
      per-person amounts (one per distinct name) add up exactly to the
      total, duplicate names in `sharedBy` included. */
  lemma Conservation(items: seq<Item>, people: seq<string>, surcharge: real)
    requires Subtotal(items) != 0.0 && AllAssigned(items) && SharersKnown(items, people)
    ensures SumOver(Dedup(people), SplitBill(items, people, Subtotal(items), surcharge)) == Subtotal(items) + surcharge
  {
    var s := Subtotal(items);
    var ps := Dedup(people);
    assert SharersKnown(items, ps);
    calc {
      SumOver(ps, SplitBill(items, people, s, surcharge));
      { SumOverSplitBill(ps, items, people, s, surcharge); }
      OwedSum(ps, items, s, surcharge);
      { AllocatedSum(ps, items, s, surcharge); }
      LoadedSum(items, s, surcharge);
      { LoadedSumValue(items, s, surcharge); }
      AssignedSubtotal(items) + AssignedSubtotal(items) / s * surcharge;
      { AllAssignedSubtotal(items); LoadFactor(AssignedSubtotal(items), s, surcharge); }
      s + surcharge;
    }
  }

  lemma {:induction false} AllAssignedSubtotal(items: seq<Item>)
    requires AllAssigned(items)
    ensures AssignedSubtotal(items) == Subtotal(items)
  {
    if items != [] {
      var init := items[..|items| - 1];
      assert AllAssigned(init) by {
        forall i | 0 <= i < |init| ensures init[i] == items[i] { }
      }
      AllAssignedSubtotal(init);
    }
  }

  /** An item nobody shares still counts in the subtotal and so in the
      total, but changes nobody's amount. */
  lemma UnassignedItem(items: seq<Item>, item: Item, p: string, subtotal: real, surcharge: real)
    requires item.sharedBy == []
    requires Divisible(items, subtotal)
    ensures Subtotal(items + [item]) == Subtotal(items) + item.price
    ensures Divisible(items + [item], subtotal)
    ensures Owed(items + [item], p, subtotal, surcharge) == Owed(items, p, subtotal, surcharge)
  {
    assert (items + [item])[..|items|] == items;
  }

  /** With no items the total is the fixed charges alone: a percentage of
      a zero subtotal is zero. */
  lemma ZeroItems(tip: Charge, tax: Charge)
    ensures ChargeAmount(tip, Subtotal([])) == FixedPart(tip)
    ensures ChargeAmount(tax, Subtotal([])) == FixedPart(tax)
  {
  }

  /** Percentage charges scale with the subtotal; fixed ones ignore it. */
  lemma ChargeMeaning(c: Charge, subtotal: real)
    ensures c.kind == Percentage ==> ChargeAmount(c, subtotal) * 100.0 == subtotal * c.value
    ensures c.kind == Amount ==> ChargeAmount(c, subtotal) == c.value
  {
  }

  /** Pizza 20 shared by A and B, Soda 4 for A, 10% tip, 5% tax. */
  lemma PizzaAndSoda()
    ensures var items := [Item("Pizza", 20.0, ["A", "B"]), Item("Soda", 4.0, ["A"])];
      var tip, tax := Charge(Percentage, 10.0), Charge(Percentage, 5.0);
      var s := Subtotal(items);
      var sur := ChargeAmount(tip, s) + ChargeAmount(tax, s);
      && s == 24.0 && sur == 3.6
      && Owed(items, "A", s, sur) == 16.1
      && Owed(items, "B", s, sur) == 11.5
  {
    var pizza, soda := Item("Pizza", 20.0, ["A", "B"]), Item("Soda", 4.0, ["A"]);
    var items := [pizza, soda];
    assert items[..1] == [pizza] && [pizza][..0] == [];
    assert Subtotal([pizza]) == 20.0;
    var s := Subtotal(items);
    assert s == 24.0;
    var sur := ChargeAmount(Charge(Percentage, 10.0), s) + ChargeAmount(Charge(Percentage, 5.0), s);
    assert sur == 3.6;
    assert ["A", "B"][..1] == ["A"] && ["A"][..0] == [];
    assert Count(pizza.sharedBy, "A") == 1 && Count(pizza.sharedBy, "B") == 1;
    assert Count(soda.sharedBy, "A") == 1 && Count(soda.sharedBy, "B") == 0;
    assert SplitAmount(pizza, s, sur) == 11.5;
    assert SplitAmount(soda, s, sur) == 4.6;
  }
}
