/** The plain-text summary of a split: a header, the optional vendor name
    and date, the items, the four totals and one line per person, each
    line ended by a newline and every amount written as by toFixed(2). */
module Summary {
  import opened SeqUtil
  import opened Money
  import opened Split

  datatype VendorInfo = VendorInfo(name: string, date: string)

  /** The first line: the receipt emoji (U+1F9FE) around the title. */
  const Header: string := "\U{1F9FE} Bill Split Summary \U{1F9FE}"

  /** The text of `lines`, each followed by a newline. */
  function Unlines(lines: seq<string>): string
  {
    if lines == [] then "" else Unlines(lines[..|lines| - 1]) + lines[|lines| - 1] + "\n"
  }

  lemma UnlinesSnoc(lines: seq<string>, line: string)
    ensures Unlines(lines + [line]) == Unlines(lines) + line + "\n"
  {
    assert (lines + [line])[..|lines|] == lines;
  }

  lemma {:induction false} UnlinesAppend(a: seq<string>, b: seq<string>)
    ensures Unlines(a + b) == Unlines(a) + Unlines(b)
  {
    if b == [] {
      assert a + b == a;
    } else {
      var init, last := b[..|b| - 1], b[|b| - 1];
      assert a + b == (a + init) + [last];
      assert b == init + [last];
      UnlinesAppend(a, init);
      UnlinesSnoc(a + init, last);
      UnlinesSnoc(init, last);
    }
  }

  /** JavaScript's `Array.prototype.join(sep)`. */
  function Join(names: seq<string>, sep: string): string
  {
    if names == [] then ""
    else if |names| == 1 then names[0]
    else Join(names[..|names| - 1], sep) + sep + names[|names| - 1]
  }

  /** Total length of the names. */
  function Lengths(names: seq<string>): nat
  {
    if names == [] then 0 else Lengths(names[..|names| - 1]) + |names[|names| - 1]|
  }

  /** The joined text is as long as all the names together plus one
      separator between each two neighbours. */
  lemma {:induction false} JoinLength(names: seq<string>, sep: string)
    requires names != []
    ensures |Join(names, sep)| == Lengths(names) + (|names| - 1) * |sep|
  {
    if |names| > 1 {
      JoinLength(names[..|names| - 1], sep);
    } else {
      assert names[..0] == [];
    }
  }

  /** The `k`-th name sits in the joined text right after the names before
      it and one separator after each of them. */
  lemma {:induction false} JoinAt(names: seq<string>, sep: string, k: nat)
    requires k < |names|
    ensures var o := Lengths(names[..k]) + k * |sep|;
      o + |names[k]| <= |Join(names, sep)| && Join(names, sep)[o..o + |names[k]|] == names[k]
  {
    var o := Lengths(names[..k]) + k * |sep|;
    if |names| == 1 {
      assert names[..0] == [];
    } else {
      var init := names[..|names| - 1];
      JoinLength(names, sep);
      if k == |names| - 1 {
        assert names[..k] == init;
        JoinLength(init, sep);
      } else {
        assert names[..k] == init[..k];
        JoinAt(init, sep, k);
        var j := Join(init, sep);
        assert Join(names, sep)[o..o + |names[k]|] == j[o..o + |names[k]|];
      }
    }
  }

  /** Every name but the last is followed by the separator text itself. */
  lemma {:induction false} JoinSepAt(names: seq<string>, sep: string, k: nat)
    requires k + 1 < |names|
    ensures var e := Lengths(names[..k + 1]) + k * |sep|;
      e + |sep| <= |Join(names, sep)| && Join(names, sep)[e..e + |sep|] == sep
  {
    var e := Lengths(names[..k + 1]) + k * |sep|;
    var init := names[..|names| - 1];
    var j := Join(init, sep);
    assert Join(names, sep) == j + sep + names[|names| - 1];
    assert names[..k + 1] == init[..k + 1];
    if k + 1 < |init| {
      JoinSepAt(init, sep, k);
      assert Join(names, sep)[e..e + |sep|] == j[e..e + |sep|];
    } else {
      // The k-th name ends the joined `init`, and the separator follows.
      JoinLength(init, sep);
      assert init[..k + 1] == init;
      assert e == |j|;
    }
  }

  /** A template literal: its literal and substituted parts in order. */
  function Concat(parts: seq<string>): string
  {
    if parts == [] then "" else Concat(parts[..|parts| - 1]) + parts[|parts| - 1]
  }

  /** `- <name>: $<price> (Shared by: <names>)`. */
  function ItemLine(item: Item): string
  {
    Concat(["- ", item.name, ": $", Fixed2(item.price), " (Shared by: ", Join(item.sharedBy, ", "), ")"])
  }

  /** A caption and an amount: `<caption>: $<amount to two decimals>`. */
  function MoneyLine(caption: string, amount: real): string
  {
    Concat([caption, ": $", Fixed2(amount)])
  }

  /** The item line spelled out: its parts in template order. */
  lemma ItemLineText(item: Item)
    ensures ItemLine(item) == "- " + item.name + ": $" + Fixed2(item.price)
      + " (Shared by: " + Join(item.sharedBy, ", ") + ")"
  {
    var parts := ["- ", item.name, ": $", Fixed2(item.price), " (Shared by: ", Join(item.sharedBy, ", "), ")"];
    assert Concat(parts[..1]) == "- " by { assert parts[..1][..0] == []; }
    assert Concat(parts[..2]) == "- " + item.name by { assert parts[..2][..1] == parts[..1]; }
    assert Concat(parts[..3]) == Concat(parts[..2]) + ": $" by { assert parts[..3][..2] == parts[..2]; }
    assert Concat(parts[..4]) == Concat(parts[..3]) + Fixed2(item.price) by { assert parts[..4][..3] == parts[..3]; }
    assert Concat(parts[..5]) == Concat(parts[..4]) + " (Shared by: " by { assert parts[..5][..4] == parts[..4]; }
    assert Concat(parts[..6]) == Concat(parts[..5]) + Join(item.sharedBy, ", ") by { assert parts[..6][..5] == parts[..5]; }
    assert parts[..7] == parts;
  }

  /** The money line spelled out: caption, `: $` and the figure. */
  lemma MoneyLineText(caption: string, amount: real)
    ensures MoneyLine(caption, amount) == caption + ": $" + Fixed2(amount)
  {
    var parts := [caption, ": $", Fixed2(amount)];
    assert Concat(parts[..1]) == caption by { assert parts[..1][..0] == []; }
    assert Concat(parts[..2]) == caption + ": $" by { assert parts[..2][..1] == parts[..1]; }
    assert parts[..3] == parts;
  }

  function VendorLines(vendor: Option<VendorInfo>): seq<string>
  {
    match vendor
    case None => []
    case Some(v) => [v.name, "Date: " + v.date, ""]
  }

  /** One line per item, in order. */
  function ItemLines(items: seq<Item>): (lines: seq<string>)
    ensures |lines| == |items|
  {
    if items == [] then [] else ItemLines(items[..|items| - 1]) + [ItemLine(items[|items| - 1])]
  }

  lemma {:induction false} ItemLinesAt(items: seq<Item>, k: nat)
    requires k < |items|
    ensures ItemLines(items)[k] == ItemLine(items[k])
  {
    var init := items[..|items| - 1];
    if k < |init| {
      ItemLinesAt(init, k);
    }
  }

  /** `Object.entries` of the split record whose keys, in order, are `keys`. */
  function Entries(keys: seq<string>, splitBill: map<string, real>): (entries: seq<(string, real)>)
    requires forall k :: 0 <= k < |keys| ==> keys[k] in splitBill
    ensures |entries| == |keys|
  {
    seq(|keys|, k requires 0 <= k < |keys| => (keys[k], splitBill[keys[k]]))
  }

  /** One `<name>: $<amount>` line per entry, in order. */
  function PersonLines(entries: seq<(string, real)>): (lines: seq<string>)
    ensures |lines| == |entries|
  {
    if entries == [] then []
    else
      var last := entries[|entries| - 1];
      PersonLines(entries[..|entries| - 1]) + [MoneyLine(last.0, last.1)]
  }

  lemma {:induction false} PersonLinesAt(entries: seq<(string, real)>, k: nat)
    requires k < |entries|
    ensures PersonLines(entries)[k] == MoneyLine(entries[k].0, entries[k].1)
  {
    var init := entries[..|entries| - 1];
    if k < |init| {
      PersonLinesAt(init, k);
    }
  }

  function TotalLines(r: SplitResult): seq<string>
  {
    [ "",
      MoneyLine("Subtotal", r.subtotal),
      MoneyLine("Tip", r.tipAmount),
      MoneyLine("Tax", r.taxAmount),
      MoneyLine("Total", r.total),
      "",
      "Split:" ]
  }

  /** Number of lines before `Items:`. */
  function HeadLength(vendor: Option<VendorInfo>): nat
  {
    if vendor.None? then 2 else 5
  }

  /** Header, blank line, the vendor block if any, then `Items:`. */
  function HeadLines(vendor: Option<VendorInfo>): seq<string>
  {
    [Header, ""] + VendorLines(vendor) + ["Items:"]
  }

  /** The summary's lines in order. */
  function SummaryLines(items: seq<Item>, people: seq<string>, r: SplitResult, vendor: Option<VendorInfo>): seq<string>
    requires forall i :: 0 <= i < |people| ==> people[i] in r.splitBill
  {
    HeadLines(vendor) + ItemLines(items) + TotalLines(r) + PersonLines(Entries(Dedup(people), r.splitBill))
  }

  /** The summary opens with the header and a blank line, then the vendor
      block when there is one, then `Items:`; it has seven lines besides
      the head, the items and the people. */
  lemma SummaryHead(items: seq<Item>, people: seq<string>, r: SplitResult, vendor: Option<VendorInfo>)
    requires forall i :: 0 <= i < |people| ==> people[i] in r.splitBill
    ensures var lines, h := SummaryLines(items, people, r, vendor), HeadLength(vendor);
      && |lines| == h + 8 + |items| + |Dedup(people)|
      && lines[0] == Header && lines[1] == ""
      && (vendor.Some? ==>
            lines[2] == vendor.value.name && lines[3] == "Date: " + vendor.value.date && lines[4] == "")
      && lines[h] == "Items:"
  {
    var head, il, tl, pl := HeadLines(vendor), ItemLines(items), TotalLines(r), PersonLines(Entries(Dedup(people), r.splitBill));
    HeadLayout(vendor);
    forall k | 0 <= k < |head| ensures (head + il + tl + pl)[k] == head[k] {
      PartAt(head, il, tl, pl, k);
    }
  }

  /** After `Items:` comes one line per item, in input order. */
  lemma SummaryItems(items: seq<Item>, people: seq<string>, r: SplitResult, vendor: Option<VendorInfo>)
    requires forall i :: 0 <= i < |people| ==> people[i] in r.splitBill
    ensures var lines, h := SummaryLines(items, people, r, vendor), HeadLength(vendor);
      forall k :: 0 <= k < |items| ==> h + 1 + k < |lines| && lines[h + 1 + k] == ItemLine(items[k])
  {
    var head, il, tl, pl := HeadLines(vendor), ItemLines(items), TotalLines(r), PersonLines(Entries(Dedup(people), r.splitBill));
    assert |head| == HeadLength(vendor) + 1;
    forall k | 0 <= k < |items| ensures (head + il + tl + pl)[|head| + k] == ItemLine(items[k]) {
      ItemsAt(head, items, tl, pl, k);
    }
  }

  /** After the items: a blank line, Subtotal, Tip, Tax and Total, a blank
      line and `Split:`. */
  lemma SummaryTotals(items: seq<Item>, people: seq<string>, r: SplitResult, vendor: Option<VendorInfo>)
    requires forall i :: 0 <= i < |people| ==> people[i] in r.splitBill
    ensures var lines, t := SummaryLines(items, people, r, vendor), HeadLength(vendor) + 1 + |items|;
      && t + 6 < |lines|
      && lines[t] == ""
      && lines[t + 1] == MoneyLine("Subtotal", r.subtotal)
      && lines[t + 2] == MoneyLine("Tip", r.tipAmount)
      && lines[t + 3] == MoneyLine("Tax", r.taxAmount)
      && lines[t + 4] == MoneyLine("Total", r.total)
      && lines[t + 5] == ""
      && lines[t + 6] == "Split:"
  {
    var head, il, tl, pl := HeadLines(vendor), ItemLines(items), TotalLines(r), PersonLines(Entries(Dedup(people), r.splitBill));
    assert |head| == HeadLength(vendor) + 1;
    forall k | 0 <= k < 7 ensures (head + il + tl + pl)[|head| + |il| + k] == tl[k] {
      TotalsAt(head, il, r, pl, k);
    }
  }

  /** The summary ends with one line per person, in the record's key order
      (the first occurrence of each name in `people`). */
  lemma SummaryShares(items: seq<Item>, people: seq<string>, r: SplitResult, vendor: Option<VendorInfo>)
    requires forall i :: 0 <= i < |people| ==> people[i] in r.splitBill
    ensures var lines, e := SummaryLines(items, people, r, vendor), Dedup(people);
      var t := |lines| - |e|;
      forall k :: 0 <= k < |e| ==> lines[t + k] == MoneyLine(e[k], r.splitBill[e[k]])
  {
    var head, il, tl, pl := HeadLines(vendor), ItemLines(items), TotalLines(r), PersonLines(Entries(Dedup(people), r.splitBill));
    var e := Dedup(people);
    forall k | 0 <= k < |e| ensures (head + il + tl + pl)[|head| + |il| + |tl| + k] == MoneyLine(e[k], r.splitBill[e[k]]) {
      SharesAt(head, il, tl, Entries(e, r.splitBill), k);
    }
  }

  lemma ItemsAt(head: seq<string>, items: seq<Item>, tl: seq<string>, pl: seq<string>, k: nat)
    requires k < |items|
    ensures (head + ItemLines(items) + tl + pl)[|head| + k] == ItemLine(items[k])
  {
    PartAt(head, ItemLines(items), tl, pl, |head| + k);
    ItemLinesAt(items, k);
  }

  lemma TotalsAt(head: seq<string>, il: seq<string>, r: SplitResult, pl: seq<string>, k: nat)
    requires k < 7
    ensures (head + il + TotalLines(r) + pl)[|head| + |il| + k] == TotalLines(r)[k]
  {
    PartAt(head, il, TotalLines(r), pl, |head| + |il| + k);
  }

  lemma SharesAt(head: seq<string>, il: seq<string>, tl: seq<string>, entries: seq<(string, real)>, k: nat)
    requires k < |entries|
    ensures (head + il + tl + PersonLines(entries))[|head| + |il| + |tl| + k] == MoneyLine(entries[k].0, entries[k].1)
  {
    PartAt(head, il, tl, PersonLines(entries), |head| + |il| + |tl| + k);
    PersonLinesAt(entries, k);
  }

  /** Which of four parts line `i` of their concatenation comes from. */
  lemma PartAt(a: seq<string>, b: seq<string>, c: seq<string>, d: seq<string>, i: nat)
    requires i < |a| + |b| + |c| + |d|
    ensures |a + b + c + d| == |a| + |b| + |c| + |d|
    ensures (a + b + c + d)[i] ==
      if i < |a| then a[i]
      else if i < |a| + |b| then b[i - |a|]
      else if i < |a| + |b| + |c| then c[i - |a| - |b|]
      else d[i - |a| - |b| - |c|]
  {
  }

  lemma HeadLayout(vendor: Option<VendorInfo>)
    ensures var head, h := HeadLines(vendor), HeadLength(vendor);
      && |head| == h + 1
      && head[0] == Header && head[1] == ""
      && (vendor.Some? ==>
            head[2] == vendor.value.name && head[3] == "Date: " + vendor.value.date && head[4] == "")
      && head[h] == "Items:"
  {
  }

  /** `generateSummary` of the results screen: appends each piece of text to the
      summary in turn. */
  method GenerateSummary(items: seq<Item>, people: seq<string>, r: SplitResult, vendor: Option<VendorInfo>)
    returns (summary: string)
    requires forall p :: p in r.splitBill <==> p in people
    ensures summary == Unlines(SummaryLines(items, people, r, vendor))
  {
    summary := Header + "\n\n";
    ghost var lines := [Header, ""];
    TwoLines(Header, "");
    if vendor.Some? {
      var name, date := vendor.value.name, vendor.value.date;
      AppendText(lines, [name], summary, name + "\n");
      summary, lines := summary + (name + "\n"), lines + [name];
      TwoLines("Date: " + date, "");
      AppendText(lines, ["Date: " + date, ""], summary, "Date: " + date + "\n\n");
      summary, lines := summary + ("Date: " + date + "\n\n"), lines + ["Date: " + date, ""];
    }
    AppendText(lines, ["Items:"], summary, "Items:\n");
    summary, lines := summary + "Items:\n", lines + ["Items:"];
    assert lines == HeadLines(vendor);

    summary := AppendItems(summary, lines, items);
    lines := lines + ItemLines(items);

    summary := AppendTotals(summary, lines, r);
    lines := lines + TotalLines(r);

    // Object.entries of the record: its keys are the people, in
    // first-insertion order.
    assert forall i :: 0 <= i < |people| ==> people[i] in r.splitBill;
    summary := AppendShares(summary, lines, Entries(Dedup(people), r.splitBill));
  }

  /** The items loop: one line per item, in order. */
  method AppendItems(text: string, ghost lines: seq<string>, items: seq<Item>) returns (summary: string)
    requires text == Unlines(lines)
    ensures summary == Unlines(lines + ItemLines(items))
  {
    summary := text;
    ghost var done := lines;
    var i := 0;
    assert ItemLines(items[..0]) == [];
    while i < |items|
      invariant i <= |items|
      invariant done == lines + ItemLines(items[..i])
      invariant summary == Unlines(done)
    {
      var line := ItemLine(items[i]);
      ItemLinesSnoc(items, i);
      summary := AppendLine(summary, done, line);
      done := done + [line];
      i := i + 1;
    }
    AllItems(items);
  }

  /** `summary += line + "\n"`. */
  method AppendLine(text: string, ghost lines: seq<string>, line: string) returns (summary: string)
    requires text == Unlines(lines)
    ensures summary == Unlines(lines + [line])
  {
    summary := text + (line + "\n");
    AppendText(lines, [line], text, line + "\n");
  }

  lemma AllItems(items: seq<Item>)
    ensures ItemLines(items[..|items|]) == ItemLines(items)
  {
    assert items[..|items|] == items;
  }

  lemma ItemLinesSnoc(items: seq<Item>, i: nat)
    requires i < |items|
    ensures ItemLines(items[..i + 1]) == ItemLines(items[..i]) + [ItemLine(items[i])]
  {
    assert items[..i + 1][..i] == items[..i];
  }

  /** Subtotal, tip, tax and total between blank lines, then `Split:`. */
  method AppendTotals(text: string, ghost lines: seq<string>, r: SplitResult) returns (summary: string)
    requires text == Unlines(lines)
    ensures summary == Unlines(lines + TotalLines(r))
  {
    var subtotal := MoneyLine("Subtotal", r.subtotal);
    var tip := MoneyLine("Tip", r.tipAmount);
    var tax := MoneyLine("Tax", r.taxAmount);
    var total := MoneyLine("Total", r.total);
    TwoLines("", subtotal);
    AppendText(lines, ["", subtotal], text, "\n" + subtotal + "\n");
    summary := text + ("\n" + subtotal + "\n");
    ghost var done := lines + ["", subtotal];
    AppendText(done, [tip], summary, tip + "\n");
    summary, done := summary + (tip + "\n"), done + [tip];
    AppendText(done, [tax], summary, tax + "\n");
    summary, done := summary + (tax + "\n"), done + [tax];
    AppendText(done, [total], summary, total + "\n");
    summary, done := summary + (total + "\n"), done + [total];
    TwoLines("", "Split:");
    AppendText(done, ["", "Split:"], summary, "\nSplit:\n");
    summary, done := summary + "\nSplit:\n", done + ["", "Split:"];
    assert done == lines + TotalLines(r);
  }

  /** The entries loop: one line per entry of the split record. */
  method AppendShares(text: string, ghost lines: seq<string>, entries: seq<(string, real)>)
    returns (summary: string)
    requires text == Unlines(lines)
    ensures summary == Unlines(lines + PersonLines(entries))
  {
    summary := text;
    ghost var done := lines;
    var k := 0;
    assert PersonLines(entries[..0]) == [];
    while k < |entries|
      invariant k <= |entries|
      invariant done == lines + PersonLines(entries[..k])
      invariant summary == Unlines(done)
    {
      var (person, amount) := entries[k];
      var line := MoneyLine(person, amount);
      PersonLinesSnoc(entries, k);
      summary := AppendLine(summary, done, line);
      done := done + [line];
      k := k + 1;
    }
    assert entries[..k] == entries;
  }

  lemma PersonLinesSnoc(entries: seq<(string, real)>, k: nat)
    requires k < |entries|
    ensures PersonLines(entries[..k + 1]) == PersonLines(entries[..k]) + [MoneyLine(entries[k].0, entries[k].1)]
  {
    assert entries[..k + 1][..k] == entries[..k];
  }

  /** Appending the text of some lines appends the lines. */
  lemma AppendText(lines: seq<string>, more: seq<string>, text: string, piece: string)
    requires text == Unlines(lines)
    requires piece == Unlines(more) || (|more| == 1 && piece == more[0] + "\n")
    ensures text + piece == Unlines(lines + more)
  {
    if |more| == 1 {
      UnlinesSnoc([], more[0]);
      assert [] + [more[0]] == more;
    }
    UnlinesAppend(lines, more);
  }

  lemma TwoLines(a: string, b: string)
    ensures Unlines([a, b]) == a + "\n" + b + "\n"
  {
    UnlinesSnoc([], a);
    UnlinesSnoc([a], b);
    assert [] + [a] == [a] && [a] + [b] == [a, b];
  }

  /** The text of the head lines, as the results screen appends it. */
  lemma HeadText(vendor: Option<VendorInfo>)
    ensures Unlines(HeadLines(vendor)) == Header + "\n\n" +
      (match vendor
       case None => ""
       case Some(v) => v.name + "\n" + "Date: " + v.date + "\n\n") +
      "Items:\n"
  {
    TwoLines(Header, "");
    var t0 := Header + "\n\n";
    match vendor
    case None =>
      AppendText([Header, ""], ["Items:"], t0, "Items:\n");
      assert HeadLines(vendor) == [Header, ""] + ["Items:"];
    case Some(v) =>
      var date := "Date: " + v.date;
      AppendText([Header, ""], [v.name], t0, v.name + "\n");
      var l1 := [Header, ""] + [v.name];
      var t1 := t0 + (v.name + "\n");
      TwoLines(date, "");
      AppendText(l1, [date, ""], t1, date + "\n\n");
      var l2 := l1 + [date, ""];
      var t2 := t1 + (date + "\n\n");
      AppendText(l2, ["Items:"], t2, "Items:\n");
      assert HeadLines(vendor) == l2 + ["Items:"];
      assert t2 + "Items:\n" == Header + "\n\n" + (v.name + "\n" + "Date: " + v.date + "\n\n") + "Items:\n";
  }

  /** The summary opens with the header and a blank line; with vendor
      information the name and `Date: <date>` lines and a blank line follow,
      copied verbatim, and otherwise `Items:` follows at once. */
  lemma VendorPrefix(items: seq<Item>, people: seq<string>, r: SplitResult, vendor: Option<VendorInfo>)
    requires forall i :: 0 <= i < |people| ==> people[i] in r.splitBill
    ensures var text := Unlines(SummaryLines(items, people, r, vendor));
      var prefix := Header + "\n\n" +
        (match vendor
         case None => ""
         case Some(v) => v.name + "\n" + "Date: " + v.date + "\n\n") +
        "Items:\n";
      |prefix| <= |text| && text[..|prefix|] == prefix
  {
    var rest := ItemLines(items) + TotalLines(r) + PersonLines(Entries(Dedup(people), r.splitBill));
    assert SummaryLines(items, people, r, vendor) == HeadLines(vendor) + rest;
    UnlinesAppend(HeadLines(vendor), rest);
    HeadText(vendor);
  }
}
