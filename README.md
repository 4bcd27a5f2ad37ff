# Bill split: calculation, summary and item tagging

A Dafny model of the core of the bill-splitting web app. The app takes a
list of items, each with a name, a price and the names of the people who
share it (`sharedBy`), a list of people, a tip and a tax. From these it
computes:

- the subtotal, the tip and tax amounts and the total;
- each person's share of the bill. Each item carries its price plus a
  part of tip+tax in proportion to its price, and that amount is divided
  evenly among its sharers.

It then renders a plain-text summary of the split. On the tagging screen
the user steps through the items, marks who shares each one, reviews the
list and adds items by hand.

Modules:

- `SeqUtil` (seqs.dfy): `Option`, occurrence counts, duplicate-free
  sequences, and `Dedup`. `Dedup` gives the key order of a JavaScript
  record filled in the order of a list: the first occurrence of each name.
- `Money` (money.dfy): `Number.prototype.toFixed(2)` for exact amounts.
  The sign comes from the amount. The magnitude is rounded half up to
  whole cents and written with exactly two decimals.
- `Split` (split.dfy): `calculateSplit`.
  - Money is an exact `real`, so divisions are exact and conservation of
    the total is proved exactly.
  - The per-person record is a `map` that a method fills with the
    two loops of `calculateSplit`. The method is proved against the functions
    `Owed` and `SplitBill`.
- `Summary` (summary.dfy): `generateSummary`, including the optional vendor
  name and date block of the later version of the results screen.
  - The method appends text piece by piece, as `generateSummary` does.
  - It is proved equal to `Unlines` of a list of lines.
  - The layout of those lines is stated separately.
- `ItemList` (item_list.dfy): the pure share toggle of an item card, and
  the class `ItemTagger`.
  - The class holds the list's state fields `currentIndex`,
    `isReviewMode`, `isAddingNew` and `newItem`.
  - Each event handler and the clamp effect is a method that updates
    those fields.

Two parts of the outside world become parameters:

- The items belong to the parent component. The tagging methods receive
  `itemCount`, the item count the handler saw when the list was last drawn.
- `parseFloat` is a function parameter of `HandleAddNewItem`.

Two details follow the code closely:

- People may be listed twice, because adding a person does not check for
  duplicates. The split record then has one key per distinct name. The
  summary prints one line per key, in first-occurrence order.
- `ChargeAmount` divides before it multiplies (`subtotal * (value / 100)`),
  as the code does.

## Model

| member | source | states |
|---|---|---|
| Split.CalculateSplit | app/components/Results.tsx:28-53 | The result's subtotal is the sum of all prices. Tip and tax are the charges on that subtotal. The total is subtotal + tip + tax. The record has exactly the people as keys, each holding what they owe. Someone in no item's `sharedBy` gets exactly 0. With a non-zero subtotal and every item shared, the amounts (one per distinct name) add up exactly to the total. |
| Split.Subtotal | app/components/Results.tsx:29 | The prices added left to right from 0. `Split.SubtotalAppend`, `Split.AllAssignedSubtotal` and `Split.ZeroItems` state its properties. |
| Split.SubtotalAppend | app/components/Results.tsx:29 | The subtotal of two lists of items is the sum of their subtotals. |
| Split.ChargeAmount | app/components/Results.tsx:31-34 | The tip or tax amount. `Split.ChargeMeaning` and `Split.ZeroItems` state what it means. |
| Split.ItemTotal | app/components/Results.tsx:44-45 | The fully loaded amount times the subtotal is the price times (subtotal + tip + tax): each item carries tip and tax in proportion to its price. `Split.SplitAmount`, `Split.EqualShares` and `Split.LoadedSumValue` build on it. |
| Split.AllocateShares | app/components/Results.tsx:38-50 | Every person gets an entry starting at 0, and no other key appears. Each person ends with their `Owed` amount over all items. |
| Split.ShareItem | app/components/Results.tsx:47-49 | Each name gains the split amount once per listing in `sharedBy`. Everyone else is unchanged and the keys stay the people. |
| Split.SplitAmount | app/components/Results.tsx:44-46 | The split amount times the number of listings is the item's price plus its proportional part of tip+tax. |
| Split.EqualShares | app/components/Results.tsx:44-49 | Within one item, a name listed k times receives k/n of (price + price/subtotal × (tip+tax)), where n is the number of listings. Every single listing therefore gets the same amount. |
| Split.NotSharingOwesZero | app/components/Results.tsx:38-50 | A person listed in no item's `sharedBy` owes exactly 0. |
| Split.UnassignedItem | app/components/Results.tsx:29-50 | An item with empty `sharedBy` still adds its price to the subtotal, but changes nobody's amount. |
| Split.Conservation | app/components/Results.tsx:29-50 | With a non-zero subtotal and every item shared by known people, the per-person amounts sum exactly to subtotal + tip + tax. This holds even with repeated names in `sharedBy`. |
| Split.AllocatedSum | app/components/Results.tsx:43-50 | Summed over distinct people, what is owed equals the fully loaded amounts of the shared items. |
| Split.LoadedSumValue | app/components/Results.tsx:44-45 | The loaded amounts of the shared items add up to their prices plus the same proportion of tip+tax. |
| Split.AllAssignedSubtotal | app/components/Results.tsx:29 | When every item is shared, the prices of the shared items are the whole subtotal. |
| Split.ZeroItems | app/components/Results.tsx:29-34 | With no items the subtotal is 0. A percentage charge is then 0 and a fixed charge is its value. |
| Split.ChargeMeaning | app/components/Results.tsx:31-34 | A percentage charge is value/100 of the subtotal. A fixed ("amount") charge is its value, whatever the subtotal. |
| Split.PizzaAndSoda | app/components/Results.tsx:28-50 | Pizza 20.00 (A, B) and soda 4.00 (A), with a 10% tip and 5% tax, give subtotal 24.00 and surcharge 3.60. A owes 16.10 and B owes 11.50. |
| Split.TimesIsProduct | app/components/Results.tsx:48 | Adding the split amount once per listing n times adds n × the amount. |
| SeqUtil.Dedup | app/components/Results.tsx:38-41 | The record's keys: no repeats, and exactly the names in `people`. `SeqUtil.DedupOrder` fixes their order. |
| SeqUtil.DedupDistinct | app/components/Results.tsx:38-41 | With no repeated names, the record's key order is the order of `people`. |
| SeqUtil.DedupOrder | app/components/Results.tsx:38-41 | The record's keys come in the order of each name's first occurrence in `people`. |
| SeqUtil.CountZero | app/components/ItemList.tsx:138 | A name occurs zero times exactly when it is not in the list (`includes`). |
| Money.Fixed2TwoDecimals | app/components/Results.tsx:61-71 | Every rendered figure is at least one digit, a point and exactly two digits. It carries a leading minus sign exactly when the amount is negative. |
| Money.Fixed2Accurate | app/components/Results.tsx:61-71 | Reading a rendered figure back gives whole cents within half a cent of the amount, sign included. |
| Money.CentsTextRoundTrip | app/components/Results.tsx:61-71 | Reading back the text of a whole number of cents gives that number. |
| Money.NatTextValue | app/components/Results.tsx:61-71 | The decimal text of the integer part reads back as that integer. |
| Money.RoundHalfUpNearest | app/components/Results.tsx:61-71 | The rounded cents are within half a cent of the amount, and an amount exactly halfway rounds up. |
| Money.NatTextDigits | app/components/Results.tsx:61-71 | The integer part is written as digits only, with no leading zero except for zero itself. |
| Money.Fixed2 | app/components/Results.tsx:61-71 | `toFixed(2)` of an exact amount. `Money.Fixed2TwoDecimals` and `Money.Fixed2Accurate` state its shape and its accuracy. |
| Summary.GenerateSummary | app/components/Results.tsx:57-74 | For a record whose keys are exactly the people, the text built by the appends is the lines of `SummaryLines`, each ended by a newline. |
| Summary.AppendItems | app/components/Results.tsx:60-64 | The items loop appends one line per item, in input order. |
| Summary.AppendTotals | app/components/Results.tsx:65-69 | Appends a blank line, the Subtotal, Tip, Tax and Total lines, a blank line and `Split:`. |
| Summary.AppendShares | app/components/Results.tsx:70-72 | Appends one `<name>: $<amount>` line per record key, in key order. |
| Summary.SummaryHead | app/Results.tsx:29-34 | The summary's lines open with the header and a blank line, then the vendor block (name, `Date: <date>`, blank) when there is one, then `Items:`. Besides the head, the items and the people there are exactly seven lines. |
| Summary.SummaryItems | app/components/Results.tsx:60-64 | Right after `Items:` comes one `- name: $price (Shared by: …)` line per item, in input order. |
| Summary.SummaryTotals | app/components/Results.tsx:65-69 | After the items: a blank line, the Subtotal, Tip, Tax and Total lines with their amounts, a blank line and `Split:`. |
| Summary.SummaryShares | app/components/Results.tsx:70-72 | The summary ends with one `<name>: $<amount>` line per distinct person, in first-occurrence order, each showing that person's amount from the record. |
| Summary.HeadText | app/Results.tsx:28-34 | The text up to `Items:` is the header and a blank line, then `<name>\n`, `Date: <date>\n\n` when there is vendor information, then `Items:\n`. |
| Summary.VendorPrefix | app/Results.tsx:28-34 | The whole summary starts with that prefix. The vendor name and date appear verbatim, and without vendor information `Items:` directly follows the header's blank line. |
| Summary.UnlinesAppend | app/components/Results.tsx:57-73 | The text of two blocks of lines is the text of the first followed by that of the second. |
| Summary.Join | app/components/Results.tsx:63 | `join(", ")` of the sharers. `Summary.JoinAt` places each name in the text, `Summary.JoinSepAt` places the separators between them and `Summary.JoinLength` gives its length. |
| Summary.JoinLength | app/components/Results.tsx:63 | The joined text is as long as all the names together plus one separator between each two neighbours. |
| Summary.JoinAt | app/components/Results.tsx:63 | Each name appears in the joined text, in list order, at the offset of the names before it plus one separator length after each of them. |
| Summary.JoinSepAt | app/components/Results.tsx:63 | Every name but the last is followed by the separator text itself. |
| Summary.ItemLine | app/components/Results.tsx:61-63 | The item line of the template. `Summary.ItemLineText` spells it out and `Summary.SummaryItems` places it. |
| Summary.ItemLineText | app/components/Results.tsx:61-63 | The item line is `- `, the name, `: $`, the price to two decimals, ` (Shared by: `, the joined sharers and `)`. |
| Summary.MoneyLine | app/components/Results.tsx:65-71 | A caption and an amount. `Summary.MoneyLineText` spells it out, and `Summary.SummaryTotals` and `Summary.SummaryShares` place it. |
| Summary.MoneyLineText | app/components/Results.tsx:65-71 | The line is the caption, `: $` and the amount to two decimals. |
| ItemList.RemoveAll | app/components/ItemList.tsx:139 | Filtering a person out leaves them absent, keeps only names from the list, and keeps every other name's count. The length drops by the person's count. |
| ItemList.RemoveAllAppend | app/components/ItemList.tsx:139 | The filter works element by element, so the remaining names keep their order. |
| ItemList.RemoveAllAbsent | app/components/ItemList.tsx:139 | Filtering out a name that is not listed changes nothing. |
| ItemList.RemoveAllDistinct | app/components/ItemList.tsx:139 | Filtering keeps a duplicate-free list duplicate-free. |
| ItemList.ToggleShare | app/components/ItemList.tsx:138-140 | After a toggle the person is listed exactly when they were not listed before. `ItemList.ToggleRemoves`, `ItemList.ToggleAppends`, `ItemList.ToggleFlips`, `ItemList.ToggleTwice` and `ItemList.ToggleDistinct` state the rest. |
| ItemList.ToggleRemoves | app/components/ItemList.tsx:138-139 | Toggling a listed person removes every occurrence of them. Every other name keeps its count. |
| ItemList.ToggleAppends | app/components/ItemList.tsx:138-140 | Toggling an unlisted person appends them at the end and leaves the rest unchanged. |
| ItemList.ToggleFlips | app/components/ItemList.tsx:138-140 | After a toggle the person is listed exactly when they were not listed before. Nobody else's membership changes. |
| ItemList.ToggleTwice | app/components/ItemList.tsx:138-140 | Toggling an unlisted person twice returns the original list. |
| ItemList.ToggleDistinct | app/components/ItemList.tsx:138-140 | Toggling keeps a duplicate-free `sharedBy` duplicate-free. |
| ItemList.ItemTagger.constructor | app/components/ItemList.tsx:30-36 | Starts on item 0, not reviewing, not adding, with an empty draft. |
| ItemList.ItemTagger.Clamp | app/components/ItemList.tsx:38-43 | When the list is non-empty and the focus is past its end, the focus moves to the last item and review mode ends. Otherwise nothing changes. Afterwards a non-empty list has its focus in bounds. |
| ItemList.ItemTagger.HandleNext | app/components/ItemList.tsx:45-51 | Before the last item the focus moves on by one. Otherwise review mode starts and the focus stays put. An in-bounds focus stays in bounds. |
| ItemList.ItemTagger.HandlePrev | app/components/ItemList.tsx:53-57 | The focus moves back by one only when it is above 0, so it never goes negative. In-bounds stays in bounds. |
| ItemList.ItemTagger.HandleAddNewItem | app/components/ItemList.tsx:59-71 | With both fields filled in, it emits the item with the parsed price and an empty `sharedBy`. It then clears the draft, closes the form, focuses the new item's index (the old count, in bounds of the new list) and leaves review mode. With a field empty, nothing is emitted and nothing changes. |
| ItemList.ItemTagger.HandleDeleteItem | app/components/ItemList.tsx:73-78 | Review mode ends exactly when it was on and the list held at most one item. The focus and the form are unchanged. |
| ItemList.ItemTagger.BackToTagging | app/components/ItemList.tsx:319-322 | Leaves review mode with the focus on the last item. |
| ItemList.ItemTagger.StartAdding | app/components/ItemList.tsx:275-276 | Opens the add-item form and changes nothing else. |
| ItemList.ItemTagger.CancelAdding | app/components/ItemList.tsx:202 | Closes the form and keeps what was typed. |
| ItemList.ItemTagger.EditName | app/components/ItemList.tsx:182 | Replaces the draft's name and keeps its price. |
| ItemList.ItemTagger.EditPrice | app/components/ItemList.tsx:194 | Replaces the draft's price and keeps its name. |

## Left out

- Split.CalculateSplit: requires a non-zero subtotal whenever some item has sharers. `calculateSplit` divides by the subtotal unguarded. A zero subtotal there gives each sharer of the item NaN or ±Infinity: NaN when the item's price or tip+tax is 0, ±Infinity otherwise. For example, items of 10 and −10 with a fixed tip of 5 give ±Infinity. The requirement is `!= 0` rather than `> 0`, because prices come from `parseFloat` and may be negative.
- Split.CalculateSplit: requires every name in a `sharedBy` to be one of the people. Otherwise `calculateSplit` adds to a missing record key. That creates a new key holding NaN, and the summary then prints it as `<name>: $NaN`.
- Summary.GenerateSummary: requires the record's keys to be exactly the people, as `Split.CalculateSplit` produces them. A Dafny `map` has no key order, so the model takes the order from `people` and cannot print keys outside it.
- Split.CalculateSplit: conservation is stated only when every item is shared. An unshared item counts in the total, but nobody pays for it, which `Split.UnassignedItem` states.
- An item with an empty `sharedBy` divides by zero in `calculateSplit`. The resulting value is never used, because the loop over sharers runs zero times. The model adds nothing for such an item.
- JavaScript numbers are IEEE doubles. The model computes with exact reals, so rounding drift, NaN and Infinity are not modelled.
- `toFixed(2)` is modelled on the exact amount, rounding halves up. The binary representation of the double, which can round a printed half down, and the exponent form used for magnitudes of 1e21 and above are not modelled.
- `Object.entries` puts integer-like keys first, in numeric order. The model keeps the first-occurrence order of `people` for every name.
- A person named `__proto__` never becomes a key of the record: both the `= 0` and the `+=` of `calculateSplit` go through the prototype setter, which ignores them. `Object.entries` therefore never lists that person, and the summary leaves out their line. The model keeps the key like any other name and prints its line.
- The clipboard copy, its success flag and timeout, and all rendering and animation are not modelled.
- The later results screen (app/Results.tsx) is a draft whose other bodies are elided. Only its vendor block is modelled, combined with the complete summary of app/components/Results.tsx.
- The vision, OCR and prompt modules of the API layer are not part of this model. Neither are the tip and tax form, the receipt form, the people list, the uploader, nor the page and layout wiring.
- The parent's item list is not modelled. `onDeleteItem`, `onUpdateItemShares` and `onAddItem` are the parent's callbacks. The model returns the added item and the toggled `sharedBy` list; the deleted index is simply passed on and is not modelled.
- `parseFloat` is a parameter: the text-to-number conversion itself is not modelled.
- ItemList.ItemTagger.BackToTagging: requires a non-empty list. The button is drawn only in review mode with the form closed, and an empty list with the form closed shows the empty-list screen instead.
- No code in the repository removes a person from the items' `sharedBy` lists, so no such cascade is modelled.
