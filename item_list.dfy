/** The item-tagging list: the pure "toggle a person on an item" list
    operation, and the cursor and mode state the list keeps while the user
    steps through the items, reviews them and adds new ones. */
module ItemList {
  import opened SeqUtil
  import opened Split

  /** `sharedBy.filter(p => p !== person)`, written on the last element. */
  function RemoveAll(s: seq<string>, person: string): (r: seq<string>)
    ensures person !in r
    ensures forall x :: x in r ==> x in s
    ensures |r| == |s| - Count(s, person)
    ensures forall x :: x != person ==> Count(r, x) == Count(s, x)
  {
    if s == [] then []
    else
      var init, last := s[..|s| - 1], s[|s| - 1];
      var r := RemoveAll(init, person) + (if last == person then [] else [last]);
      forall x | x != person ensures Count(r, x) == Count(s, x) {
        if last != person {
          CountAppend(RemoveAll(init, person), x, last);
        } else {
          assert r == RemoveAll(init, person);
        }
      }
      r
  }

  /** Filtering works element by element: it keeps the order of what stays. */
  lemma {:induction false} RemoveAllAppend(a: seq<string>, b: seq<string>, person: string)
    ensures RemoveAll(a + b, person) == RemoveAll(a, person) + RemoveAll(b, person)
  {
    if b == [] {
      assert a + b == a;
    } else {
      var init, last := b[..|b| - 1], b[|b| - 1];
      assert (a + b)[..|a + b| - 1] == a + init;
      RemoveAllAppend(a, init, person);
    }
  }

  /** Filtering out a name that is not there changes nothing. */
  lemma {:induction false} RemoveAllAbsent(s: seq<string>, person: string)
    requires person !in s
    ensures RemoveAll(s, person) == s
  {
    if s != [] {
      RemoveAllAbsent(s[..|s| - 1], person);
      assert s == s[..|s| - 1] + [s[|s| - 1]];
    }
  }

  /** Filtering keeps a duplicate-free list duplicate-free. */
  lemma {:induction false} RemoveAllDistinct(s: seq<string>, person: string)
    requires Distinct(s)
    ensures Distinct(RemoveAll(s, person))
  {
    if s != [] {
      var init, last := s[..|s| - 1], s[|s| - 1];
      assert Distinct(init);
      RemoveAllDistinct(init, person);
      if last != person {
        assert last !in init;
        DistinctSnoc(RemoveAll(init, person), last);
      }
    }
  }

  lemma DistinctSnoc(s: seq<string>, x: string)
    requires Distinct(s) && x !in s
    ensures Distinct(s + [x])
  {
  }

  /** The click handler of a person's button on an item card: the new
      `sharedBy` list handed to the parent. */
  function ToggleShare(sharedBy: seq<string>, person: string): (r: seq<string>)
    ensures person in r <==> person !in sharedBy
  {
    if person in sharedBy then RemoveAll(sharedBy, person) else sharedBy + [person]
  }

  /** Toggling a listed person takes out every occurrence of them and
      keeps the other names, in order and with their multiplicities. */
  lemma ToggleRemoves(sharedBy: seq<string>, person: string)
    requires person in sharedBy
    ensures var r := ToggleShare(sharedBy, person);
      && person !in r
      && |r| == |sharedBy| - Count(sharedBy, person)
      && (forall x :: x != person ==> Count(r, x) == Count(sharedBy, x))
  {
  }

  /** Toggling an unlisted person appends them and leaves the rest as is. */
  lemma ToggleAppends(sharedBy: seq<string>, person: string)
    requires person !in sharedBy
    ensures var r := ToggleShare(sharedBy, person);
      |r| == |sharedBy| + 1 && r[..|sharedBy|] == sharedBy && r[|sharedBy|] == person
  {
  }

  /** After a toggle the person is listed exactly when they were not before,
      and nobody else's listing changes. */
  lemma ToggleFlips(sharedBy: seq<string>, person: string)
    ensures person in ToggleShare(sharedBy, person) <==> person !in sharedBy
    ensures forall x :: x != person ==> (x in ToggleShare(sharedBy, person) <==> x in sharedBy)
  {
    var r := ToggleShare(sharedBy, person);
    forall x | x != person ensures x in r <==> x in sharedBy {
      CountZero(r, x);
      CountZero(sharedBy, x);
      if person !in sharedBy {
        CountAppend(sharedBy, x, person);
      }
    }
  }

  /** Toggling an unlisted person twice gives back the original list. */
  lemma ToggleTwice(sharedBy: seq<string>, person: string)
    requires person !in sharedBy
    ensures ToggleShare(ToggleShare(sharedBy, person), person) == sharedBy
  {
    var once := sharedBy + [person];
    assert person in once;
    RemoveAllAppend(sharedBy, [person], person);
    assert RemoveAll([person], person) == [] by {
      assert [person][..0] == [];
    }
    RemoveAllAbsent(sharedBy, person);
  }

  /** Toggling keeps a duplicate-free list duplicate-free. */
  lemma ToggleDistinct(sharedBy: seq<string>, person: string)
    requires Distinct(sharedBy)
    ensures Distinct(ToggleShare(sharedBy, person))
  {
    if person in sharedBy {
      RemoveAllDistinct(sharedBy, person);
    } else {
      DistinctSnoc(sharedBy, person);
    }
  }

  /** The text fields of the add-item form. */
  datatype Draft = Draft(name: string, price: string)

  /** The component's state: the focused item, whether the list is shown
      for review, whether the add-item form is open, and that form's text.
      The items belong to the parent; each handler sees their count as it
      was when the list was last drawn. */
  class ItemTagger {
    var currentIndex: int
    var isReviewMode: bool
    var isAddingNew: bool
    var newItem: Draft

    /** The focus is never before the first item. */
    predicate Valid()
      reads this
    {
      currentIndex >= 0
    }

    /** The focus is on one of `itemCount` items. */
    predicate InBounds(itemCount: nat)
      reads this
    {
      0 <= currentIndex < itemCount
    }

    constructor()
      ensures Valid()
      ensures currentIndex == 0 && !isReviewMode && !isAddingNew && newItem == Draft("", "")
    {
      currentIndex := 0;
      isReviewMode := false;
      isAddingNew := false;
      newItem := Draft("", "");
    }

    /** The effect that runs when the item count or the focus changes: a
        focus past the end of a non-empty list moves to the last item and
        leaves review mode; an empty list leaves everything as it is. */
    method Clamp(itemCount: nat)
      requires Valid()
      modifies this
      ensures Valid()
      ensures if old(currentIndex) >= itemCount && itemCount > 0
        then currentIndex == itemCount - 1 && !isReviewMode
        else currentIndex == old(currentIndex) && isReviewMode == old(isReviewMode)
      ensures itemCount > 0 ==> InBounds(itemCount)
      ensures isAddingNew == old(isAddingNew) && newItem == old(newItem)
    {
      if currentIndex >= itemCount && itemCount > 0 {
        currentIndex := itemCount - 1;
        isReviewMode := false;
      }
    }

    /** "Next": moves the focus on while it is before the last item, and
        otherwise enters review mode with the focus where it was. */
    method HandleNext(itemCount: nat)
      requires Valid()
      modifies this
      ensures Valid()
      ensures if old(currentIndex) < itemCount - 1
        then currentIndex == old(currentIndex) + 1 && isReviewMode == old(isReviewMode)
        else currentIndex == old(currentIndex) && isReviewMode
      ensures old(InBounds(itemCount)) ==> InBounds(itemCount)
      ensures isAddingNew == old(isAddingNew) && newItem == old(newItem)
    {
      if currentIndex < itemCount - 1 {
        currentIndex := currentIndex + 1;
      } else {
        isReviewMode := true;
      }
    }

    /** "Previous": moves the focus back unless it is on the first item. */
    method HandlePrev()
      requires Valid()
      modifies this
      ensures Valid()
      ensures currentIndex == if old(currentIndex) > 0 then old(currentIndex) - 1 else old(currentIndex)
      ensures forall n: nat :: old(InBounds(n)) ==> InBounds(n)
      ensures isReviewMode == old(isReviewMode) && isAddingNew == old(isAddingNew) && newItem == old(newItem)
    {
      if currentIndex > 0 {
        currentIndex := currentIndex - 1;
      }
    }

    /** "Add Item": with both fields filled in, hands the parent a new item
        nobody shares yet (its price read by `parseFloat`), clears the
        form, closes it, focuses the new item, which goes at index
        `itemCount`, and leaves review mode. With either field empty,
        nothing happens. */
    method HandleAddNewItem(itemCount: nat, parseFloat: string -> real) returns (added: Option<Item>)
      requires Valid()
      modifies this
      ensures Valid()
      ensures old(newItem.name) != "" && old(newItem.price) != "" ==>
        && added == Some(Item(old(newItem.name), parseFloat(old(newItem.price)), []))
        && newItem == Draft("", "") && !isAddingNew
        && currentIndex == itemCount && InBounds(itemCount + 1) && !isReviewMode
      ensures old(newItem.name) == "" || old(newItem.price) == "" ==>
        && added == None
        && newItem == old(newItem) && isAddingNew == old(isAddingNew)
        && currentIndex == old(currentIndex) && isReviewMode == old(isReviewMode)
    {
      if newItem.name != "" && newItem.price != "" {
        added := Some(Item(newItem.name, parseFloat(newItem.price), []));
        newItem := Draft("", "");
        isAddingNew := false;
        currentIndex := itemCount;
        isReviewMode := false;
      } else {
        added := None;
      }
    }

    /** The delete button: the parent removes the item; review mode ends
        only when it was on and the list, as last drawn, held at most one
        item, i.e. the list is now empty. */
    method HandleDeleteItem(itemCount: nat)
      requires Valid()
      modifies this
      ensures Valid()
      ensures isReviewMode == (old(isReviewMode) && itemCount > 1)
      ensures currentIndex == old(currentIndex) && isAddingNew == old(isAddingNew) && newItem == old(newItem)
    {
      if isReviewMode && itemCount <= 1 {
        isReviewMode := false;
      }
    }

    /** "Back to Tagging", shown in review mode over a non-empty list:
        leaves review mode with the focus on the last item. */
    method BackToTagging(itemCount: nat)
      requires Valid() && itemCount > 0
      modifies this
      ensures Valid() && InBounds(itemCount)
      ensures !isReviewMode && currentIndex == itemCount - 1
      ensures isAddingNew == old(isAddingNew) && newItem == old(newItem)
    {
      isReviewMode := false;
      currentIndex := itemCount - 1;
    }

    /** "+ Add Item" and "+ Add More Items": open the form. */
    method StartAdding()
      requires Valid()
      modifies this
      ensures Valid() && isAddingNew
      ensures currentIndex == old(currentIndex) && isReviewMode == old(isReviewMode) && newItem == old(newItem)
    {
      isAddingNew := true;
    }

    /** "Cancel": closes the form and keeps what was typed. */
    method CancelAdding()
      requires Valid()
      modifies this
      ensures Valid() && !isAddingNew
      ensures currentIndex == old(currentIndex) && isReviewMode == old(isReviewMode) && newItem == old(newItem)
    {
      isAddingNew := false;
    }

    /** Typing in the name field. */
    method EditName(name: string)
      requires Valid()
      modifies this
      ensures Valid() && newItem == Draft(name, old(newItem.price))
      ensures currentIndex == old(currentIndex) && isReviewMode == old(isReviewMode) && isAddingNew == old(isAddingNew)
    {
      newItem := newItem.(name := name);
    }

    /** Typing in the price field. */
    method EditPrice(price: string)
      requires Valid()
      modifies this
      ensures Valid() && newItem == Draft(old(newItem.name), price)
      ensures currentIndex == old(currentIndex) && isReviewMode == old(isReviewMode) && isAddingNew == old(isAddingNew)
    {
      newItem := newItem.(price := price);
    }
  }
}
