/** The menu page: items are shown grouped under their category, and the
    add button turns a catalogue item into a one-unit cart line. */
module Menu {
  import opened Common
  import opened Cart

  /** `handleAddItem`'s record. The price text is read by `parsePrice`
      (`parseFloat` followed by the conversion to cents). */
  function ToCartLine(item: MenuItem, parsePrice: string -> int): (line: CartItem)
    ensures line.id == item.id && line.description == item.description
    ensures line.unitPrice == parsePrice(item.unitPrice) && line.quantity == 1
  {
    CartItem(item.id, item.description, parsePrice(item.unitPrice), 1)
  }

  /** `items.filter(item => item.categoryId === categoryId)` */
  function ItemsInCategory(items: seq<MenuItem>, categoryId: string): (r: seq<MenuItem>)
    ensures |r| <= |items|
  {
    if items == [] then []
    else if items[0].categoryId == categoryId then [items[0]] + ItemsInCategory(items[1..], categoryId)
    else ItemsInCategory(items[1..], categoryId)
  }

  /** The items of a section are exactly the items of that category. */
  lemma {:induction false} ItemsInCategoryMembers(items: seq<MenuItem>, categoryId: string)
    ensures forall x :: x in ItemsInCategory(items, categoryId) <==> x in items && x.categoryId == categoryId
  {
    if items != [] {
      ItemsInCategoryMembers(items[1..], categoryId);
      assert items == [items[0]] + items[1..];
    }
  }

  /** Grouping keeps the catalogue order: it commutes with concatenation. */
  lemma {:induction false} ItemsInCategoryConcat(a: seq<MenuItem>, b: seq<MenuItem>, categoryId: string)
    ensures ItemsInCategory(a + b, categoryId) == ItemsInCategory(a, categoryId) + ItemsInCategory(b, categoryId)
  {
    if a == [] {
      assert a + b == b;
    } else {
      assert (a + b)[0] == a[0];
      assert (a + b)[1..] == a[1..] + b;
      ItemsInCategoryConcat(a[1..], b, categoryId);
    }
  }

  /** The sections rendered: one per category, in category order. */
  function Sections(categories: seq<Category>, items: seq<MenuItem>): (r: seq<seq<MenuItem>>)
    ensures |r| == |categories|
    ensures forall k :: 0 <= k < |categories| ==> r[k] == ItemsInCategory(items, categories[k].id)
  {
    seq(|categories|, k requires 0 <= k < |categories| => ItemsInCategory(items, categories[k].id))
  }

  /** An item whose category is not in the list appears in no section. */
  lemma {:induction false} OrphanHidden(categories: seq<Category>, items: seq<MenuItem>, x: MenuItem)
    requires forall c :: c in categories ==> c.id != x.categoryId
    ensures forall k :: 0 <= k < |categories| ==> x !in Sections(categories, items)[k]
  {
    forall k | 0 <= k < |categories| ensures x !in Sections(categories, items)[k] {
      assert categories[k] in categories;
      ItemsInCategoryMembers(items, categories[k].id);
    }
  }

  /** Adding a cart line `n` times, as pressing the add button `n` times does. */
  function AddTimes(s: CartState, line: CartItem, n: nat): CartState {
    if n == 0 then s else Step(AddTimes(s, line, n - 1), AddItem(line))
  }

  /** Starting from a cart without that item, pressing its add button `n`
      times (n >= 1) leaves exactly one line for it, the last one, with
      quantity `n`; the earlier lines are untouched. */
  lemma {:induction false} AddedNTimes(s: CartState, item: MenuItem, parsePrice: string -> int, n: nat)
    requires !HasId(s.items, item.id) && n >= 1
    ensures var line := ToCartLine(item, parsePrice);
      AddTimes(s, line, n).items == s.items + [line.(quantity := n)]
  {
    var line := ToCartLine(item, parsePrice);
    if n == 1 {
      assert AddTimes(s, line, 0) == s;
    } else {
      AddedNTimes(s, item, parsePrice, n - 1);
      var prev := s.items + [line.(quantity := n - 1)];
      assert prev[|s.items|].id == item.id;
      assert HasId(prev, item.id);
      var r := AddQuantity(prev, item.id, 1);
      assert forall k :: 0 <= k < |s.items| ==> s.items[k].id != item.id;
      assert r == s.items + [line.(quantity := n)];
    }
  }
}
