/** The cart store: a reducer over a tagged union of actions, the two
    totals, and the provider that rehydrates the cart from local storage at
    startup and writes a snapshot back after every change. Prices are
    integer cents. */
module Cart {
  import opened Common

  datatype CartItem = CartItem(id: string, description: string, unitPrice: int, quantity: int)

  datatype CartState = CartState(items: seq<CartItem>)

  datatype Action =
    | AddItem(item: CartItem)
    | RemoveItem(id: string)
    | UpdateQuantity(id: string, quantity: int)
    | ClearCart
    | SetState(state: CartState)

  const EmptyCart := CartState([])

  /** The local-storage key of the cart snapshot. */
  const StorageKey := "@UaiFood:cart"

  /** What the storage entry holds: the text of a snapshot that parses back
      to a cart state, or text that does not parse. */
  datatype StoredCart = Snapshot(state: CartState) | Garbage

  // ---------------------------------------------------------------------
  // Specification predicates

  predicate HasId(items: seq<CartItem>, id: string) {
    exists k :: 0 <= k < |items| && items[k].id == id
  }

  /** At most one line per id. */
  ghost predicate UniqueIds(items: seq<CartItem>) {
    forall i, j :: 0 <= i < j < |items| ==> items[i].id != items[j].id
  }

  /** Every line holds at least one unit. */
  ghost predicate PositiveQuantities(items: seq<CartItem>) {
    forall k :: 0 <= k < |items| ==> items[k].quantity >= 1
  }

  ghost predicate WellFormed(items: seq<CartItem>) {
    UniqueIds(items) && PositiveQuantities(items)
  }

  // ---------------------------------------------------------------------
  // The reducer and its helpers

  /** `items.map(i => i.id === id ? {...i, quantity: i.quantity + q} : i)` */
  function AddQuantity(items: seq<CartItem>, id: string, q: int): (r: seq<CartItem>)
    ensures |r| == |items|
    ensures forall k :: 0 <= k < |items| && items[k].id != id ==> r[k] == items[k]
    ensures forall k :: 0 <= k < |items| && items[k].id == id ==>
              r[k] == items[k].(quantity := items[k].quantity + q)
  {
    seq(|items|, k requires 0 <= k < |items| =>
      if items[k].id == id then items[k].(quantity := items[k].quantity + q) else items[k])
  }

  /** `items.map(i => i.id === id ? {...i, quantity: q} : i)` */
  function SetQuantity(items: seq<CartItem>, id: string, q: int): (r: seq<CartItem>)
    ensures |r| == |items|
    ensures forall k :: 0 <= k < |items| && items[k].id != id ==> r[k] == items[k]
    ensures forall k :: 0 <= k < |items| && items[k].id == id ==> r[k] == items[k].(quantity := q)
  {
    seq(|items|, k requires 0 <= k < |items| =>
      if items[k].id == id then items[k].(quantity := q) else items[k])
  }

  /** `items.filter(i => i.id !== id)` */
  function Without(items: seq<CartItem>, id: string): (r: seq<CartItem>)
    ensures |r| <= |items|
  {
    if items == [] then []
    else if items[0].id == id then Without(items[1..], id)
    else [items[0]] + Without(items[1..], id)
  }

  /** `cartReducer(state, action)`. */
  function Step(s: CartState, a: Action): (r: CartState)
    decreases if a.UpdateQuantity? then 1 else 0
  {
    match a
    case AddItem(item) =>
      if HasId(s.items, item.id) then CartState(AddQuantity(s.items, item.id, item.quantity))
      else CartState(s.items + [item])
    case RemoveItem(id) =>
      CartState(Without(s.items, id))
    case UpdateQuantity(id, q) =>
      if q <= 0 then Step(s, RemoveItem(id))
      else CartState(SetQuantity(s.items, id, q))
    case ClearCart =>
      CartState([])
    case SetState(p) =>
      p
  }

  // ---------------------------------------------------------------------
  // Totals: left folds, in the order `reduce` visits the lines

  /** `items.reduce((total, item) => total + item.quantity, 0)` */
  function TotalItems(items: seq<CartItem>): int {
    if items == [] then 0
    else TotalItems(items[..|items| - 1]) + items[|items| - 1].quantity
  }

  /** `items.reduce((total, item) => total + item.unitPrice * item.quantity, 0)` */
  function TotalPrice(items: seq<CartItem>): int {
    if items == [] then 0
    else TotalPrice(items[..|items| - 1]) + items[|items| - 1].unitPrice * items[|items| - 1].quantity
  }

  /** The start-up state: the stored snapshot when there is one that parses,
      otherwise the empty cart. */
  function Rehydrate(stored: Option<StoredCart>): (r: CartState)
    ensures stored == Some(Garbage) || stored == None ==> r == EmptyCart
  {
    match stored
    case Some(Snapshot(s)) => s
    case _ => EmptyCart
  }

  // ---------------------------------------------------------------------
  // Lemmas about Without (`filter`)

  /** The lines kept are exactly the lines of the cart whose id differs. */
  lemma {:induction false} WithoutMembers(items: seq<CartItem>, id: string)
    ensures forall x :: x in Without(items, id) <==> x in items && x.id != id
  {
    if items != [] {
      WithoutMembers(items[1..], id);
      assert items == [items[0]] + items[1..];
    }
  }

  /** Filtering commutes with concatenation, so the lines kept stay in
      their original order. */
  lemma {:induction false} WithoutConcat(a: seq<CartItem>, b: seq<CartItem>, id: string)
    ensures Without(a + b, id) == Without(a, id) + Without(b, id)
  {
    if a == [] {
      assert a + b == b;
    } else {
      assert (a + b)[0] == a[0];
      assert (a + b)[1..] == a[1..] + b;
      WithoutConcat(a[1..], b, id);
    }
  }

  /** Filtering out an id no line carries changes nothing. */
  lemma {:induction false} WithoutAbsent(items: seq<CartItem>, id: string)
    requires !HasId(items, id)
    ensures Without(items, id) == items
  {
    if items != [] {
      assert !HasId(items[1..], id) by {
        forall k | 0 <= k < |items[1..]| ensures items[1..][k].id != id {
          assert items[1..][k] == items[k + 1];
        }
      }
      WithoutAbsent(items[1..], id);
      assert items == [items[0]] + items[1..];
    }
  }

  lemma {:induction false} WithoutUnique(items: seq<CartItem>, id: string)
    requires UniqueIds(items)
    ensures UniqueIds(Without(items, id))
  {
    if items != [] {
      var rest := items[1..];
      assert UniqueIds(rest) by {
        forall i, j | 0 <= i < j < |rest| ensures rest[i].id != rest[j].id {
          assert rest[i] == items[i + 1] && rest[j] == items[j + 1];
        }
      }
      WithoutUnique(rest, id);
      if items[0].id != id {
        var w := Without(rest, id);
        WithoutMembers(rest, id);
        forall y | y in w ensures y.id != items[0].id {
          assert y in rest;
          var j :| 0 <= j < |rest| && rest[j] == y;
          assert items[j + 1] == y;
        }
        var r := [items[0]] + w;
        forall i, j | 0 <= i < j < |r| ensures r[i].id != r[j].id {
          assert r[j] == w[j - 1];
          assert w[j - 1] in w;
          if i > 0 { assert r[i] == w[i - 1]; }
        }
      }
    }
  }

  lemma {:induction false} WithoutPositive(items: seq<CartItem>, id: string)
    requires PositiveQuantities(items)
    ensures PositiveQuantities(Without(items, id))
  {
    WithoutMembers(items, id);
    var r := Without(items, id);
    forall k | 0 <= k < |r| ensures r[k].quantity >= 1 {
      assert r[k] in r;
    }
  }

  // ---------------------------------------------------------------------
  // Lemmas about the totals

  /** Totals of a concatenation add up. */
  lemma {:induction false} TotalsConcat(a: seq<CartItem>, b: seq<CartItem>)
    ensures TotalItems(a + b) == TotalItems(a) + TotalItems(b)
    ensures TotalPrice(a + b) == TotalPrice(a) + TotalPrice(b)
  {
    if b == [] {
      assert a + b == a;
    } else {
      var n := |b|;
      assert (a + b)[..|a + b| - 1] == a + b[..n - 1];
      assert (a + b)[|a + b| - 1] == b[n - 1];
      TotalsConcat(a, b[..n - 1]);
    }
  }

  /** Changing one line changes each total by that line's difference. */
  lemma {:induction false} TotalsAfterLineChange(a: seq<CartItem>, b: seq<CartItem>, k: nat)
    requires |a| == |b| && k < |a|
    requires forall j :: 0 <= j < |a| && j != k ==> a[j] == b[j]
    ensures TotalItems(b) == TotalItems(a) - a[k].quantity + b[k].quantity
    ensures TotalPrice(b) == TotalPrice(a) - a[k].unitPrice * a[k].quantity + b[k].unitPrice * b[k].quantity
  {
    var n := |a|;
    if k == n - 1 {
      assert a[..n - 1] == b[..n - 1];
    } else {
      TotalsAfterLineChange(a[..n - 1], b[..n - 1], k);
    }
  }

  /** Both totals of an empty cart are zero; a lone line contributes its
      quantity and its subtotal. */
  lemma {:induction false} TotalsSmall(x: CartItem)
    ensures TotalItems([]) == 0 && TotalPrice([]) == 0
    ensures TotalItems([x]) == x.quantity && TotalPrice([x]) == x.unitPrice * x.quantity
  {
    assert [x][..0] == [];
  }

  /** With unique ids, the line with a given id sits at one index only. */
  lemma {:induction false} UniqueIndex(items: seq<CartItem>, id: string, k: nat)
    requires UniqueIds(items) && k < |items| && items[k].id == id
    ensures forall j :: 0 <= j < |items| && j != k ==> items[j].id != id
  {
  }

  lemma Distribute(p: int, a: int, b: int)
    ensures p * (a + b) == p * a + p * b
  {
  }

  // ---------------------------------------------------------------------
  // ADD_ITEM

  /** Adding an id already in the cart raises that line's quantity by the
      payload's quantity and leaves every other line, and the length, as
      they were. */
  lemma {:induction false} AddExisting(s: CartState, item: CartItem, k: nat)
    requires UniqueIds(s.items) && k < |s.items| && s.items[k].id == item.id
    ensures var r := Step(s, AddItem(item)).items;
      && |r| == |s.items|
      && r[k] == s.items[k].(quantity := s.items[k].quantity + item.quantity)
      && (forall j :: 0 <= j < |r| && j != k ==> r[j] == s.items[j])
  {
    assert HasId(s.items, item.id);
    var r := AddQuantity(s.items, item.id, item.quantity);
    assert Step(s, AddItem(item)).items == r;
    UniqueIndex(s.items, item.id, k);
  }

  /** So the item count grows by exactly the payload's quantity, and the
      price by the existing line's unit price times it. */
  lemma {:induction false} AddExistingTotals(s: CartState, item: CartItem, k: nat)
    requires UniqueIds(s.items) && k < |s.items| && s.items[k].id == item.id
    ensures var r := Step(s, AddItem(item)).items;
      && TotalItems(r) == TotalItems(s.items) + item.quantity
      && TotalPrice(r) == TotalPrice(s.items) + s.items[k].unitPrice * item.quantity
  {
    AddExisting(s, item, k);
    var r := Step(s, AddItem(item)).items;
    TotalsAfterLineChange(s.items, r, k);
    var p, q, d := s.items[k].unitPrice, s.items[k].quantity, item.quantity;
    assert r[k].unitPrice * r[k].quantity == p * (q + d);
    Distribute(p, q, d);
  }

  /** Adding an id not yet in the cart appends the payload as the last line;
      earlier lines are untouched and the totals grow by the new line. */
  lemma {:induction false} AddNew(s: CartState, item: CartItem)
    requires !HasId(s.items, item.id)
    ensures var r := Step(s, AddItem(item)).items;
      && r == s.items + [item]
      && r[..|s.items|] == s.items && r[|s.items|] == item
      && TotalItems(r) == TotalItems(s.items) + item.quantity
      && TotalPrice(r) == TotalPrice(s.items) + item.unitPrice * item.quantity
  {
    var r := s.items + [item];
    assert r[..|r| - 1] == s.items;
  }

  // ---------------------------------------------------------------------
  // REMOVE_ITEM

  /** Removing leaves no line with that id, keeps exactly the other lines in
      their original order (filtering commutes with concatenation), and is
      a no-op for an absent id. */
  lemma {:induction false} RemoveSpec(s: CartState, id: string)
    ensures var r := Step(s, RemoveItem(id)).items;
      && !HasId(r, id)
      && (forall x :: x in r <==> x in s.items && x.id != id)
      && (!HasId(s.items, id) ==> r == s.items)
  {
    var r := Step(s, RemoveItem(id)).items;
    WithoutMembers(s.items, id);
    forall k | 0 <= k < |r| ensures r[k].id != id {
      assert r[k] in r;
    }
    if !HasId(s.items, id) {
      WithoutAbsent(s.items, id);
    }
  }

  /** Removing the same id twice is the same as removing it once. */
  lemma {:induction false} RemoveIdempotent(s: CartState, id: string)
    ensures Step(Step(s, RemoveItem(id)), RemoveItem(id)) == Step(s, RemoveItem(id))
  {
    RemoveSpec(s, id);
    WithoutAbsent(Without(s.items, id), id);
  }

  /** When no other line shares line k's id, filtering out that id removes
      exactly line k. */
  lemma {:induction false} WithoutAt(items: seq<CartItem>, k: nat)
    requires k < |items|
    requires forall j :: 0 <= j < |items| && j != k ==> items[j].id != items[k].id
    ensures Without(items, items[k].id) == items[..k] + items[k + 1..]
  {
    var id := items[k].id;
    var pre, x, post := items[..k], items[k], items[k + 1..];
    assert items == (pre + [x]) + post;
    assert !HasId(pre, id) by {
      forall j | 0 <= j < |pre| ensures pre[j].id != id { assert pre[j] == items[j]; }
    }
    assert !HasId(post, id) by {
      forall j | 0 <= j < |post| ensures post[j].id != id { assert post[j] == items[k + 1 + j]; }
    }
    WithoutConcat(pre + [x], post, id);
    WithoutConcat(pre, [x], id);
    WithoutAbsent(pre, id);
    WithoutAbsent(post, id);
    assert Without([x], id) == [];
  }

  /** Dropping line k lowers the item count by its quantity and the price
      by its subtotal. */
  lemma {:induction false} TotalsWithoutLine(items: seq<CartItem>, k: nat)
    requires k < |items|
    ensures TotalItems(items[..k] + items[k + 1..]) == TotalItems(items) - items[k].quantity
    ensures TotalPrice(items[..k] + items[k + 1..]) == TotalPrice(items) - items[k].unitPrice * items[k].quantity
  {
    var pre, x, post := items[..k], items[k], items[k + 1..];
    assert items == (pre + [x]) + post;
    TotalsConcat(pre + [x], post);
    TotalsConcat(pre, [x]);
    TotalsConcat(pre, post);
    TotalsSmall(x);
  }

  /** Removing one line of a cart with unique ids drops exactly that line,
      keeping the others in order, and lowers the totals by it. */
  lemma {:induction false} RemovePresent(s: CartState, k: nat)
    requires UniqueIds(s.items) && k < |s.items|
    ensures var r := Step(s, RemoveItem(s.items[k].id)).items;
      && r == s.items[..k] + s.items[k + 1..]
      && TotalItems(r) == TotalItems(s.items) - s.items[k].quantity
      && TotalPrice(r) == TotalPrice(s.items) - s.items[k].unitPrice * s.items[k].quantity
  {
    UniqueIndex(s.items, s.items[k].id, k);
    WithoutAt(s.items, k);
    TotalsWithoutLine(s.items, k);
  }

  // ---------------------------------------------------------------------
  // UPDATE_QUANTITY

  /** A quantity of zero or less is a removal of that id. */
  lemma UpdateNonPositiveRemoves(s: CartState, id: string, q: int)
    requires q <= 0
    ensures Step(s, UpdateQuantity(id, q)) == Step(s, RemoveItem(id))
  {
  }

  /** A positive quantity changes only the quantity of the matching line:
      ids, descriptions, prices, order and length stay; an absent id
      changes nothing. */
  lemma UpdatePositive(s: CartState, id: string, q: int)
    requires q > 0
    ensures var r := Step(s, UpdateQuantity(id, q)).items;
      && |r| == |s.items|
      && (forall k :: 0 <= k < |r| ==>
            r[k].id == s.items[k].id && r[k].description == s.items[k].description
            && r[k].unitPrice == s.items[k].unitPrice)
      && (forall k :: 0 <= k < |r| ==>
            r[k].quantity == if s.items[k].id == id then q else s.items[k].quantity)
      && (!HasId(s.items, id) ==> r == s.items)
  {
  }

  /** With unique ids, setting the quantity of a present line moves the item
      count from the old quantity to the new one. */
  lemma {:induction false} UpdateTotals(s: CartState, k: nat, q: int)
    requires UniqueIds(s.items) && k < |s.items| && q > 0
    ensures var r := Step(s, UpdateQuantity(s.items[k].id, q)).items;
      && TotalItems(r) == TotalItems(s.items) - s.items[k].quantity + q
      && TotalPrice(r) == TotalPrice(s.items) - s.items[k].unitPrice * s.items[k].quantity + s.items[k].unitPrice * q
  {
    UniqueIndex(s.items, s.items[k].id, k);
    TotalsAfterLineChange(s.items, Step(s, UpdateQuantity(s.items[k].id, q)).items, k);
  }

  // ---------------------------------------------------------------------
  // CLEAR_CART and SET_STATE

  lemma ClearAndSet(s: CartState, p: CartState)
    ensures Step(s, ClearCart) == EmptyCart
    ensures TotalItems(Step(s, ClearCart).items) == 0 && TotalPrice(Step(s, ClearCart).items) == 0
    ensures Step(s, SetState(p)) == p
  {
  }

  // ---------------------------------------------------------------------
  // Invariants

  /** ADD_ITEM, REMOVE_ITEM, UPDATE_QUANTITY and CLEAR_CART keep at most one
      line per id; with added quantities of at least one they also keep
      every quantity at least one. */
  lemma {:induction false} StepPreservesWellFormed(s: CartState, a: Action)
    requires !a.SetState?
    ensures UniqueIds(s.items) ==> UniqueIds(Step(s, a).items)
    ensures WellFormed(s.items) && (a.AddItem? ==> a.item.quantity >= 1) ==> WellFormed(Step(s, a).items)
  {
    match a
    case AddItem(item) =>
      if !HasId(s.items, item.id) {
        var r := s.items + [item];
        assert forall k :: 0 <= k < |s.items| ==> r[k] == s.items[k];
      }
    case RemoveItem(id) =>
      if UniqueIds(s.items) { WithoutUnique(s.items, id); }
      if PositiveQuantities(s.items) { WithoutPositive(s.items, id); }
    case UpdateQuantity(id, q) =>
      if q <= 0 {
        if UniqueIds(s.items) { WithoutUnique(s.items, id); }
        if PositiveQuantities(s.items) { WithoutPositive(s.items, id); }
      }
    case ClearCart =>
  }

  // ---------------------------------------------------------------------
  // The provider

  /** `CartProvider`: the in-memory state and the storage entry under
      StorageKey. After construction and after every dispatch the entry is a
      snapshot of the in-memory state. */
  class CartStore {
    var state: CartState
    var storage: Option<StoredCart>

    ghost predicate Valid()
      reads this
    {
      storage == Some(Snapshot(state))
    }

    /** The lazy initialiser reads the entry (falling back to the empty cart
        when it is missing or does not parse), and the effect then writes
        the loaded state back. */
    constructor (stored: Option<StoredCart>)
      ensures state == Rehydrate(stored)
      ensures stored.Some? && stored.value.Snapshot? ==> state == stored.value.state
      ensures Valid()
    {
      state := Rehydrate(stored);
      storage := Some(Snapshot(Rehydrate(stored)));
    }

    /** `dispatch` followed by the persist-on-change effect. */
    method Dispatch(a: Action)
      modifies this
      ensures state == Step(old(state), a)
      ensures Valid()
    {
      state := Step(state, a);
      storage := Some(Snapshot(state));
    }

    /** `addItem`: returns the notice it shows, which depends on whether the
        id is already in the cart. */
    method Add(item: CartItem) returns (notice: Toast)
      modifies this
      ensures state == Step(old(state), AddItem(item)) && Valid()
      ensures notice == if HasId(old(state).items, item.id)
                        then SuccessToast("Mais um \"" + item.description + "\" adicionado!")
                        else SuccessToast("\"" + item.description + "\" adicionado ao carrinho!")
    {
      var existing := exists k :: 0 <= k < |state.items| && state.items[k].id == item.id;
      if existing {
        notice := SuccessToast("Mais um \"" + item.description + "\" adicionado!");
      } else {
        notice := SuccessToast("\"" + item.description + "\" adicionado ao carrinho!");
      }
      Dispatch(AddItem(item));
    }

    method Remove(id: string)
      modifies this
      ensures state == Step(old(state), RemoveItem(id)) && Valid()
    {
      Dispatch(RemoveItem(id));
    }

    method SetLineQuantity(id: string, quantity: int)
      modifies this
      ensures state == Step(old(state), UpdateQuantity(id, quantity)) && Valid()
    {
      Dispatch(UpdateQuantity(id, quantity));
    }

    method Clear()
      modifies this
      ensures state == EmptyCart && Valid()
    {
      Dispatch(ClearCart);
    }
  }

  /** A restart reads back what the store last wrote. */
  lemma RestartRestores(s: CartState)
    ensures Rehydrate(Some(Snapshot(s))) == s
  {
  }
}
