/** The cart page: the default address chosen after the addresses load,
    the quantity buttons, and the checkout submitter that validates the
    selections, turns the cart into an order payload, posts it and then
    clears the cart or reports the failure. */
module CartPage {
  import opened Common
  import opened Cart

  datatype OrderLine = OrderLine(itemId: string, quantity: int)

  /** The body of `POST /orders`. */
  datatype OrderPayload = OrderPayload(addressId: string, paymentMethod: string, items: seq<OrderLine>)

  /** What one checkout attempt does: the request it sends (if any), whether
      it clears the cart, where it navigates, and the notice it shows. */
  datatype CheckoutOutcome = CheckoutOutcome(
    request: Option<OrderPayload>, clearsCart: bool, target: Option<string>, toast: Toast)

  const AddressMissing := "Por favor, selecione um endereço de entrega."
  const PaymentMissing := "Por favor, selecione uma forma de pagamento."
  const OrderPlaced := "Pedido realizado com sucesso!"
  const OrderFailed := "Não foi possível finalizar o pedido."
  const OrdersPath := "/meus-pedidos"

  /** The order lines: one per cart line, in cart order. */
  function OrderLines(items: seq<CartItem>): (r: seq<OrderLine>)
    ensures |r| == |items|
    ensures forall k :: 0 <= k < |items| ==> r[k] == OrderLine(items[k].id, items[k].quantity)
  {
    seq(|items|, k requires 0 <= k < |items| => OrderLine(items[k].id, items[k].quantity))
  }

  function Payload(addressId: string, paymentMethod: string, items: seq<CartItem>): OrderPayload {
    OrderPayload(addressId, paymentMethod, OrderLines(items))
  }

  /** The summed quantities of a list of order lines. */
  function OrderedUnits(lines: seq<OrderLine>): int {
    if lines == [] then 0 else OrderedUnits(lines[..|lines| - 1]) + lines[|lines| - 1].quantity
  }

  /** `handleCheckout`, with the answer of `POST /orders` as an input. */
  function Checkout(selectedAddress: string, selectedPayment: string, items: seq<CartItem>,
                    response: Response<()>): CheckoutOutcome
  {
    if selectedAddress == "" then
      CheckoutOutcome(None, false, None, ErrorToast(AddressMissing))
    else if selectedPayment == "" then
      CheckoutOutcome(None, false, None, ErrorToast(PaymentMissing))
    else
      var payload := Payload(selectedAddress, selectedPayment, items);
      match response
      case Ok(_) => CheckoutOutcome(Some(payload), true, Some(OrdersPath), SuccessToast(OrderPlaced))
      case Failed(e) =>
        // `error.response?.data?.message || fallback`
        var text := if e.HttpError? then Or(e.message, OrderFailed) else OrderFailed;
        CheckoutOutcome(Some(payload), false, None, ErrorToast(text))
  }

  /** With no address selected, checkout is rejected with the address notice,
      whatever the payment selection: no request, no clearing, no navigation. */
  lemma CheckoutNeedsAddress(payment: string, items: seq<CartItem>, response: Response<()>)
    ensures Checkout("", payment, items, response)
         == CheckoutOutcome(None, false, None, ErrorToast(AddressMissing))
  {
  }

  /** With an address but no payment method, checkout is rejected likewise. */
  lemma CheckoutNeedsPayment(address: string, items: seq<CartItem>, response: Response<()>)
    requires address != ""
    ensures Checkout(address, "", items, response)
         == CheckoutOutcome(None, false, None, ErrorToast(PaymentMissing))
  {
  }

  /** A request is sent exactly when both selections are present, and it
      carries the selections and one (itemId, quantity) line per cart line,
      in cart order; the request does not depend on the answer. */
  lemma CheckoutPayload(address: string, payment: string, items: seq<CartItem>, response: Response<()>)
    ensures var o := Checkout(address, payment, items, response);
      && (o.request.Some? <==> address != "" && payment != "")
      && (o.request.Some? ==>
            && o.request.value.addressId == address
            && o.request.value.paymentMethod == payment
            && |o.request.value.items| == |items|
            && forall k :: 0 <= k < |items| ==>
                 o.request.value.items[k].itemId == items[k].id
                 && o.request.value.items[k].quantity == items[k].quantity)
  {
  }

  /** A successful submit clears the cart and goes to the order list; a
      failed one keeps the cart and shows the server's message, or the fixed
      fallback when the answer carries none. */
  lemma CheckoutSettles(address: string, payment: string, items: seq<CartItem>, response: Response<()>)
    requires address != "" && payment != ""
    ensures var o := Checkout(address, payment, items, response);
      && (response.Ok? ==> o.clearsCart && o.target == Some(OrdersPath))
      && (response.Failed? ==> !o.clearsCart && o.target == None)
      && (response.Failed? && response.error.HttpError? && response.error.message != "" ==>
            o.toast == ErrorToast(response.error.message))
      && (response.Failed? && (response.error.NoResponse? || response.error.message == "") ==>
            o.toast == ErrorToast(OrderFailed))
  {
  }

  /** The payload asks for as many units as the cart shows in its count. */
  lemma {:induction false} PayloadUnits(items: seq<CartItem>)
    ensures OrderedUnits(OrderLines(items)) == TotalItems(items)
  {
    if items != [] {
      var n := |items|;
      assert OrderLines(items)[..n - 1] == OrderLines(items[..n - 1]);
      PayloadUnits(items[..n - 1]);
    }
  }

  // ---------------------------------------------------------------------
  // Quantity buttons

  /** The minus button of a line: `updateQuantity(item.id, item.quantity - 1)`. */
  function MinusButton(line: CartItem): Action {
    UpdateQuantity(line.id, line.quantity - 1)
  }

  /** The plus button of a line: `updateQuantity(item.id, item.quantity + 1)`. */
  function PlusButton(line: CartItem): Action {
    UpdateQuantity(line.id, line.quantity + 1)
  }

  /** On a line holding one unit, minus removes the line. */
  lemma {:induction false} MinusAtOneRemoves(s: CartState, k: nat)
    requires UniqueIds(s.items) && k < |s.items| && s.items[k].quantity == 1
    ensures Step(s, MinusButton(s.items[k])).items == s.items[..k] + s.items[k + 1..]
  {
    RemovePresent(s, k);
  }

  /** On a line holding more than one unit, minus lowers its quantity by one,
      and with it the cart's item count. */
  lemma {:induction false} MinusLowers(s: CartState, k: nat)
    requires UniqueIds(s.items) && k < |s.items| && s.items[k].quantity > 1
    ensures var r := Step(s, MinusButton(s.items[k])).items;
      && |r| == |s.items| && r[k].quantity == s.items[k].quantity - 1
      && TotalItems(r) == TotalItems(s.items) - 1
  {
    UpdateTotals(s, k, s.items[k].quantity - 1);
  }

  /** On a line holding at least one unit, plus raises its quantity by one,
      and with it the cart's item count. */
  lemma {:induction false} PlusRaises(s: CartState, k: nat)
    requires UniqueIds(s.items) && k < |s.items| && s.items[k].quantity >= 1
    ensures var r := Step(s, PlusButton(s.items[k])).items;
      && |r| == |s.items| && r[k].quantity == s.items[k].quantity + 1
      && TotalItems(r) == TotalItems(s.items) + 1
  {
    UpdateTotals(s, k, s.items[k].quantity + 1);
  }

  // ---------------------------------------------------------------------
  // The page

  /** The selected address after `GET /addresses` answered with a list: the
      first address's id when there is one, otherwise the previous
      selection. */
  function DefaultAddress(current: string, addresses: seq<Address>): (r: string)
    ensures |addresses| > 0 ==> r == addresses[0].id
    ensures |addresses| == 0 ==> r == current
  {
    if |addresses| > 0 then addresses[0].id else current
  }

  class CartPageState {
    var addresses: seq<Address>
    var selectedAddress: string
    var selectedPayment: string

    constructor ()
      ensures addresses == [] && selectedAddress == "" && selectedPayment == ""
    {
      addresses, selectedAddress, selectedPayment := [], "", "";
    }

    /** The address effect: runs only for a signed-in user; a failed fetch
        changes nothing. */
    method LoadAddresses(user: Option<User>, response: Response<seq<Address>>)
      modifies this
      ensures user.Some? && response.Ok? ==>
        addresses == response.data && selectedAddress == DefaultAddress(old(selectedAddress), response.data)
      ensures !(user.Some? && response.Ok?) ==>
        addresses == old(addresses) && selectedAddress == old(selectedAddress)
      ensures selectedPayment == old(selectedPayment)
    {
      if user.Some? {
        match response {
          case Ok(data) =>
            addresses := data;
            if |data| > 0 {
              selectedAddress := data[0].id;
            }
          case Failed(_) =>
        }
      }
    }

    method SelectAddress(id: string)
      modifies this
      ensures selectedAddress == id
      ensures addresses == old(addresses) && selectedPayment == old(selectedPayment)
    {
      selectedAddress := id;
    }

    method SelectPayment(payment: string)
      modifies this
      ensures selectedPayment == payment
      ensures addresses == old(addresses) && selectedAddress == old(selectedAddress)
    {
      selectedPayment := payment;
    }

    /** `handleCheckout` against the cart store. */
    method HandleCheckout(cart: CartStore, response: Response<()>) returns (outcome: CheckoutOutcome)
      requires cart.Valid()
      modifies cart
      ensures outcome == Checkout(selectedAddress, selectedPayment, old(cart.state.items), response)
      ensures cart.Valid()
      ensures cart.state == if outcome.clearsCart then EmptyCart else old(cart.state)
    {
      if selectedAddress == "" {
        return CheckoutOutcome(None, false, None, ErrorToast(AddressMissing));
      }
      if selectedPayment == "" {
        return CheckoutOutcome(None, false, None, ErrorToast(PaymentMissing));
      }
      var orderData := Payload(selectedAddress, selectedPayment, cart.state.items);
      match response {
        case Ok(_) =>
          cart.Clear();
          outcome := CheckoutOutcome(Some(orderData), true, Some(OrdersPath), SuccessToast(OrderPlaced));
        case Failed(e) =>
          var errorMsg := if e.HttpError? then Or(e.message, OrderFailed) else OrderFailed;
          outcome := CheckoutOutcome(Some(orderData), false, None, ErrorToast(errorMsg));
      }
    }
  }

  // ---------------------------------------------------------------------

  /** The end-to-end run: pressing a menu item's add button twice on an
      empty cart, then checking out, sends one line of quantity 2 for that
      item and clears the cart; the totals are 2 and twice its price. */
  lemma {:induction false} EndToEnd(a: CartItem, address: string, payment: string)
    requires a.quantity == 1
    requires address != "" && payment != ""
    ensures var s := Step(Step(EmptyCart, AddItem(a)), AddItem(a));
      var o := Checkout(address, payment, s.items, Ok(()));
      && s.items == [a.(quantity := 2)]
      && TotalItems(s.items) == 2 && TotalPrice(s.items) == 2 * a.unitPrice
      && o.request == Some(OrderPayload(address, payment, [OrderLine(a.id, 2)]))
      && o.clearsCart
  {
    var s1 := Step(EmptyCart, AddItem(a));
    assert s1.items == [a];
    assert s1.items[0].id == a.id;
    assert HasId(s1.items, a.id);
    var s := Step(s1, AddItem(a));
    assert s.items == [a.(quantity := 2)];
    TotalsSmall(a.(quantity := 2));
    assert OrderLines(s.items) == [OrderLine(a.id, 2)];
  }
}
