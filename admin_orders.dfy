/** The order administration page: the status selector, the status change
    and the order total. Prices are integer cents. */
module AdminOrders {
  import opened Common

  datatype OrderStatus = Pending | Preparing | Delivering | Done | Cancelled

  datatype OrderItem = OrderItem(id: string, quantity: int, unitPrice: int, description: string)

  datatype OrderClient = OrderClient(name: string, email: string)

  datatype AdminOrder = AdminOrder(id: string, status: OrderStatus, paymentMethod: string,
                                   createdAt: string, client: OrderClient, orderItems: seq<OrderItem>)

  /** The options of the status selector, in display order. */
  const PossibleStatuses: seq<OrderStatus> := [Pending, Preparing, Delivering, Done, Cancelled]

  const StatusUpdated := "Status do pedido atualizado!"
  const StatusUpdateFailed := "Não foi possível atualizar o status."

  /** The selector offers every status, each exactly once. */
  lemma {:induction false} StatusesListed()
    ensures |PossibleStatuses| == 5
    ensures forall st: OrderStatus :: st in PossibleStatuses
    ensures forall i, j :: 0 <= i < j < |PossibleStatuses| ==> PossibleStatuses[i] != PossibleStatuses[j]
  {
    forall st: OrderStatus ensures st in PossibleStatuses {
      match st
      case Pending => assert PossibleStatuses[0] == st;
      case Preparing => assert PossibleStatuses[1] == st;
      case Delivering => assert PossibleStatuses[2] == st;
      case Done => assert PossibleStatuses[3] == st;
      case Cancelled => assert PossibleStatuses[4] == st;
    }
  }

  /** `orders.map(o => o.id === orderId ? {...o, status} : o)` */
  function WithStatus(orders: seq<AdminOrder>, orderId: string, status: OrderStatus): (r: seq<AdminOrder>)
    ensures |r| == |orders|
    ensures forall k :: 0 <= k < |orders| && orders[k].id == orderId ==> r[k] == orders[k].(status := status)
    ensures forall k :: 0 <= k < |orders| && orders[k].id != orderId ==> r[k] == orders[k]
  {
    seq(|orders|, k requires 0 <= k < |orders| =>
      if orders[k].id == orderId then orders[k].(status := status) else orders[k])
  }

  /** `orderItems.reduce((total, item) => total + unitPrice * quantity, 0)` */
  function OrderTotal(lines: seq<OrderItem>): int {
    if lines == [] then 0
    else OrderTotal(lines[..|lines| - 1]) + lines[|lines| - 1].unitPrice * lines[|lines| - 1].quantity
  }

  /** `handleStatusChange`: the PATCH it sends, the new list and the notice.
      A failure leaves the list as it was. */
  function StatusChange(orders: seq<AdminOrder>, orderId: string, status: OrderStatus,
                        response: Response<()>): (Request<OrderStatus>, seq<AdminOrder>, Toast)
  {
    var request := Patch("/orders/" + orderId + "/status", status);
    match response
    case Ok(_) => (request, WithStatus(orders, orderId, status), SuccessToast(StatusUpdated))
    case Failed(_) => (request, orders, ErrorToast(StatusUpdateFailed))
  }

  // ---------------------------------------------------------------------

  /** A successful change sets the status of exactly the orders with that
      id; every other order, and the length and order of the list, stay. */
  lemma StatusChangeSucceeds(orders: seq<AdminOrder>, orderId: string, status: OrderStatus)
    ensures var r := StatusChange(orders, orderId, status, Ok(())).1;
      && |r| == |orders|
      && (forall k :: 0 <= k < |orders| && orders[k].id == orderId ==> r[k] == orders[k].(status := status))
      && (forall k :: 0 <= k < |orders| && orders[k].id != orderId ==> r[k] == orders[k])
  {
  }

  /** Applying the same change twice gives the list applying it once does. */
  lemma StatusChangeIdempotent(orders: seq<AdminOrder>, orderId: string, status: OrderStatus)
    ensures WithStatus(WithStatus(orders, orderId, status), orderId, status) == WithStatus(orders, orderId, status)
  {
  }

  /** A failed change leaves the list untouched. */
  lemma StatusChangeFails(orders: seq<AdminOrder>, orderId: string, status: OrderStatus, e: ApiError)
    ensures StatusChange(orders, orderId, status, Failed(e)).1 == orders
    ensures StatusChange(orders, orderId, status, Failed(e)).2 == ErrorToast(StatusUpdateFailed)
  {
  }

  /** An order's total adds up over its lines: no lines cost nothing, and
      the total of a concatenation is the sum of the totals. */
  lemma {:induction false} OrderTotalConcat(a: seq<OrderItem>, b: seq<OrderItem>)
    ensures OrderTotal([]) == 0
    ensures OrderTotal(a + b) == OrderTotal(a) + OrderTotal(b)
  {
    if b == [] {
      assert a + b == a;
    } else {
      var n := |b|;
      assert (a + b)[..|a + b| - 1] == a + b[..n - 1];
      assert (a + b)[|a + b| - 1] == b[n - 1];
      OrderTotalConcat(a, b[..n - 1]);
    }
  }

  /** A status change never alters what an order costs. */
  lemma StatusChangeKeepsTotals(orders: seq<AdminOrder>, orderId: string, status: OrderStatus, k: nat)
    requires k < |orders|
    ensures OrderTotal(WithStatus(orders, orderId, status)[k].orderItems) == OrderTotal(orders[k].orderItems)
  {
  }

  // ---------------------------------------------------------------------

  class AdminOrdersPage {
    var orders: seq<AdminOrder>

    constructor ()
      ensures orders == []
    {
      orders := [];
    }

    method FetchOrders(response: Response<seq<AdminOrder>>)
      modifies this
      ensures orders == if response.Ok? then response.data else old(orders)
    {
      if response.Ok? {
        orders := response.data;
      }
    }

    method HandleStatusChange(orderId: string, status: OrderStatus, response: Response<()>)
      returns (request: Request<OrderStatus>, toast: Toast)
      modifies this
      ensures (request, orders, toast) == StatusChange(old(orders), orderId, status, response)
    {
      request := Patch("/orders/" + orderId + "/status", status);
      if response.Ok? {
        toast := SuccessToast(StatusUpdated);
        orders := WithStatus(orders, orderId, status);
      } else {
        toast := ErrorToast(StatusUpdateFailed);
      }
    }
  }
}
