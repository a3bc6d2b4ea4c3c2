/**
 * The admin order list (src/app/admin/orders/page.tsx): it shows the
 * enriched orders the order endpoint returns and lets the admin pick a new
 * status for one order, updating that row once the server accepts it.
 */
module AdminOrdersPage {
  import opened Wrappers
  import opened Types
  import opened Http
  import opened JsStrings
  import opened AdminOrdersRoute

  /** The statuses the row's select offers, in the order listed. */
  const StatusOptions := ["processing", "shipped", "delivered", "cancelled"]

  /** The select offers exactly the spellings of the order statuses. */
  lemma StatusOptionsAreOrderStatuses(s: string)
    ensures s in StatusOptions <==> exists st: OrderStatus :: st.Spelling() == s
  {
    if s in StatusOptions {
      if s == "processing" { assert Processing.Spelling() == s; }
      else if s == "shipped" { assert Shipped.Spelling() == s; }
      else if s == "delivered" { assert Delivered.Spelling() == s; }
      else { assert Cancelled.Spelling() == s; }
    }
  }

  /** The orders carried by the listed rows. */
  function OrdersOf(rows: seq<EnrichedOrder>): (orders: seq<Order>)
    ensures |orders| == |rows|
    ensures forall i :: 0 <= i < |rows| ==> orders[i] == rows[i].order
  {
    if rows == [] then [] else OrdersOf(rows[..|rows| - 1]) + [rows[|rows| - 1].order]
  }

  /** `orders.map(o => o.id === orderId ? { ...o, order_status: newStatus } : o)` */
  function Restatus(rows: seq<EnrichedOrder>, id: string, status: string): (r: seq<EnrichedOrder>)
    ensures |r| == |rows|
    ensures forall i :: 0 <= i < |rows| && rows[i].order.id == id ==>
      r[i] == rows[i].(order := rows[i].order.(order_status := status))
    ensures forall i :: 0 <= i < |rows| && rows[i].order.id != id ==> r[i] == rows[i]
  {
    if rows == [] then []
    else
      var row := rows[|rows| - 1];
      Restatus(rows[..|rows| - 1], id, status)
        + [if row.order.id == id then row.(order := row.order.(order_status := status)) else row]
  }

  /**
   * The row update the page makes agrees with the update the order endpoint
   * makes to the table: the orders shown are the table's orders after `PUT`,
   * and the customer columns are untouched.
   */
  lemma RestatusMatchesServer(rows: seq<EnrichedOrder>, id: string, status: string)
    ensures OrdersOf(Restatus(rows, id, status)) == SetStatus(OrdersOf(rows), id, status)
    ensures forall i :: 0 <= i < |rows| ==>
      && Restatus(rows, id, status)[i].customer_name == rows[i].customer_name
      && Restatus(rows, id, status)[i].customer_email == rows[i].customer_email
      && Restatus(rows, id, status)[i].customer_phone == rows[i].customer_phone
  {
    var lhs := OrdersOf(Restatus(rows, id, status));
    var rhs := SetStatus(OrdersOf(rows), id, status);
    assert forall i :: 0 <= i < |rows| ==> lhs[i] == rhs[i];
  }

  /** The page's state. */
  class OrdersAdmin {
    var orders: seq<EnrichedOrder>
    var loading: bool
    /** The id of the order whose status change is in flight, if any. */
    var updating: Option<string>
    /** The messages shown with `alert`, oldest first. */
    var alerts: seq<string>

    constructor ()
      ensures orders == [] && loading && updating == None && alerts == []
    {
      orders, loading, updating, alerts := [], true, None, [];
    }

    /** `fetchOrders`: rows in the reply replace the list, anything else keeps it; loading ends either way. */
    method FetchOrders(result: Fetch<Option<seq<EnrichedOrder>>>)
      modifies this
      ensures result.Loaded? && result.value.Some? ==> orders == result.value.value
      ensures !(result.Loaded? && result.value.Some?) ==> orders == old(orders)
      ensures !loading && updating == old(updating) && alerts == old(alerts)
    {
      if result.Loaded? && result.value.Some? {
        orders := result.value.value;
      }
      loading := false;
    }

    /** The start of `handleStatusChange`: that order's select is disabled. */
    method StartStatusChange(id: string)
      modifies this
      ensures updating == Some(id)
      ensures orders == old(orders) && loading == old(loading) && alerts == old(alerts)
    {
      updating := Some(id);
    }

    /**
     * The end of `handleStatusChange` once the server answered: an accepted
     * change sets that order's status in the list, a refused one keeps the
     * list and alerts the error; no order is busy afterwards.
     */
    method FinishStatusChange(id: string, status: string, answer: Answer)
      modifies this
      ensures answer.ok ==> orders == Restatus(old(orders), id, status) && alerts == old(alerts)
      ensures !answer.ok ==> orders == old(orders)
      ensures !answer.ok ==> alerts == old(alerts) + ["Failed to update status: " + OrDefault(answer.error, "Failed to update status")]
      ensures updating == None && loading == old(loading)
    {
      if answer.ok {
        orders := Restatus(orders, id, status);
      } else {
        alerts := alerts + ["Failed to update status: " + OrDefault(answer.error, "Failed to update status")];
      }
      updating := None;
    }

    /** `handleStatusChange(id, status)` from start to end. */
    method HandleStatusChange(id: string, status: string, answer: Answer)
      modifies this
      ensures answer.ok ==> orders == Restatus(old(orders), id, status) && alerts == old(alerts)
      ensures answer.ok ==> OrdersOf(orders) == SetStatus(OrdersOf(old(orders)), id, status)
      ensures !answer.ok ==> orders == old(orders)
      ensures !answer.ok ==> alerts == old(alerts) + ["Failed to update status: " + OrDefault(answer.error, "Failed to update status")]
      ensures updating == None && loading == old(loading)
    {
      StartStatusChange(id);
      FinishStatusChange(id, status, answer);
      if answer.ok {
        RestatusMatchesServer(old(orders), id, status);
      }
    }
  }
}
