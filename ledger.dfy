/** The order ledger: snapshots of the cart, newest first, whose status alone can change. */
module Ledger {
  import opened PosTypes
  import opened Cart

  /** The order `placeOrder` builds from the current cart and its summary. */
  function NewOrder(id: string, date: Timestamp, cashier: string, orderType: string,
                    cart: seq<CartItem>, status: OrderStatus): Order
  {
    var s := Summarize(cart);
    Order(id, date, cashier, orderType, cart, s.subTotal, s.tax, s.total, status)
  }

  ghost predicate HasOrder(orders: seq<Order>, id: string)
  {
    exists i :: 0 <= i < |orders| && orders[i].id == id
  }

  /** The `map` of `updateOrderStatus`: every order with the id takes the new status. */
  function SetStatus(orders: seq<Order>, id: string, status: OrderStatus): seq<Order>
  {
    seq(|orders|, i requires 0 <= i < |orders| =>
      if orders[i].id == id then orders[i].(status := status) else orders[i])
  }

  /**
   * `updateOrderStatus`: the ledger keeps its length and order; every order with the id gets
   * the new status and keeps every other field; every other order is untouched.
   */
  lemma SetStatusEffect(orders: seq<Order>, id: string, status: OrderStatus)
    ensures var r := SetStatus(orders, id, status);
      && |r| == |orders|
      && (forall i :: 0 <= i < |r| && orders[i].id == id ==>
            r[i].status == status && r[i].(status := orders[i].status) == orders[i])
      && (forall i :: 0 <= i < |r| && orders[i].id != id ==> r[i] == orders[i])
  {
  }

  /** `updateOrderStatus` with an id that no order carries changes nothing. */
  lemma SetStatusUnknownId(orders: seq<Order>, id: string, status: OrderStatus)
    requires !HasOrder(orders, id)
    ensures SetStatus(orders, id, status) == orders
  {
  }

  /** The later of two status updates of the same id wins: no history is kept. */
  lemma SetStatusLastWins(orders: seq<Order>, id: string, s1: OrderStatus, s2: OrderStatus)
    ensures SetStatus(SetStatus(orders, id, s1), id, s2) == SetStatus(orders, id, s2)
  {
  }
}
