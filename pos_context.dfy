/**
 * The live POS provider: session gate, cart, order ledger and catalog filter held as mutable
 * fields, with the provider's actions as methods and its derived values as functions.
 */
module PosContext {
  import opened PosTypes
  import opened Text
  import Ticket
  import opened Cart
  import opened Ledger
  import Catalog
  import Menu

  class POSProvider {
    var isSessionActive: bool
    var cashierName: string
    var orderId: string
    var selectedCat: string
    var searchQuery: string
    var orderType: string
    var cart: seq<CartItem>
    var orders: seq<Order>

    /** The cart never holds two lines with one id or a line below quantity 1; an active session has a ticket number. */
    ghost predicate Valid()
      reads this
    {
      CartValid(cart) && (isSessionActive ==> Ticket.IsTicketId(orderId))
    }

    ghost function State(): PosState
      reads this
    {
      PosState(isSessionActive, cashierName, orderId, selectedCat, searchQuery, orderType, cart, orders)
    }

    /** The `useState` initial values. */
    constructor ()
      ensures Valid()
      ensures State() == PosState(false, "", "", Catalog.AllCategories, "", "Dine In", [], [])
    {
      isSessionActive := false;
      cashierName := "";
      orderId := "";
      selectedCat := Catalog.AllCategories;
      searchQuery := "";
      orderType := "Dine In";
      cart := [];
      orders := [];
    }

    /** `filteredProducts`: the menu products matching the selected category and the search. */
    function FilteredProducts(): (r: seq<Product>)
      reads this
      ensures forall p :: p in r <==> p in Menu.Products && Catalog.Visible(p, selectedCat, searchQuery)
      ensures Catalog.SubsequenceOf(r, Menu.Products)
    {
      Catalog.FilterIsSubsequence(Menu.Products, selectedCat, searchQuery);
      Catalog.FilterProducts(Menu.Products, selectedCat, searchQuery)
    }

    /** `summary`: the subtotal of the cart, a tenth of it as tax, and their sum. */
    function Summary(): (s: Summary)
      reads this
      ensures s.tax == s.subTotal / 10.0 && s.total == s.subTotal + s.tax
      ensures PricesNonNegative(cart) && Valid() ==> 0.0 <= s.subTotal <= s.total
    {
      var s := Summarize(cart);
      assert PricesNonNegative(cart) && Valid() ==> 0.0 <= s.subTotal <= s.total by {
        if PricesNonNegative(cart) && Valid() {
          SummaryBounds(cart);
        }
      }
      s
    }

    method SetCashierName(name: string)
      requires Valid()
      modifies this
      ensures Valid()
      ensures State() == old(State()).(cashierName := name)
    {
      cashierName := name;
    }

    method SetSelectedCat(cat: string)
      requires Valid()
      modifies this
      ensures Valid()
      ensures State() == old(State()).(selectedCat := cat)
    {
      selectedCat := cat;
    }

    method SetSearchQuery(query: string)
      requires Valid()
      modifies this
      ensures Valid()
      ensures State() == old(State()).(searchQuery := query)
    {
      searchQuery := query;
    }

    method SetOrderType(t: string)
      requires Valid()
      modifies this
      ensures Valid()
      ensures State() == old(State()).(orderType := t)
    {
      orderType := t;
    }

    /**
     * `startSession`: refused (nothing changes) when the cashier name is blank after trimming;
     * otherwise the session is active and a fresh six-digit ticket number is drawn.
     * `random` is the value of `Math.random()`.
     */
    method StartSession(random: real) returns (ok: bool)
      requires Valid()
      requires 0.0 <= random < 1.0
      modifies this
      ensures Valid()
      ensures ok <==> !AllSpace(cashierName)
      ensures !ok ==> State() == old(State())
      ensures ok ==> State() == old(State()).(isSessionActive := true, orderId := Ticket.NewOrderId(random))
      ensures ok ==> Ticket.TicketMin <= Ticket.ParseDecimal(orderId) <= Ticket.TicketMax
    {
      BlankIffAllSpace(cashierName);
      if IsBlank(cashierName) {
        return false;
      }
      orderId := Ticket.NewOrderId(random);
      isSessionActive := true;
      return true;
    }

    /**
     * `addToCart`: one more of the line with the product's id, or the product appended with
     * quantity 1; the ledger, and so every placed order's items, stays as it was.
     */
    method AddToCart(p: Product)
      requires Valid()
      modifies this
      ensures Valid()
      ensures State() == old(State()).(cart := Cart.AddToCart(old(cart), p))
    {
      AddToCartKeepsValid(cart, p);
      cart := Cart.AddToCart(cart, p);
    }

    /** `updateQty`: adds `delta` to the matching line and drops it if the result is not positive. */
    method UpdateQty(id: string, delta: int)
      requires Valid()
      modifies this
      ensures Valid()
      ensures State() == old(State()).(cart := Cart.UpdateQty(old(cart), id, delta))
    {
      UpdateQtyKeepsValid(cart, id, delta);
      cart := Cart.UpdateQty(cart, id, delta);
    }

    /**
     * `placeOrder`: refused (nothing changes) on an empty cart; otherwise the cart becomes a
     * Pending order at the front of the ledger under the current ticket number, the cart is
     * emptied and a new ticket number is drawn. `now` is the clock, `random` is `Math.random()`.
     */
    method PlaceOrder(now: Timestamp, random: real) returns (ok: bool)
      requires Valid()
      requires 0.0 <= random < 1.0
      modifies this
      ensures Valid()
      ensures ok <==> old(cart) != []
      ensures !ok ==> State() == old(State())
      ensures ok ==> State() == old(State()).(
        orders := [NewOrder(old(orderId), now, cashierName, orderType, old(cart), Pending)] + old(orders),
        cart := [],
        orderId := Ticket.NewOrderId(random))
      ensures ok ==> |orders| == |old(orders)| + 1 && orders[1..] == old(orders)
      ensures ok ==> && orders[0].id == old(orderId) && orders[0].cashier == cashierName
                     && orders[0].orderType == orderType && orders[0].items == old(cart)
                     && orders[0].subTotal == SubTotal(old(cart))
                     && orders[0].tax == orders[0].subTotal / 10.0
                     && orders[0].total == orders[0].subTotal + orders[0].tax
                     && orders[0].status == Pending
      ensures ok ==> Ticket.IsTicketId(orderId) && Ticket.TicketMin <= Ticket.ParseDecimal(orderId) <= Ticket.TicketMax
    {
      if |cart| == 0 {
        return false;
      }
      var order := NewOrder(orderId, now, cashierName, orderType, cart, Pending);
      orders := [order] + orders;
      cart := [];
      orderId := Ticket.NewOrderId(random);
      return true;
    }

    /** `updateOrderStatus`: overwrites the status of every order with the id, whatever it was. */
    method UpdateOrderStatus(id: string, status: OrderStatus)
      requires Valid()
      modifies this
      ensures Valid()
      ensures State() == old(State()).(orders := SetStatus(old(orders), id, status))
      ensures |orders| == |old(orders)|
      ensures !HasOrder(old(orders), id) ==> orders == old(orders)
    {
      SetStatusEffect(orders, id, status);
      if !HasOrder(orders, id) {
        SetStatusUnknownId(orders, id, status);
      }
      orders := SetStatus(orders, id, status);
    }
  }
}
