/** The records shared by the cart, the order ledger and the catalog. */
module PosTypes {

  datatype Option<T> = None | Some(value: T)

  /** A catalog entry. Prices are exact reals (currency units). */
  datatype Product = Product(id: string, name: string, price: real, cat: string, img: string)

  /** A cart line: the product's fields spread out, plus a quantity. */
  datatype CartItem = CartItem(id: string, name: string, price: real, cat: string, img: string, qty: int)

  /** A product spread into a new cart line with the given quantity. */
  function LineOf(p: Product, qty: int): (line: CartItem)
  {
    CartItem(p.id, p.name, p.price, p.cat, p.img, qty)
  }

  /** The closed set of kitchen statuses. */
  datatype OrderStatus = Pending | Preparing | Ready | Completed

  /** The creation time of an order; the clock is outside the model. */
  type Timestamp = int

  /** A placed order: a frozen snapshot of the cart and its summary. */
  datatype Order = Order(
    id: string,
    date: Timestamp,
    cashier: string,
    orderType: string,
    items: seq<CartItem>,
    subTotal: real,
    tax: real,
    total: real,
    status: OrderStatus)

  /** The derived money breakdown of a cart. */
  datatype Summary = Summary(subTotal: real, tax: real, total: real)

  /** Every field of a POS state container at one moment. */
  datatype PosState = PosState(
    isSessionActive: bool,
    cashierName: string,
    orderId: string,
    selectedCat: string,
    searchQuery: string,
    orderType: string,
    cart: seq<CartItem>,
    orders: seq<Order>)
}
