# POS-APP state container in Dafny

This project models the state container behind the point-of-sale screens of POS-APP.
That container holds the cashier session gate, the cart, the ledger of placed orders and the catalog filter.
The repository has two copies of it:

- `context/POSContext.tsx` is the live provider. It is modelled as the class `PosContext.POSProvider`.
- `hooks/use-pos.ts` is an older hook. It is modelled as the class `UsePos.PosHook`.
  It differs in two ways: a placed order starts as `Completed` rather than `Pending`, and it has no `updateOrderStatus`.

Each state field of the source is a field of the class: `isSessionActive`, `cashierName`, `orderId`, `selectedCat`, `searchQuery`, `orderType`, `cart` and `orders`.
Each action is a method with a `modifies this` frame.
Each method's postcondition gives the complete new state as an update of the old one, through the ghost function `State()`.
The class invariant `Valid()` says two things:
- the cart has no two lines with the same id, and every quantity is at least 1;
- an active session has a six-digit ticket number.

Every action preserves the invariant.
The derived values `filteredProducts` and `summary` are functions of the current fields.

The transformations inside the actions are pure functions over sequences. The two copies share these functions because the code in both files is the same:
- `Cart.AddToCart`, `Cart.UpdateQty` and `Cart.Summarize` in `cart.dfy`;
- `Ledger.NewOrder` and `Ledger.SetStatus` in `ledger.dfy`;
- `Catalog.FilterProducts` in `catalog.dfy`.

The lemmas beside each function state what it means.
Other modules:
- `text.dfy`: `trim`, ASCII `toLowerCase` and `includes`.
- `ticket.dfy`: drawing and printing the six-digit ticket number.
- `menu.dfy`: the 20-product menu, used as a concrete catalog.

Money is exact `real`, and quantities are unbounded `int`.
`Math.random()` becomes a parameter `random` with `0 <= random < 1`, which is what `Math.random` guarantees.
The order date becomes a parameter `now`.
An alert that refuses an action becomes a returned `ok == false` with the state unchanged.

## Model

| member | source | states |
|---|---|---|
| `Text.TrimStartSuffix` | context/POSContext.tsx:45 | the result is a suffix of the input, everything dropped is white space, and it does not start with white space |
| `Text.TrimEndPrefix` | context/POSContext.tsx:45 | the result is a prefix of the input, everything dropped is white space, and it does not end with white space |
| `Text.BlankIffAllSpace` | context/POSContext.tsx:45 | a name is blank after trimming exactly when every character of it is white space |
| `Text.IncludesIff` | context/POSContext.tsx:113-115 | `includes` holds exactly when the query occurs at some index of the text |
| `Text.LowerHasNoUpper` | context/POSContext.tsx:113-115 | lower-casing keeps the length and leaves no upper-case ASCII letter |
| `Text.LowerIdempotent` | context/POSContext.tsx:113-115 | lower-casing twice equals lower-casing once |
| `Ticket.DrawTicket` | context/POSContext.tsx:49 | the floor of 100000 + random·900000 lies in [100000, 999999] for every random value in [0, 1) |
| `Ticket.NatToString` | context/POSContext.tsx:49 | printing a number gives at least one character, all decimal digits, with a leading '0' only for zero |
| `Ticket.ParseNatToString` | context/POSContext.tsx:49 | reading a printed number back gives the number |
| `Ticket.NatToStringLength` | context/POSContext.tsx:49 | a number between 10^(k-1) and 10^k - 1 prints as exactly k characters |
| `Ticket.NewOrderId` | context/POSContext.tsx:98 | a new order id is six decimal digits, not starting with 0, and denotes an integer in [100000, 999999] |
| `Cart.Find` | context/POSContext.tsx:55 | the lookup finds a line exactly when some line has the id, and any line it returns has that id and is in the cart |
| `Cart.KeepPositive` | context/POSContext.tsx:76 | the filter never lengthens the cart |
| `Cart.KeepPositiveAppend` | context/POSContext.tsx:76 | filtering two carts laid end to end filters each of them |
| `Cart.KeepPositiveIdentity` | context/POSContext.tsx:76 | a cart whose quantities are all positive passes the filter unchanged |
| `Cart.FindUnique` | context/POSContext.tsx:55 | on a cart with unique ids, the lookup returns exactly the line at the index carrying the id |
| `Cart.BumpQtyAt` | context/POSContext.tsx:57-61 | on a cart with unique ids, the `map` changes only the line with the id, adding delta to its quantity |
| `Cart.KeepPositiveAround` | context/POSContext.tsx:76 | between lines of positive quantity, the filter keeps or drops the one middle line according to its quantity and leaves the rest in order |
| `Cart.AddToCartEffect` | context/POSContext.tsx:53-64 | on a valid cart, an existing id gives exactly that line one more unit and leaves the length and every other line alone; a new id appends the product with quantity 1 after the earlier lines |
| `Cart.AddToCartKeepsValid` | context/POSContext.tsx:53-64 | adding a product keeps ids unique and every quantity at least 1 |
| `Cart.UpdateQtyUnknownId` | context/POSContext.tsx:67-78 | with an id not in a valid cart, the cart is unchanged |
| `Cart.UpdateQtyAt` | context/POSContext.tsx:67-78 | on a valid cart, the matching line takes quantity + delta if that is positive and is removed otherwise; the other lines keep their values and order |
| `Cart.UpdateQtyKeepsValid` | context/POSContext.tsx:67-78 | any id and any integer delta keep ids unique and every quantity at least 1 |
| `Cart.SubTotalConcat` | context/POSContext.tsx:121-124 | the subtotal of two carts laid end to end is the sum of their subtotals |
| `Cart.SubTotalNonNegative` | context/POSContext.tsx:121-124 | with non-negative prices and quantities the subtotal is not negative |
| `Cart.SummaryBounds` | context/POSContext.tsx:120-128 | with non-negative prices on a valid cart: 0 <= subTotal <= total, tax = subTotal / 10 and total = subTotal + tax |
| `Cart.AddToCartSubTotal` | context/POSContext.tsx:53-64 | adding a product to a valid cart raises the subtotal by one unit price: the stored price of the existing line, or the product's price for a new line |
| `Cart.SubTotalWithout` | context/POSContext.tsx:121-124 | removing the line at an index takes exactly that line's amount off the subtotal |
| `Cart.UpdateQtySubTotal` | context/POSContext.tsx:67-78 | changing a line's quantity changes the subtotal by the line's new amount (zero if removed) minus its old amount |
| `Ledger.SetStatusEffect` | context/POSContext.tsx:102-108 | the ledger keeps its length; every order with the id gets the new status and keeps all other fields; every other order is unchanged |
| `Ledger.SetStatusUnknownId` | context/POSContext.tsx:102-108 | with an id no order carries, the ledger is unchanged |
| `Ledger.SetStatusLastWins` | context/POSContext.tsx:102-108 | of two updates of one id the later overwrites the earlier, whatever the status order |
| `Catalog.FilterProducts` | context/POSContext.tsx:110-118 | every result product is in the catalog and matches the category ('all' or equal) and the case-insensitive search; every catalog product that matches both is in the result |
| `Catalog.FilterIsSubsequence` | context/POSContext.tsx:110-118 | the result is a subsequence of the catalog, in catalog order |
| `Catalog.FilterShowsAll` | context/POSContext.tsx:112-115 | category 'all' with an empty search returns the whole catalog |
| `Catalog.FilterIgnoresQueryCase` | context/POSContext.tsx:113-115 | lower-casing the query does not change the result |
| `Catalog.FilterConcat` | context/POSContext.tsx:111 | filtering two catalogs laid end to end filters each one |
| `Menu.MenuWellFormed` | constants/menuData.ts:12-162 | the menu has 20 products with pairwise distinct ids and positive prices |
| `Menu.CoffeeCategory` | constants/menuData.ts:13-41 | category 'coffee' with an empty search shows exactly the coffee section, in order |
| `Menu.SearchMuffin` | constants/menuData.ts:43-71 | category 'bakery' with search "MUF" shows only the Choco Muffin |
| `PosContext.POSProvider.constructor` | context/POSContext.tsx:35-42 | the initial state: inactive session, empty name and id, category 'all', empty search, 'Dine In', empty cart and ledger |
| `PosContext.POSProvider.FilteredProducts` | context/POSContext.tsx:110-118 | a product is shown exactly when it is on the menu and matches the current category and search; the shown list keeps menu order |
| `PosContext.POSProvider.Summary` | context/POSContext.tsx:120-128 | tax is a tenth of the subtotal and total is subtotal + tax; with non-negative prices, 0 <= subTotal <= total |
| `PosContext.POSProvider.SetCashierName` | context/POSContext.tsx:36 | only the cashier name changes |
| `PosContext.POSProvider.SetSelectedCat` | context/POSContext.tsx:38 | only the selected category changes |
| `PosContext.POSProvider.SetSearchQuery` | context/POSContext.tsx:39 | only the search query changes |
| `PosContext.POSProvider.SetOrderType` | context/POSContext.tsx:40 | only the order type changes |
| `PosContext.POSProvider.StartSession` | context/POSContext.tsx:44-51 | refused, with no change, when the name is all white space; otherwise the session is active and the order id is a new ticket number in [100000, 999999]; nothing else changes |
| `PosContext.POSProvider.AddToCart` | context/POSContext.tsx:53-65 | only the cart changes, to the result of adding the product; the invariant is kept and placed orders are untouched |
| `PosContext.POSProvider.UpdateQty` | context/POSContext.tsx:67-78 | only the cart changes, to the result of the quantity update; the invariant is kept |
| `PosContext.POSProvider.PlaceOrder` | context/POSContext.tsx:80-100 | refused, with no change, on an empty cart; otherwise one Pending order is put at the front of the ledger with the old id, the cashier, the order type, the cart and its summary; the old ledger is the tail, the cart is emptied and a new ticket number is drawn |
| `PosContext.POSProvider.UpdateOrderStatus` | context/POSContext.tsx:102-108 | only the ledger changes, by overwriting the status of the orders with the id; its length is kept, and an unknown id changes nothing |
| `UsePos.PosHook.constructor` | hooks/use-pos.ts:8-19 | the same initial state as the provider |
| `UsePos.PosHook.FilteredProducts` | hooks/use-pos.ts:97-103 | a product is shown exactly when it is on the menu and matches the current category and search, in menu order |
| `UsePos.PosHook.Summary` | hooks/use-pos.ts:22-27 | tax is a tenth of the subtotal and total is subtotal + tax; with non-negative prices, 0 <= subTotal <= total |
| `UsePos.PosHook.SetCashierName` | hooks/use-pos.ts:9 | only the cashier name changes |
| `UsePos.PosHook.SetSelectedCat` | hooks/use-pos.ts:18 | only the selected category changes |
| `UsePos.PosHook.SetSearchQuery` | hooks/use-pos.ts:19 | only the search query changes |
| `UsePos.PosHook.SetOrderType` | hooks/use-pos.ts:13 | only the order type changes |
| `UsePos.PosHook.StartSession` | hooks/use-pos.ts:30-37 | refused, with no change, on an all-white-space name; otherwise the session is active with a new ticket number in [100000, 999999] |
| `UsePos.PosHook.AddToCart` | hooks/use-pos.ts:39-49 | only the cart changes, to the result of adding the product; the invariant is kept |
| `UsePos.PosHook.UpdateQty` | hooks/use-pos.ts:51-62 | only the cart changes, to the result of the quantity update; the invariant is kept |
| `UsePos.PosHook.PlaceOrder` | hooks/use-pos.ts:65-95 | refused, with no change, on an empty cart; otherwise one Completed order holding the cart and its summary goes to the front, the ledger grows by one, the cart is emptied and a new ticket number is drawn |
| `UsePos.PlaceThenEdit` | hooks/use-pos.ts:77 | after an order is placed, later `addToCart` and `updateQty` calls leave its items equal to the cart it was placed from |

## Left out

- Alerts and console logging are I/O. A refused action returns `ok == false` and changes nothing.
- Randomness and the clock are not modelled. `Math.random()` is the parameter `random` in [0, 1), and `new Date()` is the parameter `now`.
- Floating-point arithmetic and `toFixed(2)` display rounding are not modelled: money is exact `real`, so a summary computed in doubles may differ in the last bits.
- `toLowerCase` only folds the ASCII letters A-Z. Unicode case mapping is not modelled.
- `trim` removes exactly the JavaScript white-space and line-terminator code points, listed in `Text.IsSpace`.
- Order ids may collide, and nothing assumes they are unique. `Ledger.SetStatusEffect` shows that an update then changes every order with that id.
- `updateOrderStatus` overwrites the status unconditionally, so a status can go backwards. The model does not add a forward-only rule.
- The optional `stock` field of `Product` is unused by the core and is not modelled.
- React machinery is not modelled: `useMemo` caching, batching of `useState` updates, and the `usePOS` lookup that throws outside a provider. Derived values are functions of the current fields.
- The screens, the session modal, the cart sidebar, the width guard, navigation and `SettingsContext.tsx` only render state or call the actions; they are not part of this model. The sidebar only calls `updateQty` with +1 and -1, but the model allows any integer delta, as the core does.
- The hook copy has no `updateOrderStatus`, so `UsePos.PosHook` has no such method.
