# miniStore order lifecycle and tills, in Dafny

A model of the sequential core of the miniStore point-of-sale application:

- **The order facade `F_Order`** (module `Orders`, class `OrderFacade`). It holds two things.
  - A store of pending orders: placed but unpaid baskets, keyed by order number. A new number is 1000 plus the number of orders already held. Nothing is ever removed, so the keys are always exactly 1000 .. 1000 + size - 1 (`Numbered`). That is why a new number never overwrites an order.
  - A lazily bound handle to the remote order service. Every remote-backed call looks the service up only while the handle is null. On any failure it clears the handle and raises an `OrderException` whose message starts with `"Net: "`. A failed lookup gives `"Net: Com: "` and the lookup's message (`RemoteCall`).
- **The cashier till `CashierModel`** (module `Cashier`). A two-state machine, `Process` and `Checked`:
  - `doCheck` looks a product up;
  - `doBuy` buys it into a basket that is created lazily with a number from the order service;
  - `doBought` hands the basket to the order service.

  The session total, in pence, always equals the sum of price times quantity over everything bought in the session (ghost `sold`, kept by `Valid`). The current basket holds exactly the purchases made since it was opened.
- **The customer client `CustomerModel`** (module `Customer`). It checks one product at a time into its basket, places the basket as a pending order, and recalls a pending order by number.

Baskets are heap objects (`Catalogue.Basket`), as in the source:
- The facade files the caller's basket object under its number.
- A recall makes that same object the customer's current basket.
- So the customer's next `doCheck`, which clears the basket, empties the stored pending order too. `Customer.RecallThenCheckEmptiesStoredOrder` proves this.

Collaborators are not part of the model: the stock service, the remote order service and the RMI name lookup.
- The outcome of each call on them is a parameter of the operation: `Middle.Reply`, a returned value or an exception with its message.
- Ghost logs (`stockCalls`, `orderCalls`, `wire`) record which calls were made and with what. This is what lets the contracts say that a call was, or was not, made.
- Money is integer pence.
- An operation either notifies observers with an action message or lets an exception escape (`Middle.Event`).

Two hazards in the source appear as explicit outcomes:
- **`doBuy` with no basket.** If `uniqueNumber` fails while opening a basket, the basket stays null. `theBasket.add` then throws a `NullPointerException` that escapes `doBuy`. By then the stock has already been bought, and the till is still `Checked` (`Escaped(NullPointerException)`).
- **`recallOrder` with a non-numeric number.** `Integer.parseInt` throws a `NumberFormatException` that nothing catches (`Escaped(NumberFormatException(...))`).

Points of the source's behaviour that the model keeps as written:
- `doBought` drops the basket even when `newOrder` fails (clients/cashier/CashierModel.java:111), so a failed settlement cannot be retried with the same basket.
- On that failure `doBought` leaves the till's state as it was, because the state is set only on the success path (clients/cashier/CashierModel.java:102-103).
- `doBought` never adds to the session total; the line that would is commented out (clients/cashier/CashierModel.java:98), and the total grows only in `doBuy`.
- `getPendingOrder` only reads the store (middle/F_Order.java:97), so a recalled order stays pending and can be recalled again.
- A customer's basket keeps order number 0 (clients/customer/CustomerModel.java:44); its pending-order number is only the key it is stored under.

Besides `F_Order`, the `OrderProcessing` interface declares `OrderException` on `newPendingOrder` and `getPendingOrder`, but `F_Order` never raises it there. The customer operations take a `fault` parameter for an implementation that does: `Some(message)` means the call raised before reaching the store.

## Model

| member | source | states |
|---|---|---|
| `Orders.PlaceKeepsNumbering` | middle/F_Order.java:84-92 | placing an order on a numbered store uses a number not yet held, grows the store by exactly one, keeps it numbered, and leaves every earlier entry unchanged |
| `Orders.PlaceAllNumbers` | middle/F_Order.java:84-92 | successive placements hand out 1000 + size, 1000 + size + 1, ...; each number finds its own basket; the store stays numbered and earlier orders are untouched |
| `Orders.FreshStoreNumbers` | middle/F_Order.java:85-92 | on a fresh store the numbers handed out are exactly 1000, 1001, 1002, ... and 1000 + i holds the i-th basket |
| `Orders.RemoteCall` | middle/F_Order.java:36-80 | handle-slot rule: any failure leaves the handle null and a message starting "Net: "; success returns the service's value and keeps a bound handle; a bound handle causes no lookup; a failed lookup yields "Net: Com: " + its message |
| `Orders.OrderFacade.constructor` | middle/F_Order.java:27-34 | a new facade has a null handle, no pending orders and a numbered store |
| `Orders.OrderFacade.Connect` | middle/F_Order.java:36-50 | one lookup; the handle is bound on success, and on failure it is null and the error is "Com: " + the lookup's message |
| `Orders.OrderFacade.NewOrder` | middle/F_Order.java:53-66 | newOrder follows the handle-slot rule, forwarding the basket |
| `Orders.OrderFacade.UniqueNumber` | middle/F_Order.java:68-81 | uniqueNumber follows the handle-slot rule and returns the service's number |
| `Orders.OrderFacade.GetOrderToPack` | middle/F_Order.java:106-119 | getOrderToPack follows the handle-slot rule |
| `Orders.OrderFacade.InformOrderPacked` | middle/F_Order.java:127-140 | informOrderPacked follows the handle-slot rule, forwarding the order number |
| `Orders.OrderFacade.InformOrderCollected` | middle/F_Order.java:147-160 | informOrderCollected follows the handle-slot rule, forwarding the order number |
| `Orders.OrderFacade.GetOrderState` | middle/F_Order.java:166-179 | getOrderState follows the handle-slot rule |
| `Orders.OrderFacade.GenerateUniqueOrderNumber` | middle/F_Order.java:84-86 | the number is 1000 + size, held by no pending order and above every number held |
| `Orders.OrderFacade.NewPendingOrder` | middle/F_Order.java:89-93 | returns 1000 + the number of orders held before; the number was free; the store grows by one and stays numbered; getPendingOrder of it returns the very basket object passed in |
| `Orders.OrderFacade.GetPendingOrder` | middle/F_Order.java:96-98 | null exactly when the number is not held, which on a numbered store means outside 1000 .. 1000 + size - 1; otherwise the stored object; reads only |
| `Cashier.CashierModel.constructor` | clients/cashier/CashierModel.java:17-43 | a new till is in Process, with no product, no basket and a zero session total |
| `Cashier.CashierModel.GetSessionTotalSales` | clients/cashier/CashierModel.java:119-121 | the session total is the sum of price times quantity over every product bought in the session |
| `Cashier.CashierModel.SalesNonNegative` | clients/cashier/CashierModel.java:26-73 | with no negative price among the goods sold, the session total is not negative |
| `Cashier.CashierModel.MakeBasketIfReq` | clients/cashier/CashierModel.java:155-165 | uniqueNumber is asked only when there is no basket; an existing basket, and its order number, are kept; otherwise a fresh empty basket carries the number; when the service fails the basket stays null |
| `Cashier.CashierModel.DoCheck` | clients/cashier/CashierModel.java:128-153 | Checked exactly when the trimmed code exists with at least one on hand, and then the product is the current one with quantity 1; otherwise the state is Process and the message is "<desc> not in stock", "Unknown product number <code>" or the stock exception's message; getDetails is called only for a known code |
| `Cashier.CashierModel.DoBuy` | clients/cashier/CashierModel.java:55-88 | outside Checked: no stock call and nothing changes (an existing basket keeps its order number), message "please check its availablity". From Checked: exactly one buyStock of the product. If bought, the product is appended to the basket, the total grows by its price times quantity, the message is "Purchased <desc>". If not bought: "!!! Not in stock" or the exception's message, nothing else changes, and an existing basket keeps its order number. The state ends in Process, except in the null-basket escape. The total never decreases for a non-negative price |
| `Cashier.CashierModel.DoBought` | clients/cashier/CashierModel.java:90-113 | a non-empty basket goes to newOrder exactly once, an empty or absent one not at all; the basket is null afterwards in every case; the total is unchanged; success gives "Start New Order" and Process, failure gives the exception's message and the state as before |
| `Cashier.CheckAndBuy` | clients/cashier/CashierModel.java:65-75 | one check of an in-stock product followed by a buy adds exactly that product, with quantity 1, to the basket and to the session's sales |
| `Cashier.CheckBuyTwiceKeepsTwoLines` | clients/cashier/CashierModel.java:65-75 | checking and buying the same product twice gives two separate basket lines and twice its price in the total |
| `Customer.CustomerModel.constructor` | clients/customer/CustomerModel.java:33-45 | a new customer has a fresh empty basket and no picture |
| `Customer.CustomerModel.DoCheck` | clients/customer/CustomerModel.java:60-96 | the basket is emptied first and afterwards holds at most one line: exactly the product with quantity 1 when the trimmed code exists with stock on hand, none otherwise; the messages are "<desc> not in stock", "Unknown product number <code>", or "" when exists or getDetails raises; the picture changes only when getImage returns |
| `Customer.CustomerModel.DoClear` | clients/customer/CustomerModel.java:101-108 | the basket is empty, the picture is gone, the message is "Enter Product Number" |
| `Customer.CustomerModel.DoPlaceOrder` | clients/customer/CustomerModel.java:111-126 | a non-empty basket object is filed under the next order number, the current basket is a fresh empty one, and the message reports the number; an empty basket touches nothing ("Cannot place empty order."); a fault keeps the basket |
| `Customer.CustomerModel.AddOrder` | clients/customer/CustomerModel.java:146-161 | as doPlaceOrder, with "Order placed! Order Number: <n>" and "Basket is empty. Add items first." |
| `Customer.CustomerModel.RecallOrder` | clients/customer/CustomerModel.java:128-143 | an unparsable number escapes as NumberFormatException; a held number makes the stored basket object the current basket, with "Order <n> loaded."; an unknown one leaves the basket, with "Order not found."; the store is not changed |
| `Customer.RecallThenCheckEmptiesStoredOrder` | middle/F_Order.java:89-98 | place, recall, then check (CustomerModel.java:62, 132): the stored order 1000 first holds the placed line and is then empty, because store and customer share the basket |
| `Text.Trim` | clients/cashier/CashierModel.java:131 | String.trim: empty exactly for all-blank text, otherwise starts and ends with a non-blank |
| `Text.TrimSlice` | clients/customer/CustomerModel.java:64 | the trimmed text is a contiguous slice of the input with only blanks cut off either side |
| `Text.ParseIntCanonical` | clients/customer/CustomerModel.java:130 | when Integer.parseInt accepts a text, the text is a numeral whose digits give the value's magnitude, a negative value has a '-', and Integer.toString of the value is the text with any '+', leading zeros and the sign of zero removed |
| `Text.ParseIntText` | clients/customer/CustomerModel.java:130 | parsing the decimal text of any int gives it back |
| `Catalogue.TotalAppend` | clients/cashier/CashierModel.java:73 | the sum of line costs over two runs of purchases is the sum of their sums, so adding one line adds its price times quantity |

## Left out

- Cashier refund and cashier-side order recall: the cashier view calls `doRefund` and `doRecallOrder` (clients/cashier/CashierView.java:115-128), but CashierModel defines neither.
- `askForUpdate` in both clients only notifies observers ("Welcome", "START only"). `getBasket` and `getPicture` only return a field, which the model reads directly.
- Observer notification, `DEBUG` logging and images beyond their identity. The action message is the operation's result.
- The Swing views, button handling, the total-sales label and sound playback (utils/SoundPlayer.java). These are user interface and audio.
- The RMI lookup and the remote order service, and the stock service. They are foreign code, so each call's outcome is a parameter. This also means the model does not capture the stock actually decreasing on `buyStock`.
- `synchronized` and concurrent use of one facade by several clients. The model is single-threaded.
- Floating-point money and display rounding. Prices and totals are integer pence. The `%7.2f` listing is rendered from pence, so a price that is not a whole number of pence cannot be expressed.
- Failure to construct the stock and order objects in the client constructors. Java catches it and later dereferences null. The model assumes the objects exist.
- `Orders.NextOrderNumber`: 32-bit overflow of 1000 + size is not modelled, because it needs over two thousand million pending orders.
- `Text.ParseInt`: the Unicode digits outside ASCII that Java's `Integer.parseInt` also accepts are not modelled.
- Products are values, not objects. The source mutates a product's quantity only before it is added to a basket, and the model assumes that `getDetails` returns a fresh product each time (the stock reader is not part of this model), so no aliasing of products is lost.
- `newPendingOrder(null)` and null entries in the store. No caller passes null.
- catalogue/Product.java, catalogue/Basket.java and the stock reader classes are not part of this model. `Product` and `Basket` are minimal stand-ins.
- `Customer.CustomerModel.SubmitPending`, `DoPlaceOrder`, `AddOrder` and `RecallOrder`: an `OrderException` from the pending-order calls is modelled as a `fault` parameter, because `F_Order` itself never raises one there.
