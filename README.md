# Checkout saga of a microservice shop

A Dafny model of the parts of the shop that carry real logic:

- the order service's checkout pipeline (`POST /orders/checkout`);
- the inventory service's stock and product handlers that the checkout drives;
- the payment service's `/pay` reply;
- the order service's read endpoints (`get_orders`, `get_order`);
- the storefront's cart updaters.

The checkout runs in a fixed order:

1. Fetch the product catalog.
2. Check that every cart line names a known product, and add up the total.
3. Reserve each line's stock, in cart order.
4. Charge the total.
5. Store the order as `PAID` or `FAILED`.
6. For a paid order, store one item row per line.

Every failure after a granted reservation either gives the stock back with `release` calls or, in one case, does not (see below).

Modules:

- `Wrappers`: the `Option` and `Result` types.
- `PaymentService` (`payment.dfy`): `Pay`, the reply the order service gets from `/pay`. The processor's random approval is a parameter.
- `InventoryService` (`inventory.dfy`):
  - the products table as a `map` from id to row;
  - each handler as a function on tables (`Reserve`, `Release`, `Refill`, `UpdatePrice`, `Prices`);
  - class `ProductTable`, the live table, whose methods update it in place and are proved to agree with those functions.
- `OrderService` (`orders.dfy`):
  - `CheckoutSpec` states everything a checkout does as a function of its inputs and of the state before: its reply, the calls it sends to the inventory and payment services (in order), the products table afterwards, and the orders and order-items tables afterwards.
  - Class `OrderStore` holds the two tables. `OrderStore.Checkout` is the step-by-step pipeline, with the same loops as the handler, and is proved equal to `CheckoutSpec`. It runs on a live `ProductTable`.
  - `OrdersOf`, `FindOrder`, `ItemsOf` and `GetOrder` are the queries.
- `CheckoutProperties` (`checkout_properties.dfy`): what each checkout path does, proved about `CheckoutSpec`. Which calls and in which order, where the stock ends up, and what is stored.
- `OrderQueries` (`order_queries.dfy`): what the read endpoints show after a checkout.
- `Cart` (`cart.dfy`): the cart updaters as functions on the list of entries, with the total. Includes the proof that ids stay unique under any run of updates from the empty cart.

The environment enters as parameters:

- `catalog: Option<PriceList>`: the fetched catalog; `None` when the fetch failed.
- `lost: set<nat>`: the cart lines whose reserve reply never arrives.
- `reply: PayReply`: the payment reply; `Unreachable` when the call raised.
- `now`: the creation time.

A reserve call for a product missing from the live table is treated like a lost reply. The handler reads the missing row's stock and fails with a non-JSON error body, so the order service's `.json()` raises and the checkout answers 502.

New orders take the next auto-increment id, one more than the number of stored orders.

Money is integer cents throughout.

In four places the code does not do what a checkout saga (a multi-step operation that runs a compensating action for each completed step when a later step fails) would do. The model follows the code:

- An order is created only after the payment reply, never in a pending state. There is no refund flow and no refunded state.
- A reserve call that raises (timeout, crash, non-JSON reply) answers 502 without releasing the lines already reserved. `LostReserveKeepsEarlierReservations` states this: the earlier lines' stock stays withdrawn. A saga would release them, as the code does after a refusal or an unreachable payment service.
- A total that is not strictly positive (an empty cart, say) fails the payment request's validation. The reply then has no `status`, so the order is stored as `FAILED` (`PaidIffPositiveAndApproved`). The unknown-product check is the only validation of the cart.
- Quantities are not validated. A negative quantity passes the stock check and raises the stock.

## Model

| member | source | states |
|---|---|---|
| PaymentService.Pay | payment-microservice/main.py:12-58 | the reply always has a body; a `status` exactly when the amount is positive; `"success"` exactly when the amount is positive and the processor approves |
| InventoryService.AsProduct | inventory-microservice/main.py:59-63 | the row built from a creation request has the request's name, price and stock (also line 32) |
| InventoryService.Prices | inventory-microservice/main.py:24-26 | the catalog has exactly the table's ids, each at its row's price |
| InventoryService.Withdraw | inventory-microservice/main.py:86-88 | only the named product's stock drops by `qty`; the ids and every other row are unchanged |
| InventoryService.Deposit | inventory-microservice/main.py:100-103 | only the named product's stock rises by `qty`; the ids and every other row are unchanged |
| InventoryService.DepositUndoesWithdraw | inventory-microservice/main.py:83-106 | depositing what was withdrawn restores the table |
| InventoryService.Reserve | inventory-microservice/main.py:83-93 | refused exactly when the stock is below `qty`, and then nothing changes; otherwise the reply carries the price and the stock drops by `qty`, staying non-negative for a non-negative `qty` |
| InventoryService.Release | inventory-microservice/main.py:97-106 | 404 exactly for an unknown product; otherwise the stock rises by `qty` |
| InventoryService.Refill | inventory-microservice/main.py:71-81 | 404 exactly for an unknown product; otherwise the stock rises by `qty` and the reply is the updated row |
| InventoryService.UpdatePrice | inventory-microservice/main.py:38-48 | 404 exactly for an unknown product; otherwise only that row's price changes, and the reply is the updated row |
| InventoryService.ReleaseUndoesReserve | inventory-microservice/main.py:83-106 | a granted reservation followed by a release of the same quantity gives back the original table |
| InventoryService.ProductTable.UpdateProductPrice | inventory-microservice/main.py:38-48 | the live table changes exactly as `UpdatePrice` says, and the reply is its row or 404 |
| InventoryService.ProductTable.AddProduct | inventory-microservice/main.py:28-36 | inserts the request's row under the next unused id, and the next id advances by one |
| InventoryService.ProductTable.AddProductsBulk | inventory-microservice/main.py:50-68 | inserts one row per request under consecutive fresh ids in request order, replies with those rows in order, and leaves every existing row unchanged |
| InventoryService.ProductTable.RefillStock | inventory-microservice/main.py:71-81 | the live table changes exactly as `Refill` says |
| InventoryService.ProductTable.ReserveStock | inventory-microservice/main.py:83-93 | reply and new table are exactly those of `Reserve` |
| InventoryService.ProductTable.ReleaseStock | inventory-microservice/main.py:97-106 | the live table changes exactly as `Release` says, and the reply is success or 404 |
| OrderService.HttpStatus | order-microservice/main.py:33-95 | an unreachable inventory or payment service answers 502, an unknown product 404, a refused reservation 400 |
| OrderService.FirstUnknown | order-microservice/main.py:41-44 | none exactly when every line's product is in the catalog; otherwise the product of the first line that is not |
| OrderService.ReservePass | order-microservice/main.py:51-73 | the reservation loop either gets through every line or stops at a line index inside the cart |
| OrderService.StatusOf | order-microservice/main.py:97-98 | `PAID` exactly when the payment reply's `status` is `"success"`; a missing status counts as failed |
| OrderService.LineItems | order-microservice/main.py:133-143 | one row per cart line, in order, with the snapshot price and `price * qty` |
| OrderService.OrdersOf | order-microservice/main.py:160-162 | exactly the stored orders of that user |
| OrderService.FindOrder | order-microservice/main.py:166-168 | none exactly when no stored order has that id; otherwise the first stored order with that id |
| OrderService.ItemsOf | order-microservice/main.py:178-184 | exactly the views of the item rows of that order |
| OrderService.GetOrder | order-microservice/main.py:165-185 | 404 exactly when no stored order has that id; otherwise the first stored order with that id, with its own user, status, total and creation time, and its items |
| OrderService.ReleaseLines | order-microservice/main.py:65-69 | the release loop sends one release per line, in order, and raises each line's stock |
| OrderService.Total | order-microservice/main.py:40-46 | the running sum of price times quantity over the lines in order; `PriceLines` proves the validation loop computes it and `LineItemsAddUpToTotal` that the stored line totals add up to it |
| OrderService.PriceLines | order-microservice/main.py:40-46 | the validation loop finds the first unknown product, or the total of price times quantity |
| OrderService.ReserveLines | order-microservice/main.py:51-73 | the reservation loop's calls, stopping point and table are exactly those of `ReservePass` |
| OrderService.OrderStore.SaveLineItems | order-microservice/main.py:133-145 | for a stored order's id, appends exactly `LineItems` to the order-items table and keeps the tables well formed |
| OrderService.CheckoutSpec | order-microservice/main.py:27-151 | the whole effect of one checkout (reply, calls, products table, orders, items); `OrderStore.Checkout` is proved equal to it, and each path's properties are the `CheckoutProperties` and `OrderQueries` lemmas |
| OrderService.OrderStore.Checkout | order-microservice/main.py:27-151 | the reply, the calls sent, the products table and the order tables are exactly those of `CheckoutSpec`, and ids stay consecutive |
| CheckoutProperties.ReserveAllStock | order-microservice/main.py:53-73 | reserving a list of lines lowers each product's stock by the quantities its lines ask for, and nothing else |
| CheckoutProperties.ReleaseAllStock | order-microservice/main.py:89-93 | releasing a list of lines raises each product's stock by the quantities its lines ask for, and nothing else |
| CheckoutProperties.ReleaseUndoesReserveAll | order-microservice/main.py:53-95 | releasing every reserved line restores the products table |
| CheckoutProperties.PassShape | order-microservice/main.py:53-73 | a reservation pass reserves a prefix of the lines, issues one reserve per attempted line in order, and stops exactly at a refusal or a lost reply |
| CheckoutProperties.WholePassShape | order-microservice/main.py:53-73 | `PassShape` for the whole cart |
| CheckoutProperties.CatalogDownChangesNothing | order-microservice/main.py:33-36 | a failed catalog fetch answers 502 with no calls and no change |
| CheckoutProperties.UnknownProductRejectedUpFront | order-microservice/main.py:40-44 | a cart naming an unknown product answers 404, naming the first such product, with no calls and no change |
| CheckoutProperties.RefusalReleasesEarlierLines | order-microservice/main.py:53-71 | a refusal at line k answers 400 naming its product; the calls are the reserves of lines 0..k, then one release of each line before k; stock is restored and nothing is stored; the refusal was genuine |
| CheckoutProperties.LostReserveKeepsEarlierReservations | order-microservice/main.py:54-61 | a lost reserve reply at line k answers 502 with no release; the stock of the lines before k stays withdrawn; nothing is stored |
| CheckoutProperties.PaymentDownReleasesEverything | order-microservice/main.py:78-95 | an unreachable payment service: every line reserved, payment asked for the total, every line released; the stock is restored and nothing is stored |
| CheckoutProperties.StoredOrderFollowsPaymentReply | order-microservice/main.py:97-112 | a stored order comes after all reserves and the payment call; it takes the next id and the computed total, and is `PAID` exactly on `"success"` |
| CheckoutProperties.DeclinedPaymentReleasesEverything | order-microservice/main.py:117-128 | a declined payment stores one `FAILED` order and no items, releases every line once, and restores the stock |
| CheckoutProperties.LineItemsAddUpToTotal | order-microservice/main.py:133-143 | the stored line totals add up to the order total |
| CheckoutProperties.PaidCheckoutWritesItems | order-microservice/main.py:133-151 | a paid checkout stores the `PAID` order and one item row per line; the only calls are the reserves and the payment; the stock drops by exactly the requested quantities |
| CheckoutProperties.StockHeldOnlyForPaidOrders | order-microservice/main.py:53-151 | except after a lost reserve reply, the stock ends where it began, or the order is `PAID` and holds exactly the requested quantities |
| CheckoutProperties.FreshSnapshotNeverHitsMissingProduct | order-microservice/main.py:34-61 | with a catalog taken from the live table, the loop stops early only on a refusal or a lost reply |
| CheckoutProperties.PaidIffPositiveAndApproved | order-microservice/main.py:78-98 | against the payment service itself, a stored order is `PAID` exactly when the total is positive and the processor approves |
| OrderQueries.ItemsOfAppend | order-microservice/main.py:178-184 | item lookup distributes over appending rows |
| OrderQueries.ItemsOfOwnRows | order-microservice/main.py:178-184 | rows that all belong to one order read back as their views, in order |
| OrderQueries.LineItemsReadBack | order-microservice/main.py:133-184 | the rows a paid checkout writes read back as one view per line |
| OrderQueries.FindAppended | order-microservice/main.py:166-168 | an order appended under a fresh id is the one found under it |
| OrderQueries.FindBeforeAppended | order-microservice/main.py:166-168 | appending an order does not change what an existing id finds |
| OrderQueries.OrdersOfAppend | order-microservice/main.py:160-162 | a user's list grows by an appended order exactly when it is theirs |
| OrderQueries.NewOrderReadsBack | order-microservice/main.py:165-185 | an order stored under the next id reads back with exactly its own rows |
| OrderQueries.OldOrderReadsBack | order-microservice/main.py:165-185 | storing a new order and its rows does not change how an earlier order reads back |
| OrderQueries.CheckoutAppends | order-microservice/main.py:103-145 | a receipt means one order appended under the next id, followed by rows that belong to it; an error changes neither table |
| OrderQueries.CheckoutKeepsWellFormed | order-microservice/main.py:103-145 | a checkout keeps order ids consecutive and every item row attached to a stored order |
| OrderQueries.OrdersListedAfterCheckout | order-microservice/main.py:160-162 | after a checkout with a receipt, the user's list gains the new order at its end; no other list changes |
| OrderQueries.PaidOrderReadsBack | order-microservice/main.py:165-185 | a paid order reads back as `PAID` with the total, the time and one item per cart line at the snapshot price |
| OrderQueries.FailedOrderReadsBack | order-microservice/main.py:165-185 | a declined order reads back as `FAILED` with the total and no items |
| OrderQueries.EarlierOrdersUnchanged | order-microservice/main.py:165-185 | every order stored before a checkout reads back as it did |
| Cart.Bump | frontend/src/hooks/useCart.tsx:39-41 | same length and order; only the matching entries' quantities change, by `d` |
| Cart.Add | frontend/src/hooks/useCart.tsx:35-45 | an id already in the cart has its quantity raised in place; otherwise the item is appended |
| Cart.Remove | frontend/src/hooks/useCart.tsx:47-49 | keeps exactly the entries with another id |
| Cart.Increase | frontend/src/hooks/useCart.tsx:51-55 | the matching entries gain one, nothing else changes |
| Cart.Positive | frontend/src/hooks/useCart.tsx:63 | keeps exactly the entries with a positive quantity (their order: `PositiveAppend`) |
| Cart.Decrease | frontend/src/hooks/useCart.tsx:57-65 | every entry left has a positive quantity, and those are exactly the entries of the decremented cart with a positive quantity (their order: `DecreaseAppend`) |
| Cart.Clear | frontend/src/hooks/useCart.tsx:67-70 | the empty cart, whose total is zero |
| Cart.Total | frontend/src/hooks/useCart.tsx:72 | the `reduce` from zero over the entries in order; `TotalIsSum`, `TotalAppend` and `TotalOfAdd` state what it adds up to |
| Cart.TotalAppend | frontend/src/hooks/useCart.tsx:72 | the total of two carts laid end to end is the sum of their totals |
| Cart.TotalIsSum | frontend/src/hooks/useCart.tsx:72 | the left fold equals the plain sum of price times quantity |
| Cart.PriceOfUnique | frontend/src/hooks/useCart.tsx:37-41 | with unique ids, the price summed over one id's entries is that entry's price, or 0 with no such entry |
| Cart.TotalOfBump | frontend/src/hooks/useCart.tsx:39-41 | changing the matching entries' quantities by `d` moves the total by `d` times their prices |
| Cart.TotalOfAdd | frontend/src/hooks/useCart.tsx:35-45 | after `add`, the total grows by the quantity times the existing entry's price (not the item's), or times the item's price when it was appended |
| Cart.TotalOfIncrease | frontend/src/hooks/useCart.tsx:51-55 | after `increase`, the total grows by the entry's price, or stays the same with no such entry |
| Cart.RemoveAppend | frontend/src/hooks/useCart.tsx:47-49 | `remove` distributes over concatenation, so it keeps the order of what it keeps |
| Cart.PositiveAppend | frontend/src/hooks/useCart.tsx:63 | the non-positive filter distributes over concatenation, so it keeps the order of what it keeps |
| Cart.BumpAppend | frontend/src/hooks/useCart.tsx:59-62 | the quantity map distributes over concatenation |
| Cart.DecreaseAppend | frontend/src/hooks/useCart.tsx:57-65 | `decrease` distributes over concatenation, so the kept entries keep their original order |
| Cart.DecreaseOne | frontend/src/hooks/useCart.tsx:57-65 | on one entry, `decrease` keeps it one fewer when its id matches and the result is positive, keeps it unchanged when its id differs and it is positive, and drops it otherwise |
| Cart.RemoveAbsent | frontend/src/hooks/useCart.tsx:47-49 | removing an id not in the cart changes nothing |
| Cart.PositiveOfPositive | frontend/src/hooks/useCart.tsx:63 | a cart with only positive quantities passes the filter unchanged |
| Cart.DecreaseUndoesIncrease | frontend/src/hooks/useCart.tsx:51-65 | on a cart whose quantities are all positive, `decrease` after `increase` gives the cart back |
| Cart.RemoveKeepsUnique | frontend/src/hooks/useCart.tsx:47-49 | `remove` keeps ids unique |
| Cart.PositiveKeepsUnique | frontend/src/hooks/useCart.tsx:63 | the positive-quantity filter keeps ids unique |
| Cart.AddKeepsUnique | frontend/src/hooks/useCart.tsx:35-45 | `add` keeps ids unique |
| Cart.DecreaseKeepsUnique | frontend/src/hooks/useCart.tsx:57-65 | `decrease` keeps ids unique |
| Cart.Apply | frontend/src/hooks/useCart.tsx:35-70 | the cart after one updater call: each action is the matching updater; `ApplyKeepsUnique` states what every action keeps |
| Cart.Replay | frontend/src/hooks/useCart.tsx:23-70 | the cart after a run of updater calls applied in order, from the state holder's value; `ReplayKeepsUnique` and `CartIdsStayUnique` state what the run keeps |
| Cart.ApplyKeepsUnique | frontend/src/hooks/useCart.tsx:35-70 | every updater keeps ids unique |
| Cart.ReplayKeepsUnique | frontend/src/hooks/useCart.tsx:35-70 | any run of updates keeps ids unique |
| Cart.CartIdsStayUnique | frontend/src/hooks/useCart.tsx:23-70 | starting from the empty cart, no run of updates ever gives two entries the same id |

## Left out

- HTTP, JSON and timeouts: each service call is an argument of the model (`catalog`, `lost`, `reply`), not a request.
- A lost reserve reply always means the inventory did not apply that reservation. A reply lost after the inventory already took the stock off is not modelled.
- The `release` calls in the failure paths always reach the inventory. If one raises, the handler fails with an unhandled 500 partway through its loop; that is not modelled.
- Each checkout runs alone. Concurrent checkouts interleaving their reserves against the same stock are not modelled.
- The clock (`datetime.utcnow()`) is the `now` parameter.
- The processor's random approval is the `approved` parameter of `Pay`.
- The payment service's `/refund` handler is left out: nothing in the checkout calls it.
- Authentication on the owner-only inventory handlers is left out (`owner_required`), and so are `/health`, metrics, the API gateway and the user interface.
- `get_all_orders` is left out: it only returns the whole orders table.
- Prices are floats in the services and JavaScript numbers in the cart. The model uses exact integer cents, so rounding in totals is not modelled.
- The product ids the database assigns: `ProductTable` assigns the next integer. The order service's `product_map` keeps the last row per id; with database-unique ids that is a plain map.
- The cart's `localStorage` persistence and React's state holder.
- Cart.DecreaseUndoesIncrease: needs every quantity in the cart to be positive, not just the entry's, because `decrease` drops every non-positive entry.
- Cart.TotalOfAdd, Cart.TotalOfIncrease: need unique ids. With duplicate ids every matching entry changes, and `TotalOfBump` states that case.
