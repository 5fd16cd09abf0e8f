# Order domain of the orders-management backend, in Dafny

This project models the order domain of a small PHP/Symfony shop backend and proves
properties of the model. The domain has:

- a catalog `Product`, with a name, a decimal price string and a stock count;
- an `Order`, owned by a customer id, that holds `OrderItem`s and a running total and
  moves from pending to paid;
- the `OrderStatus` backed enum;
- three application services:
  - `CreateOrderService` builds a pending order from requested lines and takes the
    stock.
  - `CheckoutOrderService` pays an order on behalf of its owner.
  - `GetOrderService` hands an order to its owner.

Money is exact. The backend computes with bcmath at scale 2 on strings that never carry
more than two decimals. Here every amount is therefore a whole number of cents:

- `Money.ParseCents` reads a price string as cents.
- `Money.FormatCents` renders cents the way `bcadd`/`bcmul` print them.

The two round-trip.

Each source file keeps its own form in the model:

- Entities that the PHP updates in place are classes:
  - `Catalog.Product` has a mutable `stock`.
  - `Orders.OrderItem` has a mutable `parentOrder`.
  - `Orders.Order` has a mutable `status`, `items` and `total`.
- Fields that PHP never reassigns are `const`.
- A throwing constructor becomes two members:
  - a Dafny constructor whose `requires` is the validation;
  - a static `Create` method that returns the exception as an `Err`.
- The guard sequences are pure functions returning the first refusal:
  `ValidateProduct`, `StockRefusal`, `ItemRefusal` and `PayRefusal`.
- Methods state their results through those functions.
- Repositories are id → object maps. `save` is recorded in `OrderRepository.saved`.
- `CreateOrderService.execute` keeps its `foreach` loop.
  - Its contract is stated against `CreateOrder.Fulfil`, a pure run of the per-line
    guards over a snapshot of the stock.
  - The lemmas about `Fulfil` characterise when an order goes through and how much stock
    it takes.

Modules:

- `Outcomes`: errors, `Option`, `Result`.
- `Text`: PHP `trim` and the blank-string test.
- `Money`
- `Statuses`
- `Catalog`
- `Orders`
- `Repositories`
- `GetOrder`
- `CheckoutOrder`
- `CreateOrder`
- `Scenarios`: the unit tests' worked cases, followed through the model.

## Model

| member | source | states |
|---|---|---|
| Text.BlankIffAllTrimmable | backend/src/Entity/Order.php:41 | `trim($s) === ''` holds exactly when every character of `$s` is one of the six characters `trim` strips by default |
| Money.ParseCentsDefinedIffDecimal | backend/src/Entity/Product.php:31-36 | the cents parser accepts exactly the strings that match the body of `^\d+(\.\d{1,2})?$` (digits, optionally a dot and one or two digits), so every such string has a value bccomp can compare |
| Money.FormatThenParse | backend/src/Entity/Order.php:113 | a scale-2 amount as bcmath prints it (digits, a dot, two digits) matches the price grammar and reads back as the same number of cents |
| Money.IsDecimal | backend/src/Entity/Product.php:31 | a string matching the body of the pattern starts and ends with a digit, holds nothing but digits and at most one dot, and has at most two digits after the dot |
| Money.PricePattern | backend/src/Entity/Product.php:31 | `preg_match` without the D modifier accepts every decimal; whatever it accepts starts with a digit; what it accepts beyond the decimals ends in a digit followed by one newline |
| Money.ParseCents | backend/src/Entity/Product.php:34 | a string read as cents starts and ends with a digit, has a non-empty run of digits before its first dot, and its whole units are the value of those digits |
| Money.FormatCents | backend/src/Entity/OrderItem.php:81 | the rendering has the shape of a scale-2 bcmath result: whole digits, a dot, exactly two fraction digits |
| Money.NatDigits | backend/src/Entity/Order.php:113 | the whole part of a rendered amount is a non-empty run of decimal digits |
| Money.NatDigitsValue | backend/src/Entity/Order.php:113 | the digits printed for a whole amount read back as that amount |
| Statuses.OrderStatus.Value | backend/src/Enum/OrderStatus.php:7-10 | each of the four cases has a non-empty backing string: pending, paid, cancelled, failed |
| Statuses.OrderStatus.Label | backend/src/Enum/OrderStatus.php:12-20 | `label()` is defined for every case and is the backing string with its first letter capitalised |
| Statuses.TryFrom | backend/src/Enum/OrderStatus.php:5-11 | a string names case `c` exactly when it is `c`'s backing string, so the backing strings are pairwise distinct and case ↔ string is a bijection |
| Catalog.ValidateProduct | backend/src/Entity/Product.php:26-43 | a product is accepted exactly when its trimmed name is non-empty, its price is a positive decimal with at most two fraction digits and its stock is non-negative; refusals follow the order name, format, positivity, stock, each an InvalidArgument with its message |
| Catalog.ValidateProductAsWritten | backend/src/Entity/Product.php:31-34 | the checks as the code runs them: the PCRE pattern lets a decimal followed by one newline through, and `bccomp` then fails on it; it accepts the same products as the corrected check |
| Catalog.ValidationsDifferOnlyOnTrailingNewline | backend/src/Entity/Product.php:31-34 | the as-written and corrected checks accept the same products; they differ exactly on a decimal followed by a final newline, where the code ends in bcmath's error instead of the format message |
| Catalog.TrailingNewlinePrice | backend/src/Entity/Product.php:31 | "1299.99\n" passes the pattern but is not a decimal: the code refuses it with bcmath's error, the corrected check with the format message |
| Catalog.NewlineAfterDecimal | backend/src/Entity/Product.php:31-34 | "1299.99\n" matches the pattern, is not a decimal, and has no value in cents for bccomp to compare |
| Catalog.StockRefusal | backend/src/Entity/Product.php:65-72 | `decreaseStock` is allowed exactly when 0 < quantity ≤ stock; quantity ≤ 0 is InvalidArgument "Quantity must be greater than zero", checked first, and a larger quantity is DomainException "Insufficient stock" |
| Catalog.Product.constructor | backend/src/Entity/Product.php:40-42 | a validated product stores name, price and stock unchanged; its price is worth a positive number of cents |
| Catalog.Product.Create | backend/src/Entity/Product.php:26-43 | `new Product` fails on exactly the inputs the constructor refuses, with the corrected check's refusal; otherwise the fresh product is valid and holds the given values |
| Catalog.Product.DecreaseStock | backend/src/Entity/Product.php:65-74 | on success stock drops by exactly the quantity; on either refusal stock is unchanged; name and price are constants; a valid product stays valid, so stock stays non-negative |
| Orders.ItemRefusal | backend/src/Entity/OrderItem.php:31-39 | an item is accepted exactly when quantity > 0 and unit price > 0; the quantity is checked first |
| Orders.OrderItem.constructor | backend/src/Entity/OrderItem.php:41-43 | a new item stores product, unit price and quantity unchanged and has no parent order yet |
| Orders.OrderItem.Create | backend/src/Entity/OrderItem.php:31-44 | `new OrderItem` fails exactly when ItemRefusal refuses, with that error; otherwise the fresh item is valid and holds the given values |
| Orders.OrderItem.Subtotal | backend/src/Entity/OrderItem.php:79-82 | the subtotal of a valid item is positive and at least the unit price; it reads only the item's own constants, never the product's current price |
| Orders.OrderItem.SubtotalText | backend/src/Entity/OrderItem.php:79-82 | `getSubtotal()`'s scale-2 string reads back as unit price × quantity in cents |
| Orders.OrderItem.SetParentOrder | backend/src/Entity/OrderItem.php:59-62 | only the parentOrder field changes, and it now names the given order |
| Orders.Reduce | backend/src/Entity/Order.php:112-114 | the reduce adds to its starting carry exactly the sum of the items' subtotals, whatever the carry |
| Orders.RecalculatedTotal | backend/src/Entity/Order.php:110-115 | the total recalculated from "0.00" is the sum of the items' subtotals |
| Orders.TotalAppend | backend/src/Entity/Order.php:110-115 | recalculating after appending an item adds exactly that item's subtotal |
| Orders.TotalAtLeastItemCount | backend/src/Entity/Order.php:110-115 | over valid items the recalculated total is at least the item count, so a non-empty order has a positive total |
| Orders.Order.constructor | backend/src/Entity/Order.php:39-47 | a new order has the given customer id and creation time, status pending, no items and total 0, and satisfies the order invariant |
| Orders.Order.Create | backend/src/Entity/Order.php:41-43 | `new Order` fails exactly when the customer id is blank after trim, with "Customer ID cannot be empty"; otherwise the fresh order is pending, empty, with total 0 |
| Orders.Order.TotalText | backend/src/Entity/Order.php:77-80 | `getTotal()`'s scale-2 string reads back as the total in cents |
| Orders.Order.AddItem | backend/src/Entity/Order.php:82-94 | a paid order refuses with "Cannot modify a paid order" and nothing changes; an item already held changes nothing; a new item is appended last, pointed back at the order, and the total becomes the sum of subtotals; the order invariant is kept and the total grows by the new item's subtotal |
| Orders.PayRefusal | backend/src/Entity/Order.php:98-106 | `pay` is allowed exactly when the order is pending, has items and has a positive total; the refusals come in that order, each with its message |
| Orders.Order.Pay | backend/src/Entity/Order.php:96-108 | on success status becomes paid; on any refusal status is unchanged; nothing else can change |
| Orders.PayableIffPendingWithItems | backend/src/Entity/Order.php:104-106 | on an order whose total is the sum of valid items, the positive-total guard never fires: pay succeeds exactly when the order is pending and non-empty |
| Repositories.OrderRepository.Save | backend/src/Application/Order/CreateOrder/CreateOrderService.php:46 | `save` appends the order to the record of saved orders and changes nothing else |
| GetOrder.Execute | backend/src/Application/Order/GetOrder/GetOrderService.php:18-32 | the order is returned exactly when the customer id is not blank, the id is stored and the stored order's customer id equals the caller's exactly; it is the stored object itself; the refusals come in the order blank, not found, forbidden |
| CheckoutOrder.CheckoutOrderService.Execute | backend/src/Application/Order/CheckoutOrder/CheckoutOrderService.php:20-40 | an access refusal (as GetOrder decides it) is returned with no save and no order changed; then `pay`'s refusal is returned with status unchanged and no save; otherwise that order alone becomes paid and is saved once; items and total never change |
| CreateOrder.Fulfil | backend/src/Application/Order/CreateOrder/CreateOrderService.php:29-44 | running the per-line guards over a stock snapshot keeps the set of product ids |
| CreateOrder.Step | backend/src/Application/Order/CreateOrder/CreateOrderService.php:30-42 | one line is looked up, then checked as an item, then against the stock; on success only that product's stock changes |
| CreateOrder.FulfilDeductsDemand | backend/src/Application/Order/CreateOrder/CreateOrderService.php:29-44 | after all lines go through, each product's stock has dropped by the sum of the quantities of all lines naming it, so repeated lines are taken cumulatively |
| CreateOrder.FulfilSucceedsIff | backend/src/Application/Order/CreateOrder/CreateOrderService.php:29-44 | with positive prices and non-negative stock, the lines go through exactly when each names a stored product with a positive quantity and no product is asked for more than its stock over all lines |
| CreateOrder.ValidCatalogSnapshot | backend/src/Application/Order/CreateOrder/CreateOrderService.php:29-44 | on a catalog of valid products, the price each item takes is positive and is the product's price string read as cents, every stock is non-negative, and so the order goes through exactly when its lines are well formed and within stock |
| CreateOrder.ItemsForTotal | backend/src/Application/Order/CreateOrder/CreateOrderService.php:36-43 | items built one per line at the product's price carry the total Σ price × quantity over the lines |
| CreateOrder.CreateOrderService.TakeLine | backend/src/Application/Order/CreateOrder/CreateOrderService.php:30-42 | a line fails exactly as Step does, with its error; on success the stock map becomes Step's result, and a fresh item holds that product, its current price in cents and the line's quantity |
| CreateOrder.CreateOrderService.AddLine | backend/src/Application/Order/CreateOrder/CreateOrderService.php:30-43 | TakeLine followed by `addItem`: the order keeps its invariant and, on success, ends with the new item |
| CreateOrder.CreateOrderService.AddLines | backend/src/Application/Order/CreateOrder/CreateOrderService.php:29-44 | the loop fails exactly when Fulfil does, with the same first error; on success the stock is Fulfil's result and the items are one per line, in line order, with total Σ price × quantity |
| CreateOrder.CreateOrderService.Execute | backend/src/Application/Order/CreateOrder/CreateOrderService.php:23-50 | an order is returned exactly when the customer id is not blank and Fulfil succeeds; a blank id fails before any stock changes; otherwise the first failing line's error is returned; failure never saves; success returns a fresh pending order of the customer, one item per line in line order at the catalog price, total Σ price × quantity, stock as Fulfil computes it, and one save |
| Scenarios.BlankNameRefused | backend/tests/Unit/Entity/ProductTest.php:21-27 | an empty name and a name of spaces are both refused with "Name cannot be empty" |
| Scenarios.CommaPriceRefused | backend/tests/Unit/Entity/ProductTest.php:29-35 | "1299,99" is refused with the format message |
| Scenarios.ZeroPriceRefused | backend/tests/Unit/Entity/ProductTest.php:37-43 | "0.00" is well formed and refused with "Price must be greater than zero" |
| Scenarios.NegativeStockRefused | backend/tests/Unit/Entity/ProductTest.php:45-51 | stock -5 is refused with "Stock cannot be negative" |
| Scenarios.OrderLines | backend/tests/Unit/Application/Order/CreateOrderServiceTest.php:41-104 | with 10 in stock at 1299.99: 3 taken leaves 7, 2 cost 2599.98, an unknown id is not found, and two lines of 6 fail on the second |
| Scenarios.PendingThenPaid | backend/tests/Unit/Entity/OrderTest.php:44-102 | 999.99 × 2 plus 200.00 × 1 totals 2199.98; the first pay succeeds, a second is refused as not pending, and a later item is refused as the order is paid |

## Left out

- HTTP controllers, JSON decoding, the Symfony `Assert` attributes on commands and DTOs,
  and the response DTOs are not modelled. They are I/O and projection around the domain.
- `CreateProductService` is not modelled: it only delegates to the `Product` constructor.
- Doctrine persistence is reduced to maps:
  - Each repository is an id → object map; `find` is a map lookup.
  - `ProductRepository` is assumed to return one object per id (`OnePerId`), as
    Doctrine's identity map does.
  - `save` is recorded in a sequence; nothing is written anywhere.
- `wrapInTransaction` is not modelled: it is a database transaction.
  - CreateOrder.CreateOrderService.Execute: on a failing line, the stock taken by
    earlier lines stays taken in memory. The contract says nothing about the stock on
    failure, since the code relies on the transaction's rollback there.
- Generated ids and `createdAt` are opaque. The creation time is an integer the caller
  passes in, in place of `new \DateTimeImmutable()`.
- bcmath and PCRE are not modelled as libraries. Their effect on the strings this domain
  handles is modelled instead:
  - A price string with at most two decimals is read as cents.
  - Unit prices, subtotals and totals are integers in cents.
  - `OrderItem`'s `string $unitPrice` becomes cents. `CreateOrderService` is its only
    caller here, and it always passes a validated product price.
  - A unit-price string with more than two decimals, which `bccomp` would truncate, is
    therefore outside the model.
- Catalog.Product: besides the price string, the product keeps the price's value in cents
  as a constant fixed at construction. The price never changes, so the two never disagree
  (`Valid()` ties them).
- Orders.Order.AddItem: only the case where the item belongs to no other order is covered
  by the invariant.
  - The code lets an item that another order holds be re-parented.
  - That other order's invariant (its items point back at it) is not tracked; it is
    aliasing across orders.
- Orders.Order.AddItem refuses only when the status is exactly paid, as the code does.
  - Cancelled and failed orders still accept items.
- Catalog.Product.Create follows the corrected price check. On a price that is a decimal
  followed by one newline it returns the format refusal, where the code raises bcmath's
  ValueError (see Findings). On every other input it refuses exactly as the code does.
- The frontend, including its floating-point cart totals, is not modelled.

## Findings

| source | as written | input that shows it | evidently intended | confidence | as-written member | corrected member |
|---|---|---|---|---|---|---|
| backend/src/Entity/Product.php:31-34 | `preg_match('/^\d+(\.\d{1,2})?$/', $price)` has no D modifier, so `$` also matches before a final "\n". A price with a trailing newline passes the format check, and `bccomp($price, '0', 2)` then raises bcmath's ValueError for a non-well-formed number instead of the documented InvalidArgument. | `new Product('Iphone 16 Pro Max', "1299.99\n", 10)` | the format check refuses it with "Price must be a valid decimal with up to 2 decimals" (pattern anchored with `\z` or the D modifier) | not executed | Catalog.ValidateProductAsWritten | Catalog.ValidateProduct |
