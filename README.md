# Order totals of the AutoMapper example application

This project models the small domain core of the AutoMapper example
application in Dafny. That core is the order aggregate in `App.Model`:
- An `Order` keeps a customer reference and a private, growing list of line items.
- `AddLineItem` appends a new `OrderLineItem` built from a product and a quantity.
- `GetTotal` sums the items' subtotals with LINQ's `Sum`.

An `OrderLineItem` binds a product reference to an integer quantity, both fixed
at construction. Its own `GetTotal` is `Quantity * Product.Price`.

Modules, one per source file or entity:

- `Catalog` (`catalog.dfy`) has `Customer` and `Product`. These are plain data
  holders whose properties stay settable. Their source files are not part of
  this model. They are modelled from their use in `App/Program.cs`: a customer
  has a name, and a product has a name and a `decimal` price.
- `LineItems` (`line_items.dfy`) has `OrderLineItem`. It is a class whose
  product and quantity are `const` fields, because the source assigns them only
  in its constructor. Its `GetTotal` reads the product's price when it is
  called. The quantity has the range of a C# `int` (`Int32`).
- `Orders` (`orders.dfy`) has the class `Order` and the facts about the sum.
  - `Order` has a `customer` field, a `lineItems` sequence that `AddLineItem`
    reassigns, and a `GetTotal` function.
  - `Sum` is the LINQ sum. It accumulates from the first item to the last and
    gives zero for no items.
  - The lemmas about `Sum` cover appending, concatenation, signs, and how a
    total moves when a shared product is repriced.
  - Reordering is stated on values: `Lines` maps the items to their
    (product, quantity) pairs, and two lists whose pairs are a permutation of
    each other have the same total, even when the item objects differ.
- `OrderExamples` (`examples.dfy`) builds the sample order from the flattening
  demonstration (15 boxes at 4.99) and variations on it.

Money is an exact `real`. C# `decimal` is a base-10 type, and it is exact at
these magnitudes. So 15 × 4.99 is 74.85 exactly, as in the source.

The source validates neither quantities nor prices, and it holds products by
reference. The model keeps all three:
- Quantities are not validated, so zero and negative quantities are accepted.
  At a price that is not negative they give zero or non-positive subtotals
  (`LineTotalSign`).
- Prices are not required to be non-negative, so a negative quantity at a
  negative price gives a positive subtotal.
- A product is a live shared reference, not a snapshot taken when the item is
  added. A price change made after `AddLineItem` shows in later totals.

## Model

| member | source | states |
|---|---|---|
| Catalog.Customer.constructor | App/Program.cs:86-89 | a customer stores the name it was given |
| Catalog.Product.constructor | App/Program.cs:96-100 | a product stores the name and the price it was given |
| LineItems.OrderLineItem.constructor | App/Model/OrderLineItem.cs:8-12 | the line item holds exactly the given product and quantity; both are `const`, so they never change afterwards |
| LineItems.OrderLineItem.GetTotal | App/Model/OrderLineItem.cs:14-17 | the subtotal is zero for quantity 0 and the product's current price for quantity 1; it reads only the product and changes nothing |
| LineItems.LineTotalSign | App/Model/OrderLineItem.cs:16 | with a price that is not negative, a quantity that is not negative gives a subtotal that is not negative, and a negative (unvalidated) quantity gives one that is not positive |
| LineItems.RepriceShiftsLineTotal | App/Model/OrderLineItem.cs:14-17 | the subtotal is computed from the price at call time: if the item's product is repriced by `delta`, the subtotal moves by quantity × `delta`; if another product is repriced, it does not move |
| Orders.Sum | App/Model/Order.cs:16-19 | the sum of the line items' subtotals is zero for an empty list |
| Orders.SumNonNegative | App/Model/Order.cs:16-19 | with no negative quantity and no negative price, the total is not negative |
| Orders.SumAppend | App/Model/Order.cs:11-19 | appending one item increases the total by exactly that item's subtotal |
| Orders.SumConcat | App/Model/Order.cs:18 | the total of two lists joined together is the sum of their totals |
| Orders.SumIsLineSum | App/Model/Order.cs:18 | the sum over line item objects equals the sum over their (product, quantity) pairs, each pair counting quantity × the product's price |
| Orders.LineSumConcat | App/Model/Order.cs:18 | the sum over two lists of (product, quantity) pairs joined together is the sum of their sums |
| Orders.LineSumRemove | App/Model/Order.cs:18 | taking the pair at any position out of a list takes exactly its subtotal off the sum |
| Orders.LineSumPermutation | App/Model/Order.cs:18 | two lists holding the same (product, quantity) pairs the same number of times, in any order, have the same sum |
| Orders.SumOrderIndependent | App/Model/Order.cs:11-19 | two item lists whose (product, quantity) pairs are a permutation of each other have the same total, whatever the order the items were added in and whether or not they are the same objects |
| Orders.PriceShiftScales | App/Model/OrderLineItem.cs:16 | the change in a total when one product is repriced by `delta` is `delta` times the combined quantity of that product |
| Orders.RepriceShiftsSum | App/Model/Order.cs:16-19 | after one product's price moves by `delta` and no other price changes, the sum moves by the sum of the affected items' quantity × `delta` |
| Orders.RepriceShiftsTotal | App/Model/Order.cs:16-19 | a total computed after one product's price moves by `delta` equals the earlier total plus `delta` times that product's combined quantity in the order |
| Orders.Order.constructor | App/Model/Order.cs:8-9 | a new order has no customer and no line items, and its total is zero |
| Orders.Order.AddLineItem | App/Model/Order.cs:11-14 | exactly one new line item is appended at the end. It holds the given product and quantity. Earlier items stay unchanged and in order, and the customer is untouched. The total grows by exactly quantity × price |
| Orders.Order.GetTotal | App/Model/Order.cs:16-19 | the total of an order with no line items is zero; it reads the order and its products and changes nothing, so repeated calls agree |
| OrderExamples.EmptyOrderTotal | App/Model/Order.cs:9-19 | a freshly constructed order totals 0 |
| OrderExamples.BoxOrderTotal | App/Program.cs:86-102 | Homer Simpson's order of 15 boxes at 4.99 totals 74.85 |
| OrderExamples.BoxAndWidgetOrderTotal | App/Model/Order.cs:11-19 | 15 boxes at 4.99 plus 3 widgets at 2.00 total 80.85 |
| OrderExamples.AddOrderDoesNotMatter | App/Model/Order.cs:11-19 | two orders given the same two (product, quantity) pairs in opposite orders have equal totals |
| OrderExamples.RepricedBoxOrderTotals | App/Model/OrderLineItem.cs:14-17 | repricing the box to 5.00 after it was added moves that order's total from 74.85 to 75.00 |

## Left out

- The rest of `App/Program.cs` is not modelled. That covers:
  - the console output and the wait for the Escape key;
  - the AutoMapper configurations and their mapping, flattening, reverse-mapping and projection behaviour, which live in the external library;
  - `DateTime.Now`;
  - the field-by-field `MapCategoryToDTO` copy.
- The reverse-mapping sample sets `Total = 15.8M` on an `Order`. The `Order` shown has no such member, so that line is not modelled.
- `Product` and `Customer` are not part of this model's sources. They are reduced to the name and price that the code shown uses.
- C# `decimal` range and rounding at 28-29 significant digits are not modelled. Neither is the `OverflowException` that `*` or `Enumerable.Sum` can raise. Arithmetic is exact and unbounded.
- Null product references are not modelled. The source dereferences `Product.Price` without a check, and the model takes a non-null `Product`. The customer may be null until it is set.
- `_orderLineItems` is private in the source. Dafny fields are visible to clients, so the rule that only `AddLineItem` changes the list is kept by convention, not enforced.
- Orders.Order.GetTotal: its contract states only the empty case. That the total equals the sum of the subtotals is its body, `Sum(lineItems)`. The facts about that sum are the lemmas on `Orders.Sum` and `Orders.LineSum`.
