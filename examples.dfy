/**
 * The sample order built by the flattening demonstration, and two variations
 * on it, with the totals the model gives for them.
 */
module OrderExamples {
  import opened Catalog
  import opened Orders

  /** A fresh order, with nothing added, totals zero. */
  method EmptyOrderTotal() returns (total: real)
    ensures total == 0.0
  {
    var order := new Order();
    total := order.GetTotal();
  }

  /** Homer Simpson's order of 15 boxes at 4.99 totals 74.85. */
  method BoxOrderTotal() returns (total: real)
    ensures total == 74.85
  {
    var customer := new Customer("Homer Simpson");
    var order := new Order();
    order.customer := customer;
    var box := new Product("Box", 4.99);
    order.AddLineItem(box, 15);
    total := order.GetTotal();
  }

  /** Adding 3 widgets at 2.00 to that order adds 6.00 to its total. */
  method BoxAndWidgetOrderTotal() returns (total: real)
    ensures total == 80.85
  {
    var order := new Order();
    var box := new Product("Box", 4.99);
    var widget := new Product("Widget", 2.00);
    order.AddLineItem(box, 15);
    order.AddLineItem(widget, 3);
    total := order.GetTotal();
  }

  /**
   * The order holds the product by reference: raising the box's price to 5.00
   * after the line item was added changes the total asked for afterwards.
   */
  method RepricedBoxOrderTotals() returns (before: real, after: real)
    ensures before == 74.85 && after == 75.0
  {
    var order := new Order();
    var box := new Product("Box", 4.99);
    order.AddLineItem(box, 15);
    before := order.GetTotal();
    box.price := 5.0;
    after := order.GetTotal();
  }

  /**
   * Adding the same two (product, quantity) pairs in either order gives the
   * same total, although the two orders hold different line item objects.
   */
  method AddOrderDoesNotMatter(p: Product, q: Product, a: LineItems.Int32, b: LineItems.Int32) returns (forward: real, backward: real)
    ensures forward == backward
  {
    var first := new Order();
    first.AddLineItem(p, a);
    first.AddLineItem(q, b);
    var second := new Order();
    second.AddLineItem(q, b);
    second.AddLineItem(p, a);
    assert Lines(first.lineItems) == [(p, a), (q, b)];
    assert Lines(second.lineItems) == [(q, b), (p, a)];
    SumOrderIndependent(first.lineItems, second.lineItems);
    forward := first.GetTotal();
    backward := second.GetTotal();
  }
}
