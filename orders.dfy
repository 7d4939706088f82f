/**
 * The order aggregate: a customer reference and an ordered list of line items
 * whose total is recomputed on every request.
 */
module Orders {
  import opened Catalog
  import opened LineItems

  /** The products a list of line items refers to: what its total depends on. */
  ghost function Products(items: seq<OrderLineItem>): set<Product>
  {
    set it | it in items :: it.product
  }

  /**
   * The sum of the line items' subtotals, accumulated from the first item to
   * the last as `Enumerable.Sum` does; zero for no items.
   */
  function Sum(items: seq<OrderLineItem>): (r: real)
    reads Products(items)
    ensures items == [] ==> r == 0.0
  {
    if items == [] then 0.0
    else Sum(items[..|items| - 1]) + items[|items| - 1].GetTotal()
  }

  /**
   * With no negative quantity and no negative price, the total is not
   * negative. Quantities are not validated, so the first condition is the
   * caller's to keep.
   */
  lemma {:induction false} SumNonNegative(items: seq<OrderLineItem>)
    requires forall it :: it in items ==> 0 <= it.quantity && 0.0 <= it.product.price
    ensures 0.0 <= Sum(items)
  {
    if items != [] {
      SumNonNegative(items[..|items| - 1]);
      LineTotalSign(items[|items| - 1]);
    }
  }

  /** Appending one item adds exactly that item's subtotal. */
  lemma SumAppend(items: seq<OrderLineItem>, item: OrderLineItem)
    ensures Sum(items + [item]) == Sum(items) + item.GetTotal()
  {
  }

  /** The total of two lists placed one after the other is the sum of their totals. */
  lemma {:induction false} SumConcat(front: seq<OrderLineItem>, back: seq<OrderLineItem>)
    ensures Sum(front + back) == Sum(front) + Sum(back)
  {
    if back == [] {
      assert front + back == front;
    } else {
      var init, last := back[..|back| - 1], back[|back| - 1];
      assert front + back == (front + init) + [last];
      SumAppend(front + init, last);
      SumConcat(front, init);
    }
  }

  /** A line item seen as a value: the product it refers to and its quantity. */
  type Line = (Product, Int32)

  /** The (product, quantity) pairs of a list of line items, in order. */
  ghost function Lines(items: seq<OrderLineItem>): seq<Line>
  {
    seq(|items|, i requires 0 <= i < |items| => (items[i].product, items[i].quantity))
  }

  /** The products a list of (product, quantity) pairs refers to. */
  ghost function LineProducts(lines: seq<Line>): set<Product>
  {
    set l | l in lines :: l.0
  }

  /** Quantity times the product's current price, for one pair. */
  ghost function LineTotal(line: Line): real
    reads line.0
  {
    line.1 as real * line.0.price
  }

  /**
   * The sum of quantity times current price over (product, quantity) pairs,
   * from the first pair to the last: the order total seen through values.
   */
  ghost function LineSum(lines: seq<Line>): real
    reads LineProducts(lines)
  {
    if lines == [] then 0.0
    else LineSum(lines[..|lines| - 1]) + LineTotal(lines[|lines| - 1])
  }

  /** The total of line items is the sum over their (product, quantity) pairs. */
  lemma {:induction false} SumIsLineSum(items: seq<OrderLineItem>)
    ensures Sum(items) == LineSum(Lines(items))
  {
    if items != [] {
      assert Lines(items)[..|items| - 1] == Lines(items[..|items| - 1]);
      SumIsLineSum(items[..|items| - 1]);
    }
  }

  /** The sum over two lists of pairs placed one after the other is the sum of their sums. */
  lemma {:induction false} LineSumConcat(front: seq<Line>, back: seq<Line>)
    ensures LineSum(front + back) == LineSum(front) + LineSum(back)
  {
    if back == [] {
      assert front + back == front;
    } else {
      var init := back[..|back| - 1];
      assert (front + back)[..|front + back| - 1] == front + init;
      LineSumConcat(front, init);
    }
  }

  /** Taking the pair at position `j` out of a list takes its quantity times price off the sum. */
  lemma {:induction false} LineSumRemove(lines: seq<Line>, j: nat)
    requires j < |lines|
    ensures LineSum(lines) == LineSum(lines[..j] + lines[j + 1..]) + LineTotal(lines[j])
  {
    var before, after := lines[..j], lines[j + 1..];
    assert lines == (before + [lines[j]]) + after;
    LineSumConcat(before + [lines[j]], after);
    assert (before + [lines[j]])[..|before|] == before;
    LineSumConcat(before, after);
  }

  /**
   * When two sequences hold the same elements and `other[j]` is the last
   * element of `s`, dropping each leaves two sequences that still do.
   */
  lemma MultisetDropMatching<T>(s: seq<T>, other: seq<T>, j: nat)
    requires multiset(s) == multiset(other) && s != []
    requires j < |other| && other[j] == s[|s| - 1]
    ensures multiset(s[..|s| - 1]) == multiset(other[..j] + other[j + 1..])
  {
    assert s == s[..|s| - 1] + [s[|s| - 1]];
    assert other == other[..j] + [other[j]] + other[j + 1..];
    assert multiset(s[..|s| - 1]) == multiset(s) - multiset{other[j]};
  }

  /**
   * The sum does not depend on the order of the pairs: two lists holding the
   * same (product, quantity) pairs the same number of times have the same sum.
   */
  lemma {:induction false} LineSumPermutation(lines: seq<Line>, other: seq<Line>)
    requires multiset(lines) == multiset(other)
    ensures LineSum(lines) == LineSum(other)
  {
    if lines == [] {
      assert |other| == |multiset(other)| == 0;
    } else {
      var init, last := lines[..|lines| - 1], lines[|lines| - 1];
      assert last in multiset(other);
      var j :| 0 <= j < |other| && other[j] == last;
      MultisetDropMatching(lines, other, j);
      LineSumPermutation(init, other[..j] + other[j + 1..]);
      LineSumRemove(other, j);
    }
  }

  /**
   * The order total does not depend on the order in which the line items were
   * added: two lists of line items with the same (product, quantity) pairs,
   * each the same number of times, have the same total.
   */
  lemma SumOrderIndependent(items: seq<OrderLineItem>, other: seq<OrderLineItem>)
    requires multiset(Lines(items)) == multiset(Lines(other))
    ensures Sum(items) == Sum(other)
  {
    SumIsLineSum(items);
    SumIsLineSum(other);
    LineSumPermutation(Lines(items), Lines(other));
  }

  /** The combined quantity of the line items that refer to `product`. */
  ghost function QuantityOf(items: seq<OrderLineItem>, product: Product): (n: int)
  {
    if items == [] then 0
    else
      var last := items[|items| - 1];
      QuantityOf(items[..|items| - 1], product) + (if last.product == product then last.quantity as int else 0)
  }

  /**
   * How much the total of `items` moves when the price of `product` moves by
   * `delta`: each item referring to it contributes its quantity times `delta`.
   */
  ghost function PriceShift(items: seq<OrderLineItem>, product: Product, delta: real): real
  {
    if items == [] then 0.0
    else
      var last := items[|items| - 1];
      PriceShift(items[..|items| - 1], product, delta) + (if last.product == product then last.quantity as real * delta else 0.0)
  }

  /** The shift is `delta` times the combined quantity of the product. */
  lemma {:induction false} PriceShiftScales(items: seq<OrderLineItem>, product: Product, delta: real)
    ensures PriceShift(items, product, delta) == delta * QuantityOf(items, product) as real
  {
    if items != [] {
      var init, last := items[..|items| - 1], items[|items| - 1];
      var k := if last.product == product then last.quantity as real else 0.0;
      PriceShiftScales(init, product, delta);
      assert PriceShift(items, product, delta) == PriceShift(init, product, delta) + k * delta;
      assert QuantityOf(items, product) as real == QuantityOf(init, product) as real + k;
      ScaleStep(PriceShift(init, product, delta), QuantityOf(init, product) as real, k, delta);
    }
  }

  /** The arithmetic of one step of PriceShiftScales. */
  lemma ScaleStep(shift: real, q: real, k: real, delta: real)
    requires shift == delta * q
    ensures shift + k * delta == delta * (q + k)
  {
  }

  /** A price change moves a total computed afterwards by exactly the PriceShift. */
  // `new` on `delta` (and `product`) works around a verifier crash on two-state lemmas
  // with several parameters that must exist in the earlier state; `product` is then
  // required to exist there explicitly.
  twostate lemma RepriceShiftsSum(items: seq<OrderLineItem>, new product: Product, new delta: real)
    requires old(allocated(product)) && product.price == old(product.price) + delta
    requires forall it :: it in items && it.product != product ==> old(it.product.price) == it.product.price
    ensures Sum(items) == old(Sum(items)) + PriceShift(items, product, delta)
  {
    if items != [] {
      RepriceShiftsSum(items[..|items| - 1], product, delta);
      RepriceShiftsLineTotal(items[|items| - 1], product, delta);
    }
  }

  /**
   * Line items keep a reference to their product, not a copy of its price:
   * when one product's price moves by `delta` and no other price changes, a
   * total computed afterwards moves by `delta` times that product's quantity.
   */
  // `new` on `delta` (and `product`) works around a verifier crash on two-state lemmas
  // with several parameters that must exist in the earlier state; `product` is then
  // required to exist there explicitly.
  twostate lemma RepriceShiftsTotal(items: seq<OrderLineItem>, new product: Product, new delta: real)
    requires old(allocated(product)) && product.price == old(product.price) + delta
    requires forall it :: it in items && it.product != product ==> old(it.product.price) == it.product.price
    ensures Sum(items) == old(Sum(items)) + delta * QuantityOf(items, product) as real
  {
    RepriceShiftsSum(items, product, delta);
    PriceShiftScales(items, product, delta);
  }

  /**
   * An order. The customer is an optional reference that callers set freely;
   * the line items are only ever appended, by AddLineItem.
   */
  class Order {
    var customer: Customer?
    var lineItems: seq<OrderLineItem>

    /** A new order has no customer and no line items, so its total is zero. */
    constructor ()
      ensures customer == null && lineItems == []
      ensures GetTotal() == 0.0
    {
      customer := null;
      lineItems := [];
    }

    /**
     * Appends one new line item for `product` and `quantity`. Earlier items and
     * the customer are left alone; the quantity is not validated.
     */
    method AddLineItem(product: Product, quantity: Int32)
      modifies this
      ensures |lineItems| == |old(lineItems)| + 1
      ensures lineItems[..|old(lineItems)|] == old(lineItems)
      ensures fresh(lineItems[|lineItems| - 1])
      ensures lineItems[|lineItems| - 1].product == product
      ensures lineItems[|lineItems| - 1].quantity == quantity
      ensures customer == old(customer)
      ensures GetTotal() == old(GetTotal()) + quantity as real * product.price
    {
      var item := new OrderLineItem(product, quantity);
      ghost var before := lineItems;
      lineItems := lineItems + [item];
      SumAppend(before, item);
      // Only this order changed, so no price the earlier total read did.
      assert forall pr :: pr in Products(before) ==> unchanged(pr);
      assert lineItems[..|before|] == before;
    }

    /**
     * The order total: the sum of the current line items' subtotals at the
     * current prices. It changes nothing.
     */
    function GetTotal(): (r: real)
      reads this, Products(lineItems)
      ensures lineItems == [] ==> r == 0.0
    {
      Sum(lineItems)
    }
  }
}
