/** One product/quantity pairing inside an order. */
module LineItems {
  import opened Catalog

  /** The range of a C# `int`, the type of a line item's quantity. */
  newtype Int32 = x: int | -0x8000_0000 <= x < 0x8000_0000

  /**
   * A line item binds a product reference to a quantity. Both are fixed by the
   * constructor (`const` fields: the source's private setters are only ever
   * used there). The product is shared, not owned: its price may change later.
   * The quantity is not validated, so zero and negative quantities are kept.
   */
  class OrderLineItem {
    const product: Product
    const quantity: Int32

    constructor (product: Product, quantity: Int32)
      ensures this.product == product && this.quantity == quantity
    {
      this.product := product;
      this.quantity := quantity;
    }

    /**
     * The subtotal of this line, the quantity times the product's current
     * price. It changes nothing, and it reads the price each time it is asked.
     */
    function GetTotal(): (r: real)
      reads product
      ensures quantity == 0 ==> r == 0.0
      ensures quantity == 1 ==> r == product.price
    {
      quantity as real * product.price
    }
  }

  /**
   * Quantities are not validated. With a price that is not negative, a
   * quantity that is not negative gives a subtotal that is not negative, and a
   * negative quantity (a return, say) gives one that is not positive.
   */
  lemma LineTotalSign(item: OrderLineItem)
    requires 0.0 <= item.product.price
    ensures 0 <= item.quantity ==> 0.0 <= item.GetTotal()
    ensures item.quantity <= 0 ==> item.GetTotal() <= 0.0
  {
  }

  /**
   * The subtotal follows the product's price: when the price of `product`
   * moves by `delta` and the price of this item's product otherwise stays,
   * the subtotal moves by `delta` times the quantity if the item refers to
   * `product`, and not at all if it does not.
   */
  // `new` on `delta` (and `product`) works around a verifier crash on two-state lemmas
  // with several parameters that must exist in the earlier state; `product` is then
  // required to exist there explicitly.
  twostate lemma RepriceShiftsLineTotal(item: OrderLineItem, new product: Product, new delta: real)
    requires old(allocated(product)) && product.price == old(product.price) + delta
    requires item.product != product ==> old(item.product.price) == item.product.price
    ensures item.GetTotal() == old(item.GetTotal()) + (if item.product == product then item.quantity as real * delta else 0.0)
  {
  }
}
