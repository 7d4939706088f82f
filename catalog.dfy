/**
 * The plain data holders the order refers to. Neither class has behaviour of
 * its own; both are created with object initialisers and their properties
 * stay publicly settable, so they are classes with mutable fields here.
 */
module Catalog {

  /** A customer, identified by name. An order only keeps a reference to it. */
  class Customer {
    var name: string

    constructor (name: string)
      ensures this.name == name
    {
      this.name := name;
    }
  }

  /**
   * A product with a unit price. The price is a C# `decimal`; it is modelled
   * as an exact `real`. It stays settable after construction, and every line
   * item that refers to the product sees the price it has at the time it is
   * asked for its total.
   */
  class Product {
    var name: string
    var price: real

    constructor (name: string, price: real)
      ensures this.name == name && this.price == price
    {
      this.name := name;
      this.price := price;
    }
  }
}
