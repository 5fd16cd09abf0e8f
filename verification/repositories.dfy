/**
 * The persistence collaborators, reduced to what the services observe: a lookup from id
 * to object, and the record of which orders were handed to `save`.
 */
module Repositories {
  import Catalog
  import Orders

  class ProductRepository {
    var products: map<int, Catalog.Product>

    constructor (products: map<int, Catalog.Product>)
      ensures this.products == products
    {
      this.products := products;
    }

    /** The identity map hands out one object per id, so distinct ids are distinct products. */
    predicate OnePerId()
      reads this
    {
      forall a, b | a in products && b in products && a != b :: products[a] != products[b]
    }
  }

  class OrderRepository {
    var orders: map<int, Orders.Order>
    /** Every order passed to `save`, in call order. */
    var saved: seq<Orders.Order>

    constructor (orders: map<int, Orders.Order>)
      ensures this.orders == orders && saved == []
    {
      this.orders := orders;
      saved := [];
    }

    /** `save`: recorded, and nothing else observable changes. */
    method Save(order: Orders.Order)
      modifies this`saved
      ensures saved == old(saved) + [order]
    {
      saved := saved + [order];
    }
  }
}
