/** CreateOrderService: turn a customer's requested lines into a pending order. */
module CreateOrder {
  import opened Outcomes
  import opened Text
  import opened Statuses
  import Catalog
  import Orders
  import Repositories
  import Money

  /** One requested line of the command: which product, how many. */
  datatype Line = Line(productId: int, quantity: int)

  /** Units of product `id` the lines ask for, over all lines that name it. */
  function Demand(lines: seq<Line>, id: int): (d: int)
    decreases |lines|
  {
    if lines == [] then 0
    else (if lines[0].productId == id then lines[0].quantity else 0) + Demand(lines[1..], id)
  }

  /** What one line costs: the product's price times the quantity. */
  function Amount(line: Line, price: map<int, int>): (a: int)
    requires line.productId in price
  {
    price[line.productId] * line.quantity
  }

  /** Σ price × quantity over the lines: the total the created order must carry. */
  function LinesTotal(lines: seq<Line>, price: map<int, int>): (t: int)
    requires forall k | 0 <= k < |lines| :: lines[k].productId in price
    decreases |lines|
  {
    if lines == [] then 0
    else
      var last := lines[|lines| - 1];
      LinesTotal(lines[..|lines| - 1], price) + Amount(last, price)
  }

  /**
   * The service's per-line guards over a snapshot of the catalog (stock and price by id):
   * lookup, then the item's checks, then the stock check. Yields the stock left after
   * every line, or the error of the first line that fails.
   */
  function Fulfil(lines: seq<Line>, stock: map<int, int>, price: map<int, int>): (r: Result<map<int, int>>)
    requires stock.Keys == price.Keys
    ensures r.Ok? ==> r.value.Keys == stock.Keys
    decreases |lines|
  {
    if lines == [] then Ok(stock)
    else
      match Step(lines[0], stock, price)
      case Err(e) => Err(e)
      case Ok(next) => Fulfil(lines[1..], next, price)
  }

  /** One line of the loop: lookup, the item's checks, the stock check, the decrease. */
  function Step(line: Line, stock: map<int, int>, price: map<int, int>): (r: Result<map<int, int>>)
    requires stock.Keys == price.Keys
    ensures r.Ok? ==> r.value.Keys == stock.Keys
  {
    if line.productId !in stock then Err(ProductNotFound)
    else
      var itemRefusal := Orders.ItemRefusal(price[line.productId], line.quantity);
      var stockRefusal := Catalog.StockRefusal(stock[line.productId], line.quantity);
      if itemRefusal.Some? then Err(itemRefusal.value)
      else if stockRefusal.Some? then Err(stockRefusal.value)
      else Ok(stock[line.productId := stock[line.productId] - line.quantity])
  }

  lemma {:induction false} DemandNonNegative(lines: seq<Line>, id: int)
    requires forall k | 0 <= k < |lines| :: lines[k].quantity > 0
    ensures Demand(lines, id) >= 0
    decreases |lines|
  {
    if lines != [] {
      DemandNonNegative(lines[1..], id);
    }
  }

  /** After a successful run each product's stock has dropped by exactly its demand. */
  lemma {:induction false} FulfilDeductsDemand(lines: seq<Line>, stock: map<int, int>, price: map<int, int>)
    requires stock.Keys == price.Keys
    requires Fulfil(lines, stock, price).Ok?
    ensures forall id | id in stock :: Fulfil(lines, stock, price).value[id] == stock[id] - Demand(lines, id)
    decreases |lines|
  {
    if lines != [] {
      var line := lines[0];
      var next := stock[line.productId := stock[line.productId] - line.quantity];
      FulfilDeductsDemand(lines[1..], next, price);
    }
  }

  /** Every line names a product of the catalog and asks for a positive quantity. */
  predicate LinesWellFormed(lines: seq<Line>, stock: map<int, int>) {
    forall k | 0 <= k < |lines| :: lines[k].productId in stock && lines[k].quantity > 0
  }

  /** No product is asked for more than it has, summed over the lines that name it. */
  predicate WithinStock(lines: seq<Line>, stock: map<int, int>) {
    forall id | id in stock :: Demand(lines, id) <= stock[id]
  }

  lemma LinesWellFormedCons(lines: seq<Line>, stock: map<int, int>)
    requires lines != []
    ensures LinesWellFormed(lines, stock) <==>
              lines[0].productId in stock && lines[0].quantity > 0 && LinesWellFormed(lines[1..], stock)
  {
    assert forall k | 1 <= k < |lines| :: lines[k] == lines[1..][k - 1];
  }

  /** Once the first line is served, the rest must fit in what is left. */
  lemma WithinStockCons(lines: seq<Line>, stock: map<int, int>)
    requires lines != [] && lines[0].productId in stock && lines[0].quantity <= stock[lines[0].productId]
    ensures WithinStock(lines, stock) <==>
              WithinStock(lines[1..], stock[lines[0].productId := stock[lines[0].productId] - lines[0].quantity])
  {
    var line := lines[0];
    var next := stock[line.productId := stock[line.productId] - line.quantity];
    assert forall id | id in stock :: Demand(lines, id) == (if id == line.productId then line.quantity else 0) + Demand(lines[1..], id);
    assert forall id | id in stock :: next[id] == (if id == line.productId then stock[id] - line.quantity else stock[id]);
  }

  /**
   * With positive prices and non-negative stock, the lines go through exactly when every
   * line names a known product with a positive quantity and no product is asked for more
   * than it has in stock, summed over all the lines that name it.
   */
  lemma {:induction false} FulfilSucceedsIff(lines: seq<Line>, stock: map<int, int>, price: map<int, int>)
    requires stock.Keys == price.Keys
    requires forall id | id in price :: price[id] > 0
    requires forall id | id in stock :: stock[id] >= 0
    ensures Fulfil(lines, stock, price).Ok? <==> LinesWellFormed(lines, stock) && WithinStock(lines, stock)
    decreases |lines|
  {
    if lines != [] {
      var line := lines[0];
      LinesWellFormedCons(lines, stock);
      if line.productId in stock && line.quantity > 0 && line.quantity <= stock[line.productId] {
        var next := stock[line.productId := stock[line.productId] - line.quantity];
        FulfilSucceedsIff(lines[1..], next, price);
        WithinStockCons(lines, stock);
        assert LinesWellFormed(lines[1..], stock) == LinesWellFormed(lines[1..], next);
      } else if line.productId in stock && line.quantity > 0 && LinesWellFormed(lines, stock) {
        DemandNonNegative(lines[1..], line.productId);
        assert Demand(lines, line.productId) > stock[line.productId];
      }
    }
  }

  /** Running the lines from `i` is one step on line `i`, then the rest from `i + 1`. */
  lemma FulfilFrom(lines: seq<Line>, i: nat, stock: map<int, int>, price: map<int, int>)
    requires i < |lines| && stock.Keys == price.Keys
    ensures Fulfil(lines[i..], stock, price)
            == match Step(lines[i], stock, price)
               case Err(e) => Err(e)
               case Ok(next) => Fulfil(lines[i + 1..], next, price)
  {
    assert lines[i..][0] == lines[i] && lines[i..][1..] == lines[i + 1..];
  }

  /** The item built for `line`: that product, at its catalog price, in that quantity. */
  predicate ItemFor(item: Orders.OrderItem, line: Line, products: map<int, Catalog.Product>, price: map<int, int>) {
    && line.productId in products && line.productId in price
    && item.product == products[line.productId]
    && item.unitPrice == price[line.productId]
    && item.quantity == line.quantity
  }

  /** One item per line, in line order, each built for its line. */
  predicate ItemsFor(items: seq<Orders.OrderItem>, lines: seq<Line>, products: map<int, Catalog.Product>, price: map<int, int>) {
    |items| == |lines| && forall k | 0 <= k < |items| :: ItemFor(items[k], lines[k], products, price)
  }

  lemma ItemsForAppend(items: seq<Orders.OrderItem>, item: Orders.OrderItem, lines: seq<Line>, i: nat,
                       products: map<int, Catalog.Product>, price: map<int, int>)
    requires i < |lines| && ItemsFor(items, lines[..i], products, price)
    requires ItemFor(item, lines[i], products, price)
    ensures ItemsFor(items + [item], lines[..i + 1], products, price)
  {
    assert forall k | 0 <= k < i :: (items + [item])[k] == items[k] && lines[..i + 1][k] == lines[..i][k];
  }

  /** Items built line by line carry, between them, exactly the lines' total. */
  lemma {:induction false} ItemsForTotal(items: seq<Orders.OrderItem>, lines: seq<Line>,
                                         products: map<int, Catalog.Product>, price: map<int, int>)
    requires ItemsFor(items, lines, products, price)
    ensures Orders.RecalculatedTotal(items) == LinesTotal(lines, price)
    decreases |items|
  {
    if items != [] {
      var n := |items| - 1;
      assert forall k | 0 <= k < n :: items[..n][k] == items[k] && lines[..n][k] == lines[k];
      ItemsForTotal(items[..n], lines[..n], products, price);
      assert items[..n] + [items[n]] == items;
      Orders.TotalAppend(items[..n], items[n]);
    }
  }

  /** Every product's current stock, by id. */
  function StockOf(products: map<int, Catalog.Product>): (s: map<int, int>)
    reads products.Values
    ensures s.Keys == products.Keys
  {
    map id | id in products :: products[id].stock
  }

  /** The stock map reads only the products: leave them alone and it stays the same. */
  twostate lemma StockOfUnchanged(products: map<int, Catalog.Product>)
    requires unchanged(products.Values)
    ensures StockOf(products) == old(StockOf(products))
  {
  }

  /** Every product's price in cents, by id. */
  function PriceOf(products: map<int, Catalog.Product>): (p: map<int, int>)
    ensures p.Keys == products.Keys
  {
    map id | id in products :: products[id].priceCents
  }

  /**
   * On a catalog of valid products, the snapshot `execute` works from meets the hypotheses
   * of FulfilSucceedsIff: every price is positive and is the price string's value in cents,
   * and every stock is non-negative. The order then goes through exactly when its lines are
   * well formed and within stock.
   */
  lemma ValidCatalogSnapshot(products: map<int, Catalog.Product>, lines: seq<Line>)
    requires forall p | p in products.Values :: p.Valid()
    ensures forall id | id in products ::
              PriceOf(products)[id] > 0 && Money.ParseCents(products[id].price) == Some(PriceOf(products)[id])
    ensures forall id | id in products :: StockOf(products)[id] >= 0
    ensures Fulfil(lines, StockOf(products), PriceOf(products)).Ok?
            <==> LinesWellFormed(lines, StockOf(products)) && WithinStock(lines, StockOf(products))
  {
    forall id | id in products
      ensures PriceOf(products)[id] > 0 && Money.ParseCents(products[id].price) == Some(PriceOf(products)[id])
      ensures StockOf(products)[id] >= 0
    {
      assert products[id] in products.Values;
    }
    FulfilSucceedsIff(lines, StockOf(products), PriceOf(products));
  }

  /** A map that agrees with `m` everywhere except at `k`, where it holds `v`, is `m[k := v]`. */
  lemma UpdateOne(after: map<int, int>, m: map<int, int>, k: int, v: int)
    requires after.Keys == m.Keys && k in m && after[k] == v
    requires forall id | id in m && id != k :: after[id] == m[id]
    ensures after == m[k := v]
  {
    assert after.Keys == m[k := v].Keys;
    assert forall id | id in after :: after[id] == m[k := v][id];
  }

  class CreateOrderService {
    const orderRepository: Repositories.OrderRepository
    const productRepository: Repositories.ProductRepository

    constructor (orderRepository: Repositories.OrderRepository, productRepository: Repositories.ProductRepository)
      ensures this.orderRepository == orderRepository && this.productRepository == productRepository
    {
      this.orderRepository := orderRepository;
      this.productRepository := productRepository;
    }

    /**
     * The first part of the loop body for one line: look the product up, build the item
     * at the product's current price, then decrease the product's stock.
     */
    method TakeLine(line: Line, price: map<int, int>) returns (r: Result<Orders.OrderItem>)
      requires productRepository.OnePerId()
      requires price == PriceOf(productRepository.products)
      modifies productRepository.products.Values
      ensures var step := old(Step(line, StockOf(productRepository.products), price));
              && (r.Ok? <==> step.Ok?)
              && (r.Err? ==> r.error == step.error)
              && (r.Ok? ==> StockOf(productRepository.products) == step.value)
      ensures r.Ok? ==>
                && line.productId in productRepository.products
                && fresh(r.value) && r.value.Valid() && r.value.parentOrder == null
                && r.value.product == productRepository.products[line.productId]
                && r.value.unitPrice == price[line.productId]
                && r.value.quantity == line.quantity
    {
      var products := productRepository.products;
      if line.productId !in products {
        return Err(ProductNotFound);
      }
      var product := products[line.productId];
      var item := Orders.OrderItem.Create(product, product.priceCents, line.quantity);
      if item.Err? {
        return Err(item.error);
      }
      ghost var before := StockOf(products);
      var decreased := product.DecreaseStock(line.quantity);
      if decreased.Fail? {
        return Err(decreased.error);
      }
      ghost var after := StockOf(products);
      forall id | id in products && id != line.productId
        ensures after[id] == before[id]
      {
        assert products[id] != product;
      }
      UpdateOne(after, before, line.productId, before[line.productId] - line.quantity);
      return item;
    }

    /**
     * The whole loop body for one line: take the line, then add its item to the order. On
     * success the order has grown by one item built for the line, owned by the order, and
     * its total by that item's subtotal.
     */
    method AddLine(order: Orders.Order, line: Line, price: map<int, int>) returns (r: Result<Orders.OrderItem>)
      requires productRepository.OnePerId()
      requires price == PriceOf(productRepository.products)
      requires order.Valid() && order.status == Pending
      modifies productRepository.products.Values, order`items, order`total
      ensures var step := old(Step(line, StockOf(productRepository.products), price));
              && (r.Ok? <==> step.Ok?)
              && (r.Err? ==> r.error == step.error)
              && (r.Ok? ==> StockOf(productRepository.products) == step.value)
      ensures order.Valid()
      ensures r.Ok? ==>
                && order.items == old(order.items) + [r.value]
                && ItemFor(r.value, line, productRepository.products, price)
    {
      var item := TakeLine(line, price);
      if item.Err? {
        return item;
      }
      assert order.Valid() && item.value.Valid() && item.value !in order.items;
      label taken:
      var added := order.AddItem(item.value);
      StockOfUnchanged@taken(productRepository.products);
      return item;
    }

    /**
     * The loop of `execute`: each line in command order goes through AddLine; the first
     * failing line ends the loop with its error.
     */
    method AddLines(order: Orders.Order, lines: seq<Line>, price: map<int, int>) returns (r: Outcome)
      requires productRepository.OnePerId()
      requires price == PriceOf(productRepository.products)
      requires order.Valid() && order.status == Pending && order.items == [] && order.total == 0
      modifies productRepository.products.Values, order`items, order`total
      ensures var plan := old(Fulfil(lines, StockOf(productRepository.products), price));
              && (r.Pass? <==> plan.Ok?)
              && (r.Fail? ==> r.error == plan.error)
              && (r.Pass? ==> StockOf(productRepository.products) == plan.value)
      ensures order.Valid()
      ensures r.Pass? ==>
                && ItemsFor(order.items, lines, productRepository.products, price)
                && order.total == LinesTotal(lines, price)
    {
      var products := productRepository.products;
      ghost var plan := Fulfil(lines, StockOf(products), price);
      var i := 0;
      while i < |lines|
        invariant 0 <= i <= |lines|
        invariant Fulfil(lines[i..], StockOf(products), price) == plan
        invariant order.Valid()
        invariant ItemsFor(order.items, lines[..i], products, price)
      {
        FulfilFrom(lines, i, StockOf(products), price);
        ghost var held := order.items;
        var added := AddLine(order, lines[i], price);
        if added.Err? {
          return Fail(added.error);
        }
        ItemsForAppend(held, added.value, lines, i, products, price);
        i := i + 1;
      }
      assert lines[..i] == lines;
      ItemsForTotal(order.items, lines, products, price);
      return Pass;
    }

    /**
     * `execute($command)`: builds the order, then for each line in command order looks the
     * product up, builds an item at the product's current price, decreases the stock and
     * adds the item; saves once after the last line. The first failing line decides the
     * error, and a failure never reaches `save`.
     */
    method Execute(customerId: string, lines: seq<Line>, now: int) returns (r: Result<Orders.Order>)
      requires productRepository.OnePerId()
      modifies orderRepository`saved, productRepository.products.Values
      ensures var plan := Fulfil(lines, old(StockOf(productRepository.products)), PriceOf(productRepository.products));
              r.Ok? <==> !IsBlank(customerId) && plan.Ok?
      ensures IsBlank(customerId) ==>
                r == Err(Orders.CustomerIdEmpty) && unchanged(productRepository.products.Values)
      ensures var plan := Fulfil(lines, old(StockOf(productRepository.products)), PriceOf(productRepository.products));
              !IsBlank(customerId) && plan.Err? ==> r == Err(plan.error)
      ensures r.Err? ==> orderRepository.saved == old(orderRepository.saved)
      ensures r.Ok? ==>
                var order := r.value;
                var products := productRepository.products;
                && fresh(order) && order.Valid()
                && order.customerId == customerId && order.createdAt == now && order.status == Pending
                && ItemsFor(order.items, lines, products, PriceOf(products))
                && order.total == LinesTotal(lines, PriceOf(products))
                && StockOf(products) == Fulfil(lines, old(StockOf(products)), PriceOf(products)).value
                && orderRepository.saved == old(orderRepository.saved) + [order]
    {
      var price := PriceOf(productRepository.products);
      var created := Orders.Order.Create(customerId, now);
      if created.Err? {
        return Err(created.error);
      }
      var order := created.value;
      var added := AddLines(order, lines, price);
      if added.Fail? {
        return Err(added.error);
      }
      orderRepository.Save(order);
      return Ok(order);
    }
  }
}
