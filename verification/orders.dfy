/**
 * The order aggregate: line items that snapshot a unit price and a quantity, and the
 * order that owns them, keeps their total and moves from pending to paid.
 */
module Orders {
  import opened Outcomes
  import opened Text
  import opened Money
  import opened Statuses
  import Catalog

  const UnitPriceNotPositive := InvalidArgument("Unit price must be greater than zero")
  const CustomerIdEmpty := InvalidArgument("Customer ID cannot be empty")
  const PaidOrderImmutable := DomainViolation("Cannot modify a paid order")
  const NotPending := DomainViolation("Order is not in pending state")
  const NoItems := DomainViolation("Order must have at least one item")
  const TotalNotPositive := DomainViolation("Order total must be greater than zero")

  /** The OrderItem constructor's checks, quantity first, then unit price. */
  function ItemRefusal(unitPrice: int, quantity: int): (r: Option<Error>)
    ensures r == None <==> quantity > 0 && unitPrice > 0
    ensures quantity <= 0 ==> r == Some(Catalog.QuantityNotPositive)
    ensures quantity > 0 && unitPrice <= 0 ==> r == Some(UnitPriceNotPositive)
  {
    if quantity <= 0 then Some(Catalog.QuantityNotPositive)
    else if unitPrice <= 0 then Some(UnitPriceNotPositive)
    else None
  }

  /** The guards of `pay`, in order: pending state, at least one item, positive total. */
  function PayRefusal(status: OrderStatus, itemCount: nat, total: int): (r: Option<Error>)
    ensures r == None <==> status == Pending && itemCount > 0 && total > 0
    ensures status != Pending ==> r == Some(NotPending)
    ensures status == Pending && itemCount == 0 ==> r == Some(NoItems)
    ensures status == Pending && itemCount > 0 && total <= 0 ==> r == Some(TotalNotPositive)
  {
    if status != Pending then Some(NotPending)
    else if itemCount == 0 then Some(NoItems)
    else if total <= 0 then Some(TotalNotPositive)
    else None
  }

  class OrderItem {
    const product: Catalog.Product
    /** The unit price in cents, captured when the item is built. */
    const unitPrice: int
    const quantity: int
    /** The owning order; null until `setParentOrder` runs (an unset typed property in PHP). */
    var parentOrder: Order?

    predicate Valid() {
      quantity > 0 && unitPrice > 0
    }

    constructor (product: Catalog.Product, unitPrice: int, quantity: int)
      requires ItemRefusal(unitPrice, quantity) == None
      ensures this.product == product && this.unitPrice == unitPrice && this.quantity == quantity
      ensures parentOrder == null && Valid()
    {
      this.product := product;
      this.unitPrice := unitPrice;
      this.quantity := quantity;
      parentOrder := null;
    }

    /** `new OrderItem($product, $unitPrice, $quantity)`, with the exception as an Err. */
    static method Create(product: Catalog.Product, unitPrice: int, quantity: int) returns (r: Result<OrderItem>)
      ensures r.Err? <==> ItemRefusal(unitPrice, quantity).Some?
      ensures r.Err? ==> Some(r.error) == ItemRefusal(unitPrice, quantity)
      ensures r.Ok? ==> fresh(r.value) && r.value.Valid() && r.value.parentOrder == null
      ensures r.Ok? ==> r.value.product == product && r.value.unitPrice == unitPrice && r.value.quantity == quantity
    {
      var refusal := ItemRefusal(unitPrice, quantity);
      if refusal.Some? {
        return Err(refusal.value);
      }
      var item := new OrderItem(product, unitPrice, quantity);
      return Ok(item);
    }

    /**
     * `getSubtotal`: unit price times quantity. It reads only the item's own constants,
     * never the product, so a later price change cannot reach it.
     */
    function Subtotal(): (s: int)
      ensures Valid() ==> s >= unitPrice > 0 && s >= quantity
    {
      unitPrice * quantity
    }

    /** The subtotal as the two-decimal string `bcmul` returns; it reads back as the subtotal. */
    function SubtotalText(): (t: string)
      requires Valid()
      ensures ParseCents(t) == Some(Subtotal())
    {
      FormatThenParse(Subtotal());
      FormatCents(Subtotal())
    }

    /** `setParentOrder`: only the back-reference changes. */
    method SetParentOrder(order: Order)
      modifies this`parentOrder
      ensures parentOrder == order
    {
      parentOrder := order;
    }
  }

  /** The sum of the items' subtotals, as arithmetic states it. */
  function SubtotalSum(items: seq<OrderItem>): (s: int)
    decreases |items|
  {
    if items == [] then 0 else items[0].Subtotal() + SubtotalSum(items[1..])
  }

  /**
   * `recalculateTotal`'s reduce: left to right, adding each item's subtotal to the carry.
   * Whatever the carry, it adds exactly the sum of the subtotals.
   */
  function Reduce(items: seq<OrderItem>, carry: int): (r: int)
    ensures r == carry + SubtotalSum(items)
    decreases |items|
  {
    if items == [] then carry else Reduce(items[1..], carry + items[0].Subtotal())
  }

  /** The total recalculated from the items, starting from "0.00": the sum of their subtotals. */
  function RecalculatedTotal(items: seq<OrderItem>): (t: int)
    ensures t == SubtotalSum(items)
  {
    Reduce(items, 0)
  }

  /** Appending an item adds exactly its subtotal to the recalculated total. */
  lemma {:induction false} TotalAppend(items: seq<OrderItem>, item: OrderItem)
    ensures RecalculatedTotal(items + [item]) == RecalculatedTotal(items) + item.Subtotal()
    decreases |items|
  {
    if items == [] {
      assert items + [item] == [item] && [item][1..] == [];
    } else {
      assert (items + [item])[1..] == items[1..] + [item];
      TotalAppend(items[1..], item);
    }
  }

  /** Each valid item adds at least one cent, so a non-empty order has a positive total. */
  lemma {:induction false} TotalAtLeastItemCount(items: seq<OrderItem>)
    requires forall i | 0 <= i < |items| :: items[i].Valid()
    ensures RecalculatedTotal(items) >= |items|
    ensures items != [] ==> RecalculatedTotal(items) > 0
    decreases |items|
  {
    if items != [] {
      TotalAtLeastItemCount(items[1..]);
    }
  }

  class Order {
    const customerId: string
    /** The creation time, an opaque value supplied by the caller's clock. */
    const createdAt: int
    var status: OrderStatus
    var items: seq<OrderItem>
    /** The total in cents. */
    var total: int

    /**
     * The aggregate's invariant: a non-blank owner, valid items held at most once each
     * and each pointing back at this order, and a total equal to the recalculated sum of
     * their subtotals.
     */
    predicate Valid()
      reads this, items
    {
      && !IsBlank(customerId)
      && (forall i | 0 <= i < |items| :: items[i].Valid() && items[i].parentOrder == this)
      && (forall i, j | 0 <= i < j < |items| :: items[i] != items[j])
      && total == RecalculatedTotal(items)
    }

    constructor (customerId: string, createdAt: int)
      requires !IsBlank(customerId)
      ensures this.customerId == customerId && this.createdAt == createdAt
      ensures status == Pending && items == [] && total == 0
      ensures Valid()
    {
      this.customerId := customerId;
      this.createdAt := createdAt;
      status := Pending;
      items := [];
      total := 0;
    }

    /** `new Order($customerId, $createdAt)`, with the exception as an Err. */
    static method Create(customerId: string, createdAt: int) returns (r: Result<Order>)
      ensures r.Err? <==> IsBlank(customerId)
      ensures r.Err? ==> r.error == CustomerIdEmpty
      ensures r.Ok? ==> fresh(r.value) && r.value.Valid()
      ensures r.Ok? ==> r.value.customerId == customerId && r.value.createdAt == createdAt
      ensures r.Ok? ==> r.value.status == Pending && r.value.items == [] && r.value.total == 0
    {
      if IsBlank(customerId) {
        return Err(CustomerIdEmpty);
      }
      var order := new Order(customerId, createdAt);
      return Ok(order);
    }

    /** `getTotal`: the total as a two-decimal string that reads back as the total. */
    function TotalText(): (t: string)
      reads this
      requires total >= 0
      ensures ParseCents(t) == Some(total)
    {
      FormatThenParse(total);
      FormatCents(total)
    }

    /**
     * `addItem`: refused only when the order is paid; an item already held (the same
     * object) changes nothing; a new item is appended, pointed back at this order, and
     * the total recalculated over all items.
     */
    method AddItem(item: OrderItem) returns (r: Outcome)
      modifies this`items, this`total, item`parentOrder
      ensures r == if old(status) == Paid then Fail(PaidOrderImmutable) else Pass
      ensures old(status) == Paid || item in old(items) ==>
                items == old(items) && total == old(total) && item.parentOrder == old(item.parentOrder)
      ensures old(status) != Paid && item !in old(items) ==>
                items == old(items) + [item] && item.parentOrder == this
                && total == RecalculatedTotal(items)
      ensures old(Valid()) && item.Valid() ==> Valid() && total == old(total) + (if items == old(items) then 0 else item.Subtotal())
    {
      if status == Paid {
        return Fail(PaidOrderImmutable);
      }
      if item !in items {
        items := items + [item];
        item.SetParentOrder(this);
        total := RecalculatedTotal(items);
        TotalAppend(old(items), item);
      }
      return Pass;
    }

    /** `pay`: the only status change; on any refusal the order is left as it was. */
    method Pay() returns (r: Outcome)
      modifies this`status
      ensures r.Pass? <==> PayRefusal(old(status), |items|, total) == None
      ensures r.Fail? ==> Some(r.error) == PayRefusal(old(status), |items|, total)
      ensures status == if r.Pass? then Paid else old(status)
    {
      var refusal := PayRefusal(status, |items|, total);
      if refusal.Some? {
        return Fail(refusal.value);
      }
      status := Paid;
      return Pass;
    }
  }

  /**
   * On a valid order the positive-total guard of `pay` never decides anything: payment
   * is refused exactly when the order is not pending or has no items.
   */
  lemma PayableIffPendingWithItems(status: OrderStatus, items: seq<OrderItem>)
    requires forall i | 0 <= i < |items| :: items[i].Valid()
    ensures PayRefusal(status, |items|, RecalculatedTotal(items)) == None <==> status == Pending && items != []
    ensures PayRefusal(status, |items|, RecalculatedTotal(items)) != Some(TotalNotPositive)
  {
    TotalAtLeastItemCount(items);
  }
}
