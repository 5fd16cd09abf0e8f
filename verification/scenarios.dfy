/** Worked cases of the order domain, each following one path through the model. */
module Scenarios {
  import opened Outcomes
  import opened Text
  import Catalog
  import Orders
  import Money
  import CreateOrder

  /** An empty name, or one of spaces only, is refused before the price is looked at. */
  lemma BlankNameRefused()
    ensures Catalog.ValidateProduct("", "1299.99", 10) == Some(Catalog.NameEmpty)
    ensures Catalog.ValidateProduct("   ", "1299.99", 10) == Some(Catalog.NameEmpty)
  {
    BlankIffAllTrimmable("   ");
  }

  /** A comma for the decimal point does not match the price pattern. */
  lemma CommaPriceRefused()
    ensures Catalog.ValidateProduct("Iphone 16 Pro Max", "1299,99", 10) == Some(Catalog.PriceFormat)
  {
    BlankIffAllTrimmable("Iphone 16 Pro Max");
    assert !IsTrimmable("Iphone 16 Pro Max"[0]);
    assert "1299,99"[4] == ',';
  }

  /** "0.00" is a well-formed price, and it is refused as not positive. */
  lemma ZeroPriceRefused()
    ensures Catalog.ValidateProduct("Iphone 16 Pro Max", "0.00", 10) == Some(Catalog.PriceNotPositive)
  {
    BlankIffAllTrimmable("Iphone 16 Pro Max");
    assert !IsTrimmable("Iphone 16 Pro Max"[0]);
    var s := "0.00";
    assert Money.DotIndex(s) == 1 by {
      assert s[1..][0] == '.';
    }
    assert s[..1] == "0" && s[2..] == "00";
  }

  /** A well-formed positive price with a negative stock fails on the stock alone. */
  lemma NegativeStockRefused()
    ensures Catalog.ValidateProduct("Iphone 16 Pro Max", "1299.99", -5) == Some(Catalog.StockNegative)
  {
    BlankIffAllTrimmable("Iphone 16 Pro Max");
    assert !IsTrimmable("Iphone 16 Pro Max"[0]);
    var s := "1299.99";
    assert Money.DotIndex(s) == 4 by {
      assert s[1..][1..][1..][1..][0] == '.';
    }
    assert s[..4] == "1299" && s[5..] == "99";
  }

  /**
   * One product priced 1299.99 with 10 in stock: a line of 3 leaves 7, a line of 2 costs
   * 2599.98, an unknown id is not found, and two lines of 6 fail on the second, because
   * the stock taken by the first line counts.
   */
  lemma OrderLines()
    ensures CreateOrder.Fulfil([CreateOrder.Line(1, 3)], map[1 := 10], map[1 := 129999]) == Ok(map[1 := 7])
    ensures CreateOrder.LinesTotal([CreateOrder.Line(1, 2)], map[1 := 129999]) == 259998
    ensures CreateOrder.Fulfil([CreateOrder.Line(999, 1)], map[1 := 10], map[1 := 129999]) == Err(ProductNotFound)
    ensures CreateOrder.Fulfil([CreateOrder.Line(1, 6), CreateOrder.Line(1, 6)], map[1 := 10], map[1 := 129999])
            == Err(Catalog.InsufficientStock)
  {
    assert map[1 := 10][1 := 10 - 3] == map[1 := 7];
    var twice := [CreateOrder.Line(1, 6), CreateOrder.Line(1, 6)];
    assert twice[1..] == [CreateOrder.Line(1, 6)];
  }

  /**
   * Two items, 999.99 × 2 and 200.00 × 1, make a total of 2199.98; the order then pays
   * once, refuses a second payment and refuses any further item.
   */
  method PendingThenPaid(first: Catalog.Product, second: Catalog.Product)
    returns (total: int, paid: Outcome, paidAgain: Outcome, addedLate: Outcome)
    ensures total == 219998
    ensures paid == Pass
    ensures paidAgain == Fail(Orders.NotPending)
    ensures addedLate == Fail(Orders.PaidOrderImmutable)
  {
    BlankIffAllTrimmable("customer1");
    assert !IsTrimmable("customer1"[0]);
    var order := new Orders.Order("customer1", 0);
    var a := new Orders.OrderItem(first, 99999, 2);
    var b := new Orders.OrderItem(second, 20000, 1);
    var _ := order.AddItem(a);
    var _ := order.AddItem(b);
    total := order.total;
    paid := order.Pay();
    paidAgain := order.Pay();
    var late := new Orders.OrderItem(first, 99999, 1);
    addedLate := order.AddItem(late);
  }
}
