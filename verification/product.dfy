/** The catalog entity: a named product with a price string and a stock count. */
module Catalog {
  import opened Outcomes
  import opened Text
  import opened Money

  const NameEmpty := InvalidArgument("Name cannot be empty")
  const PriceFormat := InvalidArgument("Price must be a valid decimal with up to 2 decimals")
  const PriceNotPositive := InvalidArgument("Price must be greater than zero")
  const StockNegative := InvalidArgument("Stock cannot be negative")
  const QuantityNotPositive := InvalidArgument("Quantity must be greater than zero")
  const InsufficientStock := DomainViolation("Insufficient stock")

  /**
   * The constructor's checks as the code runs them: name, price pattern, then
   * `bccomp($price, '0', 2) <= 0`, then stock. A string that passes the pattern only
   * through its final newline is not a bcmath number, and bccomp throws.
   */
  function ValidateProductAsWritten(name: string, price: string, stock: int): (r: Option<Error>)
    ensures r == None <==> !IsBlank(name) && PricePattern(price) && ParseCents(price).Some?
                           && ParseCents(price).value > 0 && stock >= 0
  {
    if IsBlank(name) then Some(NameEmpty)
    else if !PricePattern(price) then Some(PriceFormat)
    else match ParseCents(price)
      case None => Some(NotWellFormed)
      case Some(cents) =>
        if cents == 0 then Some(PriceNotPositive)
        else if stock < 0 then Some(StockNegative)
        else None
  }

  /**
   * The constructor's checks with the format check the code evidently means: every
   * failure is an InvalidArgument with the check's own message, in the order name,
   * format, positivity, stock, and a product passes exactly when its price is a
   * positive decimal with at most two fraction digits.
   */
  function ValidateProduct(name: string, price: string, stock: int): (r: Option<Error>)
    ensures r == None <==> !IsBlank(name) && ParseCents(price).Some? && ParseCents(price).value > 0
                           && stock >= 0
    ensures IsBlank(name) ==> r == Some(NameEmpty)
    ensures !IsBlank(name) && !IsDecimal(price) ==> r == Some(PriceFormat)
    ensures !IsBlank(name) && ParseCents(price) == Some(0) ==> r == Some(PriceNotPositive)
    ensures r.Some? ==> r.value.InvalidArgument?
  {
    ParseCentsDefinedIffDecimal(price);
    if IsBlank(name) then Some(NameEmpty)
    else if !IsDecimal(price) then Some(PriceFormat)
    else if ParseCents(price).value == 0 then Some(PriceNotPositive)
    else if stock < 0 then Some(StockNegative)
    else None
  }

  /**
   * The two validations accept the same products; they differ only on a decimal followed
   * by a newline, where the code throws bcmath's error instead of the format message.
   */
  lemma ValidationsDifferOnlyOnTrailingNewline(name: string, price: string, stock: int)
    ensures (ValidateProductAsWritten(name, price, stock) == None) == (ValidateProduct(name, price, stock) == None)
    ensures ValidateProductAsWritten(name, price, stock) != ValidateProduct(name, price, stock)
            <==> !IsBlank(name) && PricePattern(price) && !IsDecimal(price)
    ensures ValidateProductAsWritten(name, price, stock) != ValidateProduct(name, price, stock)
            ==> ValidateProductAsWritten(name, price, stock) == Some(NotWellFormed)
                && ValidateProduct(name, price, stock) == Some(PriceFormat)
  {
    ParseCentsDefinedIffDecimal(price);
  }

  /** "1299.99\n" passes the price pattern, and the code then fails in bcmath. */
  lemma TrailingNewlinePrice()
    ensures PricePattern("1299.99\n") && !IsDecimal("1299.99\n")
    ensures ValidateProductAsWritten("Iphone 16 Pro Max", "1299.99\n", 10) == Some(NotWellFormed)
    ensures ValidateProduct("Iphone 16 Pro Max", "1299.99\n", 10) == Some(PriceFormat)
  {
    NewlineAfterDecimal();
    BlankIffAllTrimmable("Iphone 16 Pro Max");
    assert !IsTrimmable("Iphone 16 Pro Max"[0]);
  }

  /** The string of the finding matches the pattern but is no decimal, so it has no value. */
  lemma NewlineAfterDecimal()
    ensures PricePattern("1299.99\n") && !IsDecimal("1299.99\n") && ParseCents("1299.99\n") == None
  {
    var s := "1299.99\n";
    assert s[..|s| - 1] == "1299.99";
    assert s[|s| - 1] == '\n';
    assert !IsDigit(s[|s| - 1]);
    ParseCentsDefinedIffDecimal(s);
  }

  /**
   * The guards of `decreaseStock`: a non-positive quantity is an invalid argument, a
   * quantity above the stock a domain violation; otherwise the decrease is allowed.
   */
  function StockRefusal(stock: int, quantity: int): (r: Option<Error>)
    ensures r == None <==> 0 < quantity <= stock
    ensures quantity <= 0 ==> r == Some(QuantityNotPositive)
    ensures 0 < quantity && stock < quantity ==> r == Some(InsufficientStock)
  {
    if quantity <= 0 then Some(QuantityNotPositive)
    else if stock < quantity then Some(InsufficientStock)
    else None
  }

  class Product {
    const name: string
    const price: string
    /**
     * The price's value in cents. The price string never changes, so its value is fixed
     * with it when the product is built; it is what bcmath reads from the string.
     */
    const priceCents: nat
    var stock: int

    /** Every constructed product passes its own validation; only stock ever changes. */
    predicate Valid()
      reads this
    {
      ValidateProduct(name, price, stock) == None && ParseCents(price) == Some(priceCents)
    }

    constructor (name: string, price: string, stock: int)
      requires ValidateProduct(name, price, stock) == None
      ensures this.name == name && this.price == price && this.stock == stock
      ensures Some(priceCents) == ParseCents(price) && priceCents > 0
      ensures Valid()
    {
      this.name := name;
      this.price := price;
      this.priceCents := ParseCents(price).value;
      this.stock := stock;
    }

    /** `new Product($name, $price, $stock)`, with the exception as an Err. */
    static method Create(name: string, price: string, stock: int) returns (r: Result<Product>)
      ensures r.Err? <==> ValidateProduct(name, price, stock).Some?
      ensures r.Err? ==> Some(r.error) == ValidateProduct(name, price, stock)
      ensures r.Ok? ==> fresh(r.value) && r.value.Valid()
      ensures r.Ok? ==> r.value.name == name && r.value.price == price && r.value.stock == stock
    {
      var refusal := ValidateProduct(name, price, stock);
      if refusal.Some? {
        return Err(refusal.value);
      }
      var product := new Product(name, price, stock);
      return Ok(product);
    }

    /** `decreaseStock`: either stock drops by exactly `quantity` or nothing changes. */
    method DecreaseStock(quantity: int) returns (r: Outcome)
      modifies this`stock
      ensures r.Pass? <==> StockRefusal(old(stock), quantity) == None
      ensures r.Fail? ==> Some(r.error) == StockRefusal(old(stock), quantity)
      ensures stock == if r.Pass? then old(stock) - quantity else old(stock)
      ensures old(Valid()) ==> Valid()
    {
      var refusal := StockRefusal(stock, quantity);
      if refusal.Some? {
        return Fail(refusal.value);
      }
      stock := stock - quantity;
      return Pass;
    }
  }
}
