/**
 * One product tile of the storefront: a quantity stepper bounded by the listed
 * stock, and an "Add to Cart" button that re-reads the stock from the product
 * service before handing the product to the cart. The fresh stock figure is an
 * input (`StockFetch`) and the toasts are returned as `Notice` values.
 */
module ProductCard {
  import opened Optional
  import opened Text
  import opened Products

  /** The single-product request: a non-ok response or thrown error, or the fresh `stockQuantity`. */
  datatype StockFetch = Failed | Stock(n: int)

  /** The toasts the tile can emit. */
  datatype Notice =
    | NowOutOfStock
    | OnlyAvailable(available: int)
    | CheckFailed
    | MaximumAvailable(available: int)

  /** The toast text the user sees; the two stock toasts quote the stock figure. */
  function NoticeText(notice: Notice): (r: string)
    ensures |r| >= 1 && r[0] == Initial(notice)
    ensures notice.OnlyAvailable? || notice.MaximumAvailable? ==> Contains(r, IntToText(notice.available))
  {
    match notice
    case NowOutOfStock => "This product is now out of stock"
    case OnlyAvailable(k) =>
      var r := "Only " + IntToText(k) + " items available";
      assert OccursAt(r, IntToText(k), 5);
      r
    case CheckFailed => "Failed to check availability"
    case MaximumAvailable(k) =>
      var r := "Maximum available: " + IntToText(k);
      assert OccursAt(r, IntToText(k), 19);
      r
  }

  /** The first letter of each toast, which tells the four kinds apart. */
  function Initial(notice: Notice): char {
    match notice
    case NowOutOfStock => 'T'
    case OnlyAvailable(_) => 'O'
    case CheckFailed => 'F'
    case MaximumAvailable(_) => 'M'
  }

  /** No two notices share a text: the toast tells the user which check failed and the exact figure. */
  lemma NoticeTextInjective(a: Notice, b: Notice)
    requires NoticeText(a) == NoticeText(b)
    ensures a == b
  {
    var r := NoticeText(a);
    assert Initial(a) == Initial(b);
    if a.OnlyAvailable? {
      var x, y := IntToText(a.available), IntToText(b.available);
      assert |x| == |y|;
      assert r[5..5 + |x|] == x;
      assert NoticeText(b)[5..5 + |y|] == y;
      IntToTextInjective(a.available, b.available);
    } else if a.MaximumAvailable? {
      var x, y := IntToText(a.available), IntToText(b.available);
      assert r[19..] == x;
      assert NoticeText(b)[19..] == y;
      IntToTextInjective(a.available, b.available);
    }
  }

  /** Pressing "Add to Cart" ends in a toast, or in a call of the add callback with these arguments. */
  datatype AddOutcome = Notified(notice: Notice) | CallbackCalled(product: Product, quantity: int)

  /** The discount percentage, a missing or zero one counting as 0 (`product.discount || 0`). */
  function DiscountPercent(p: Product): (r: real)
    ensures p.discount.None? ==> r == 0.0
    ensures p.discount.Some? ==> r == p.discount.value
  {
    if p.discount.Some? then p.discount.value else 0.0
  }

  /** The price shown on the tile. */
  function DiscountedPrice(p: Product): (r: real)
    ensures DiscountPercent(p) == 0.0 ==> r == p.price
    ensures DiscountPercent(p) == 100.0 ==> r == 0.0
  {
    p.price - (p.price * DiscountPercent(p)) / 100.0
  }

  /**
   * The tile charges the fraction (1 − d/100) of the price; with a percentage in
   * [0, 100] and a non-negative price that lies between 0 and the price.
   */
  lemma DiscountedPriceBounds(p: Product)
    ensures DiscountedPrice(p) == p.price * (1.0 - DiscountPercent(p) / 100.0)
    ensures p.discount.None? ==> DiscountedPrice(p) == p.price
    ensures p.price >= 0.0 && 0.0 <= DiscountPercent(p) <= 100.0 ==>
              0.0 <= DiscountedPrice(p) <= p.price
  {
    var d := DiscountPercent(p);
    if p.price >= 0.0 && 0.0 <= d <= 100.0 {
      var cut := (p.price * d) / 100.0;
      assert p.price * d <= p.price * 100.0 by {
        assert p.price * (100.0 - d) >= 0.0;
      }
      assert 0.0 <= p.price * d;
      assert 0.0 <= cut <= p.price;
      assert DiscountedPrice(p) == p.price - cut;
    }
  }

  class Card {
    const product: Product
    var quantity: int
    var isAdded: bool
    var isOutOfStock: bool

    /**
     * The stepper keeps the chosen quantity at 1 or more, and at most the listed
     * stock whenever that is positive.
     */
    ghost predicate Valid()
      reads this
    {
      && quantity >= 1
      && (product.stockQuantity > 0 ==> quantity <= product.stockQuantity)
    }

    /** The initial state of the tile's hooks. */
    constructor (product: Product)
      ensures this.product == product && Valid()
      ensures quantity == 1 && !isAdded
      ensures isOutOfStock <==> product.stockQuantity == 0
    {
      this.product := product;
      quantity := 1;
      isAdded := false;
      isOutOfStock := product.stockQuantity == 0;
    }

    /**
     * The stepper is rendered only while the tile is not out of stock; when the
     * listed stock leaves room for more than one item, a shown stepper always has
     * a usable button.
     */
    predicate StepperShown()
      reads this
      ensures Valid() && StepperShown() && product.stockQuantity > 1 ==> DecreaseEnabled() || IncreaseEnabled()
    {
      !isOutOfStock
    }

    /** The minus button is disabled at quantity 1 or below. */
    predicate DecreaseEnabled()
      reads this
      ensures Valid() ==> (DecreaseEnabled() <==> quantity != 1)
    {
      quantity > 1
    }

    /** The plus button is disabled once the quantity reaches the listed stock. */
    predicate IncreaseEnabled()
      reads this
      ensures Valid() && product.stockQuantity > 0 ==> (IncreaseEnabled() <==> quantity != product.stockQuantity)
      ensures product.stockQuantity <= 1 && quantity >= 1 ==> !IncreaseEnabled()
    {
      quantity < product.stockQuantity
    }

    /**
     * The add handler. `callbackTruthy` is whether the value the add callback
     * returns is truthy; it matters only when the callback is called.
     */
    method HandleAddToCart(lookup: StockFetch, callbackTruthy: bool) returns (outcome: AddOutcome)
      requires Valid()
      modifies this
      ensures Valid()
      ensures lookup.Failed? ==> outcome == Notified(CheckFailed) && unchanged(this)
      ensures lookup == Stock(0) ==>
                outcome == Notified(NowOutOfStock) && isOutOfStock
                && quantity == old(quantity) && isAdded == old(isAdded)
      ensures lookup.Stock? && lookup.n != 0 && old(quantity) > lookup.n ==>
                outcome == Notified(OnlyAvailable(lookup.n)) && unchanged(this)
      ensures lookup.Stock? && lookup.n != 0 && old(quantity) <= lookup.n ==>
                outcome == CallbackCalled(product, old(quantity))
      ensures outcome.CallbackCalled? && callbackTruthy ==>
                isAdded && quantity == 1
                && isOutOfStock == (old(isOutOfStock) || lookup.n == old(quantity))
      ensures outcome.CallbackCalled? && !callbackTruthy ==> unchanged(this)
      ensures outcome.CallbackCalled? ==> 1 <= outcome.quantity <= lookup.n
      ensures old(isOutOfStock) ==> isOutOfStock
      ensures lookup == Stock(0) ==> !StepperShown()
    {
      match lookup {
        case Failed =>
          outcome := Notified(CheckFailed);
        case Stock(currentStock) =>
          if currentStock == 0 {
            isOutOfStock := true;
            outcome := Notified(NowOutOfStock);
            return;
          }
          if quantity > currentStock {
            outcome := Notified(OnlyAvailable(currentStock));
            return;
          }
          outcome := CallbackCalled(product, quantity);
          var success := callbackTruthy;
          if success {
            // the closure still sees the quantity the user had chosen
            var requested := quantity;
            isAdded := true;
            quantity := 1;
            if currentStock - requested == 0 {
              isOutOfStock := true;
            }
          }
      }
    }

    /** The stepper's change handler: values below 1 are ignored, values above a positive listed stock rejected. */
    method HandleQuantityChange(newQuantity: int) returns (notice: Option<Notice>)
      requires Valid()
      modifies this`quantity
      ensures Valid()
      ensures newQuantity < 1 ==> notice == None && quantity == old(quantity)
      ensures newQuantity >= 1 && 0 < product.stockQuantity < newQuantity ==>
                notice == Some(MaximumAvailable(product.stockQuantity)) && quantity == old(quantity)
      ensures newQuantity >= 1 && !(0 < product.stockQuantity < newQuantity) ==>
                notice == None && quantity == newQuantity
    {
      notice := None;
      if newQuantity < 1 {
        return;
      }
      if product.stockQuantity > 0 && newQuantity > product.stockQuantity {
        notice := Some(MaximumAvailable(product.stockQuantity));
        return;
      }
      quantity := newQuantity;
    }

    /** The minus button: one less, never below 1. */
    method PressDecrease()
      requires Valid() && StepperShown() && DecreaseEnabled()
      modifies this`quantity
      ensures Valid() && quantity == old(quantity) - 1
    {
      var _ := HandleQuantityChange(quantity - 1);
    }

    /** The plus button: one more, never beyond the listed stock, and no toast. */
    method PressIncrease() returns (notice: Option<Notice>)
      requires Valid() && StepperShown() && IncreaseEnabled()
      modifies this`quantity
      ensures Valid() && quantity == old(quantity) + 1
      ensures quantity <= product.stockQuantity && notice == None
    {
      notice := HandleQuantityChange(quantity + 1);
    }
  }
}
