/**
 * The records the storefront passes around: a product as the product service
 * returns it, and a cart line, which is the product's fields spread into a new
 * object together with a `quantity` (`{ ...product, quantity }`).
 */
module Products {
  import opened Optional

  /**
   * A product record. Optional fields are `None` when the service leaves them
   * out; `category` is `Some` only when it is a string. Prices are exact reals.
   */
  datatype Product = Product(
    id: int,
    name: string,
    description: string,
    category: Option<string>,
    price: real,
    discount: Option<real>,
    finalPrice: Option<real>,
    stockQuantity: int,
    imageUrl: Option<string>)

  /** A cart line: a snapshot of the product plus the quantity ordered. */
  datatype CartLine = CartLine(item: Product, quantity: int) {
    function Id(): int { item.id }
  }
}
