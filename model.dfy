/**
 * The record shapes the point-of-sale front end passes around. JavaScript
 * objects become datatypes; a field that may be missing becomes an Option.
 */
module Model {

  datatype Option<+T> = None | Some(value: T) {
    function GetOr(default: T): T {
      match this
      case Some(v) => v
      case None => default
    }
  }

  /** A price field is either a JavaScript number or a display string such as "Rp 25.000". */
  datatype PriceValue = Amount(n: int) | Text(s: string)

  /** A catalog entry; `stock` is None when the field is missing. */
  datatype Product = Product(
    id: int,
    name: string,
    category: string,
    price: PriceValue,
    duration: string,
    rating: real,
    image: string,
    stock: Option<int>)

  datatype Customer = Customer(
    id: int,
    name: string,
    email: string,
    phone: string,
    totalOrders: int,
    totalSpent: string)

  /** A cart line: the product's fields spread into the line, plus a quantity. */
  datatype CartItem = CartItem(product: Product, quantity: int) {
    function Id(): int { product.id }
  }

  /** A sale in the transaction log, as recorded by the checkout page. */
  datatype Transaction = Transaction(
    id: int,
    items: seq<CartItem>,
    total: int,
    paymentMethod: string,
    customer: Option<Customer>,
    date: string)

  /**
   * A stored tax percentage: the number of the default settings, or the text
   * of the settings form's number input (saved as a string), together with
   * the number that text denotes. The browser hands such an input either ""
   * or the text of a valid number.
   */
  datatype TaxSetting = Number(x: real) | Input(text: string, x: real)

  /** Store settings; `taxPercentage` is None when missing. */
  datatype Settings = Settings(
    storeName: string,
    taxPercentage: Option<TaxSetting>,
    currency: string,
    darkMode: bool)
}
