/** The storefront's record types. Prices and totals are integer cents. */
module Types {

  /** A catalog entry. */
  datatype Product = Product(
    id: string,
    name: string,
    price: int,
    description: string,
    image: string,
    sizes: seq<string>)

  /** A cart line: a snapshot of the product taken when it was added, the
      chosen size and how many of it. */
  datatype CartItem = CartItem(product: Product, quantity: int, selectedSize: string)

  /** What the checkout form sends to the orders endpoint. */
  datatype OrderData = OrderData(
    orderId: string,
    date: string,
    customerName: string,
    email: string,
    phone: string,
    address: string,
    items: seq<CartItem>,
    total: int)

  /** `item.price * item.quantity`. */
  function LineTotal(item: CartItem): (total: int) {
    item.product.price * item.quantity
  }
}
