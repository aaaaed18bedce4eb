/** Records shared by the store, the cart service and the controllers
    (backend/src/models/types.ts), plus the Option/Result wrappers used for
    absent rows and thrown errors. */
module Types {

  datatype Option<+T> = None | Some(value: T)

  /** A service call either resolves with a value or throws an error. */
  datatype Result<+T, +E> = Ok(value: T) | Err(error: E)

  /** Cart and line-item identifiers. The store mints them from a counter. */
  type Id = nat

  /** A catalog product; prices are whole cents. */
  datatype Product = Product(
    id: string,
    name: string,
    description: string,
    price: int,
    priceSale: Option<int>,
    imageUrl: Option<string>)

  /** A stored line-item row: one (cart, product, quantity) entry. */
  datatype LineItem = LineItem(id: Id, cartId: Id, productId: string, quantity: int)

  /** A stored cart row. Its line items live in their own table. */
  datatype CartRow = CartRow(id: Id, userId: string)

  /** One entry of the aggregate: a line item joined with its product. */
  datatype CartLine = CartLine(
    id: Id,
    productId: string,
    name: string,
    price: int,
    imageUrl: Option<string>,
    quantity: int)

  /** The aggregate cart the service returns to the controllers. */
  datatype Cart = Cart(id: Id, userId: string, items: seq<CartLine>, total: int, itemCount: int)

  /** A thrown error; the controllers only look at its message. */
  datatype Error = Error(message: string)

  const ProductNotFound: string := "Product not found"

  /** The message of the ORM's error when a delete matches no row. */
  const RecordToDeleteMissing: string := "Record to delete does not exist."
}
