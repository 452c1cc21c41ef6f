/**
 * The rows of the five tables (User, Product, Review, Order, OrderItem), the
 * values an API payload or response carries, the caller of an endpoint and
 * the HTTP status an endpoint answers with.
 *
 * Prices are fixed-point numbers with two decimals; they are kept as integer
 * cents. Instants (created_at, processed_at) are supplied from outside.
 */
module Records {
  import opened Wrappers

  type UserId = nat
  type ProductId = nat
  type ReviewId = nat
  type OrderId = nat
  type ItemId = nat

  /** A fixed-point amount with two decimals, in hundredths. */
  type Cents = int

  /** An instant; the source reads the wall clock, the model takes it as a parameter. */
  type Time = int

  /** The output of the password hasher, which the model leaves uninterpreted. */
  type Digest = seq<bv8>

  /** A stored credential: Django's "unusable password" or the hash of a raw password. */
  datatype Credential = Unusable | Hashed(digest: Digest)

  datatype User = User(
    email: string,
    name: Option<string>,
    credential: Credential,
    isActive: bool,
    isStaff: bool,
    isSuperuser: bool)

  datatype Product = Product(owner: UserId, title: string, price: Cents, description: string)

  datatype Review = Review(
    product: Option<ProductId>,
    user: UserId,
    name: Option<string>,
    rating: Option<int>,
    comment: Option<string>,
    createdAt: Time)

  datatype Order = Order(user: UserId, price: Cents, done: bool, processedAt: Option<Time>, createdAt: Time)

  datatype OrderItem = OrderItem(
    order: Option<OrderId>,
    product: Option<ProductId>,
    name: string,
    price: Cents,
    createdAt: Time)

  /** A value in a request payload or a rendered response row. */
  datatype Value = Null | Int(i: int) | Text(s: string) | Flag(b: bool)

  /** A request payload or a rendered object: field name to value. */
  type Row = map<string, Value>

  /** Who sends a request: nobody, or the user a valid token names. */
  datatype Caller = Anonymous | SignedIn(id: UserId)

  datatype Status =
    | Ok200
    | Created201
    | NoContent204
    | BadRequest400
    | Unauthorized401
    | Forbidden403
    | NotFound404
    | MethodNotAllowed405
    | ServerError500
  {
    function Code(): nat {
      match this
      case Ok200 => 200
      case Created201 => 201
      case NoContent204 => 204
      case BadRequest400 => 400
      case Unauthorized401 => 401
      case Forbidden403 => 403
      case NotFound404 => 404
      case MethodNotAllowed405 => 405
      case ServerError500 => 500
    }
  }
}
