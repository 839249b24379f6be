/** Shared vocabulary of the bookstore model: optional values, the reasons a
    request is refused with their HTTP status codes, identifiers, and the
    book record the server routes read and write. */
module Types {

  datatype Option<T> = None | Some(value: T) {
    function GetOr(default: T): T {
      match this
      case Some(v) => v
      case None => default
    }
  }

  type BookId = nat
  type UserId = nat
  type ItemId = nat
  type OrderId = nat

  /** The three account roles of the User model (customer is the default). */
  datatype Role = Customer | Seller | Admin

  /** The authenticated caller of a route: its user id and role. */
  datatype Actor = Actor(id: UserId, role: Role)

  /** Why a route refused a request. Each reason maps to the status code the
      route answers with. */
  datatype Failure =
    | ValidationFailed          // express-validator rejected the body
    | InvalidQuantity           // "Quantity must be at least 1"
    | BookUnavailable           // "Book not found or not available"
    | OutOfStock(available: int)  // "Only N items available in stock"
    | ItemNotFound              // "Cart item not found"
    | CartNotFound              // "Cart not found"
    | CartEmpty                 // "Cart is empty"
    | NoLongerAvailable         // checkout: book missing or inactive
    | InsufficientStock(available: int)  // checkout: physical stock too low
    | OrderNotFound
    | InvalidStatus
    | CannotCancel              // "Order cannot be cancelled at this stage"
    | AccessDenied
    | Unauthenticated           // missing or rejected credentials
    | SearchQueryMissing
    | ServerError               // the catch-all 500 branch

  function HttpStatus(f: Failure): (code: nat)
    ensures 400 <= code < 600
  {
    match f
    case ValidationFailed => 400
    case InvalidQuantity => 400
    case BookUnavailable => 404
    case OutOfStock(_) => 400
    case ItemNotFound => 404
    case CartNotFound => 404
    case CartEmpty => 400
    case NoLongerAvailable => 400
    case InsufficientStock(_) => 400
    case OrderNotFound => 404
    case InvalidStatus => 400
    case CannotCancel => 400
    case AccessDenied => 403
    case Unauthenticated => 401
    case SearchQueryMissing => 400
    case ServerError => 500
  }

  datatype Result<T> = Ok(value: T) | Err(failure: Failure)

  /** Outcome of a route that answers with no payload beyond success. */
  datatype Outcome = Done | Refused(failure: Failure)

  /** A book document, with the fields the routes rely on. */
  datatype Book = Book(
    title: string,
    author: string,
    category: string,
    price: real,
    originalPrice: Option<real>,
    stock: int,
    isDigital: bool,
    isActive: bool,
    featured: bool,
    totalSales: int,
    averageRating: real,
    createdAt: int,
    seller: UserId)

  /** `book.originalPrice ? ... : 0`: a missing or zero original price is falsy. */
  predicate HasOriginalPrice(b: Book) {
    b.originalPrice.Some? && b.originalPrice.value != 0.0
  }

  /** A book can be shipped in the asked quantity: digital books skip the
      stock check. */
  predicate CanSupply(b: Book, quantity: int) {
    b.isDigital || b.stock >= quantity
  }

  /** The books collection. Checkout, cancellation and the catalog routes
      update it in place. */
  class Inventory {
    var books: map<BookId, Book>

    constructor (books: map<BookId, Book>)
      ensures this.books == books
    {
      this.books := books;
    }
  }

  /** `find(line => line.book == b)` over a list of lines, `bookOf` reading
      a line's book: the first position holding the book, if any. */
  function FirstWithBook<T>(lines: seq<T>, bookOf: T -> BookId, b: BookId): (r: Option<nat>)
    ensures r.Some? ==> r.value < |lines| && bookOf(lines[r.value]) == b
                        && forall k :: 0 <= k < r.value ==> bookOf(lines[k]) != b
    ensures r.None? ==> forall k :: 0 <= k < |lines| ==> bookOf(lines[k]) != b
  {
    if lines == [] then None
    else if bookOf(lines[0]) == b then Some(0)
    else match FirstWithBook(lines[1..], bookOf, b)
      case None => None
      case Some(k) => Some(k + 1)
  }
}
