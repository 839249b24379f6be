/** The server cart manager of Server/routes/cart.js: a user's cart is a
    sequence of lines embedded in the user document, next to the wishlist.
    Pure functions state what each route computes; the class `Account`
    performs the same steps in place, and its methods are proved against
    those functions. */
module ServerCart {
  import opened Types
  import Pricing

  /** One embedded cart line (`user.cart[i]`); `id` is its subdocument id. */
  datatype CartLine = CartLine(id: ItemId, book: BookId, quantity: int)

  /** A line of the GET / answer. */
  datatype ItemView = ItemView(id: ItemId, book: BookId, quantity: int, itemSubtotal: real, isAvailable: bool)

  datatype CartSummary = CartSummary(totalItems: int, money: Pricing.Summary, hasUnavailableItems: bool)

  // ---------------------------------------------------------------------
  // Invariants of the embedded cart (User.cart: quantity min 1; one line
  // per book is what the merging in /add maintains; subdocument ids are
  // distinct).

  predicate QuantitiesPositive(cart: seq<CartLine>) {
    forall i :: 0 <= i < |cart| ==> cart[i].quantity >= 1
  }

  predicate OneLinePerBook(cart: seq<CartLine>) {
    forall i, j :: 0 <= i < j < |cart| ==> cart[i].book != cart[j].book
  }

  predicate DistinctIds(cart: seq<CartLine>) {
    forall i, j :: 0 <= i < j < |cart| ==> cart[i].id != cart[j].id
  }

  predicate CartInvariant(cart: seq<CartLine>) {
    QuantitiesPositive(cart) && OneLinePerBook(cart) && DistinctIds(cart)
  }

  predicate HasBook(cart: seq<CartLine>, b: BookId) {
    exists i :: 0 <= i < |cart| && cart[i].book == b
  }

  predicate HasItem(cart: seq<CartLine>, id: ItemId) {
    exists i :: 0 <= i < |cart| && cart[i].id == id
  }

  /** `user.cart.find(item => item.book === bookId)`: the first line for a book. */
  function FindBook(cart: seq<CartLine>, b: BookId): (r: Option<nat>)
    ensures r.Some? ==> r.value < |cart| && cart[r.value].book == b
    ensures r.Some? ==> forall k :: 0 <= k < r.value ==> cart[k].book != b
    ensures r.None? <==> !HasBook(cart, b)
  {
    if cart == [] then None
    else if cart[0].book == b then Some(0)
    else match FindBook(cart[1..], b)
      case None => None
      case Some(k) => Some(k + 1)
  }

  /** `user.cart.id(itemId)`: the line with a subdocument id. */
  function FindItem(cart: seq<CartLine>, id: ItemId): (r: Option<nat>)
    ensures r.Some? ==> r.value < |cart| && cart[r.value].id == id
    ensures r.Some? ==> forall k :: 0 <= k < r.value ==> cart[k].id != id
    ensures r.None? <==> !HasItem(cart, id)
  {
    if cart == [] then None
    else if cart[0].id == id then Some(0)
    else match FindItem(cart[1..], id)
      case None => None
      case Some(k) => Some(k + 1)
  }

  predicate Active(books: map<BookId, Book>, b: BookId) {
    b in books && books[b].isActive
  }

  // ---------------------------------------------------------------------
  // POST /add

  /** The quantity the line for `b` would hold after adding `q`. */
  function MergedQuantity(cart: seq<CartLine>, b: BookId, q: int): int {
    match FindBook(cart, b)
    case Some(i) => cart[i].quantity + q
    case None => q
  }

  /** The new cart after adding `quantity` (default 1) of a book, or the
      reason the request is refused. `freshId` is the id a pushed line gets. */
  function AddLine(books: map<BookId, Book>, cart: seq<CartLine>, bookId: BookId,
                   quantity: Option<int>, freshId: ItemId): (r: Result<seq<CartLine>>)
    ensures quantity.Some? && quantity.value < 1 ==> r == Err(ValidationFailed)
    ensures (quantity.None? || quantity.value >= 1) && !Active(books, bookId) ==> r == Err(BookUnavailable)
    ensures r.Ok? <==> (quantity.None? || quantity.value >= 1) && Active(books, bookId)
                       && CanSupply(books[bookId], quantity.GetOr(1))
                       && CanSupply(books[bookId], MergedQuantity(cart, bookId, quantity.GetOr(1)))
    ensures r.Err? && r.failure.OutOfStock? ==> bookId in books && !books[bookId].isDigital
    ensures (quantity.None? || quantity.value >= 1) && Active(books, bookId) && r.Err? ==>
              r == Err(OutOfStock(books[bookId].stock))
    ensures r.Ok? && HasBook(cart, bookId) ==>
              var i := FindBook(cart, bookId).value;
              r.value == cart[i := cart[i].(quantity := cart[i].quantity + quantity.GetOr(1))]
    ensures r.Ok? && !HasBook(cart, bookId) ==>
              r.value == cart + [CartLine(freshId, bookId, quantity.GetOr(1))]
  {
    if quantity.Some? && quantity.value < 1 then Err(ValidationFailed)
    else
      var q := quantity.GetOr(1);
      if !Active(books, bookId) then Err(BookUnavailable)
      else
        var book := books[bookId];
        if !CanSupply(book, q) then Err(OutOfStock(book.stock))
        else match FindBook(cart, bookId)
          case Some(i) =>
            var merged := cart[i].quantity + q;
            if !CanSupply(book, merged) then Err(OutOfStock(book.stock))
            else Ok(cart[i := cart[i].(quantity := merged)])
          case None => Ok(cart + [CartLine(freshId, bookId, q)])
  }

  /** Adding keeps the cart invariant: quantities stay positive and a book
      already in the cart is merged instead of getting a second line. */
  lemma AddKeepsInvariant(books: map<BookId, Book>, cart: seq<CartLine>, bookId: BookId,
                          quantity: Option<int>, freshId: ItemId)
    requires CartInvariant(cart) && !HasItem(cart, freshId)
    requires AddLine(books, cart, bookId, quantity, freshId).Ok?
    ensures CartInvariant(AddLine(books, cart, bookId, quantity, freshId).value)
  {
    var r := AddLine(books, cart, bookId, quantity, freshId).value;
    if !HasBook(cart, bookId) {
      forall i, j | 0 <= i < j < |r| ensures r[i].book != r[j].book && r[i].id != r[j].id {
        if j == |cart| {
          assert r[i] == cart[i];
        }
      }
    }
  }

  // ---------------------------------------------------------------------
  // PUT /update/:itemId

  /** The new cart after setting a line's quantity, or why it is refused:
      a missing or non-positive quantity, an unknown line, a missing or
      inactive book, or too little stock of a physical book. */
  function UpdateLine(books: map<BookId, Book>, cart: seq<CartLine>, itemId: ItemId,
                      quantity: Option<int>): (r: Result<seq<CartLine>>)
    ensures quantity.None? || quantity.value < 1 ==> r == Err(InvalidQuantity)
    ensures quantity.Some? && quantity.value >= 1 && !HasItem(cart, itemId) ==> r == Err(ItemNotFound)
    ensures r.Ok? <==> quantity.Some? && quantity.value >= 1 && HasItem(cart, itemId)
                       && var i := FindItem(cart, itemId).value;
                          Active(books, cart[i].book) && CanSupply(books[cart[i].book], quantity.value)
    ensures quantity.Some? && quantity.value >= 1 && HasItem(cart, itemId) ==>
              var i := FindItem(cart, itemId).value;
              (!Active(books, cart[i].book) ==> r == Err(BookUnavailable))
              && (Active(books, cart[i].book) && !CanSupply(books[cart[i].book], quantity.value) ==>
                    r == Err(OutOfStock(books[cart[i].book].stock)))
    ensures r.Ok? ==> var i := FindItem(cart, itemId).value;
                      |r.value| == |cart| && r.value[i].quantity == quantity.value
                      && r.value[i].book == cart[i].book && r.value[i].id == itemId
                      && forall k :: 0 <= k < |cart| && k != i ==> r.value[k] == cart[k]
  {
    if quantity.None? || quantity.value < 1 then Err(InvalidQuantity)
    else match FindItem(cart, itemId)
      case None => Err(ItemNotFound)
      case Some(i) =>
        var bookId := cart[i].book;
        if !Active(books, bookId) then Err(BookUnavailable)
        else if !CanSupply(books[bookId], quantity.value) then Err(OutOfStock(books[bookId].stock))
        else Ok(cart[i := cart[i].(quantity := quantity.value)])
  }

  lemma UpdateKeepsInvariant(books: map<BookId, Book>, cart: seq<CartLine>, itemId: ItemId, quantity: Option<int>)
    requires CartInvariant(cart)
    requires UpdateLine(books, cart, itemId, quantity).Ok?
    ensures CartInvariant(UpdateLine(books, cart, itemId, quantity).value)
  {
  }

  // ---------------------------------------------------------------------
  // DELETE /remove/:itemId and POST /move-to-wishlist/:itemId

  function RemoveAt(cart: seq<CartLine>, i: nat): (r: seq<CartLine>)
    requires i < |cart|
    ensures |r| == |cart| - 1
    ensures forall k :: 0 <= k < i ==> r[k] == cart[k]
    ensures forall k :: i <= k < |r| ==> r[k] == cart[k + 1]
  {
    cart[..i] + cart[i + 1..]
  }

  /** Removing a line keeps every other line, in order, and drops that id. */
  function RemoveLine(cart: seq<CartLine>, itemId: ItemId): (r: Result<seq<CartLine>>)
    ensures r.Err? <==> !HasItem(cart, itemId)
    ensures r.Err? ==> r.failure == ItemNotFound
    ensures r.Ok? ==> |r.value| == |cart| - 1
    ensures r.Ok? ==> forall l :: l in r.value ==> l in cart
    ensures r.Ok? ==> exists i :: 0 <= i < |cart| && cart[i].id == itemId
                                  && (forall k :: 0 <= k < i ==> cart[k].id != itemId)
                                  && r.value == cart[..i] + cart[i + 1..]
  {
    match FindItem(cart, itemId)
    case None => Err(ItemNotFound)
    case Some(i) => Ok(RemoveAt(cart, i))
  }

  lemma RemoveKeepsInvariant(cart: seq<CartLine>, itemId: ItemId)
    requires CartInvariant(cart) && HasItem(cart, itemId)
    ensures RemoveLine(cart, itemId).Ok?
    ensures CartInvariant(RemoveLine(cart, itemId).value)
    ensures !HasItem(RemoveLine(cart, itemId).value, itemId)
  {
    var i := FindItem(cart, itemId).value;
    var r := RemoveAt(cart, i);
    forall a, b | 0 <= a < b < |r|
      ensures r[a].book != r[b].book && r[a].id != r[b].id
    {
      var a' := if a < i then a else a + 1;
      var b' := if b < i then b else b + 1;
      assert r[a] == cart[a'] && r[b] == cart[b'] && a' < b';
    }
    forall k | 0 <= k < |r| ensures r[k].id != itemId {
      var k' := if k < i then k else k + 1;
      assert r[k] == cart[k'] && k' != i;
    }
  }

  datatype Moved = Moved(cart: seq<CartLine>, wishlist: seq<BookId>)

  /** Move-to-wishlist: the book joins the wishlist unless it is already
      there, and its line leaves the cart. */
  function MoveToWishlist(cart: seq<CartLine>, wishlist: seq<BookId>, itemId: ItemId): (r: Result<Moved>)
    ensures r.Err? <==> !HasItem(cart, itemId)
    ensures r.Ok? ==> var b := cart[FindItem(cart, itemId).value].book;
                      b in r.value.wishlist
                      && (b in wishlist ==> r.value.wishlist == wishlist)
                      && (b !in wishlist ==> r.value.wishlist == wishlist + [b])
    ensures r.Ok? ==> r.value.cart == RemoveLine(cart, itemId).value
  {
    match FindItem(cart, itemId)
    case None => Err(ItemNotFound)
    case Some(i) =>
      var b := cart[i].book;
      Ok(Moved(RemoveAt(cart, i), if b in wishlist then wishlist else wishlist + [b]))
  }

  // ---------------------------------------------------------------------
  // GET / : the summary over the lines whose book is still listed.

  function LineSubtotal(books: map<BookId, Book>, l: CartLine): real
    requires l.book in books
  {
    books[l.book].price * l.quantity as real
  }

  function ViewOf(books: map<BookId, Book>, l: CartLine): ItemView
    requires l.book in books
  {
    ItemView(l.id, l.book, l.quantity, LineSubtotal(books, l), CanSupply(books[l.book], l.quantity))
  }

  /** The listed lines' views, in cart order (defined from the end so that a
      left-to-right loop extends it one line at a time). */
  function Views(books: map<BookId, Book>, cart: seq<CartLine>): seq<ItemView>
  {
    if cart == [] then []
    else
      var last := cart[|cart| - 1];
      Views(books, cart[..|cart| - 1]) + (if Active(books, last.book) then [ViewOf(books, last)] else [])
  }

  /** Sum of price times quantity over the listed lines. */
  function Subtotal(books: map<BookId, Book>, cart: seq<CartLine>): real
  {
    if cart == [] then 0.0
    else
      var last := cart[|cart| - 1];
      Subtotal(books, cart[..|cart| - 1]) + (if Active(books, last.book) then LineSubtotal(books, last) else 0.0)
  }

  /** Sum of quantities over the listed lines. */
  function ListedCount(books: map<BookId, Book>, cart: seq<CartLine>): int
  {
    if cart == [] then 0
    else
      var last := cart[|cart| - 1];
      ListedCount(books, cart[..|cart| - 1]) + (if Active(books, last.book) then last.quantity else 0)
  }

  /** Some listed physical line asks for more than the stock. */
  predicate AnyUnavailable(books: map<BookId, Book>, cart: seq<CartLine>) {
    exists i :: 0 <= i < |cart| && Active(books, cart[i].book) && !CanSupply(books[cart[i].book], cart[i].quantity)
  }

  /** GET /: one pass over the cart accumulating subtotal, item count and the
      availability flag, then the shared pricing formula. */
  method GetCart(books: map<BookId, Book>, cart: seq<CartLine>) returns (items: seq<ItemView>, summary: CartSummary)
    ensures items == Views(books, cart)
    ensures summary.money == Pricing.Summarize(Subtotal(books, cart))
    ensures summary.totalItems == ListedCount(books, cart)
    ensures summary.hasUnavailableItems <==> AnyUnavailable(books, cart)
  {
    var subtotal := 0.0;
    var totalItems := 0;
    var hasUnavailable := false;
    items := [];
    var i := 0;
    while i < |cart|
      invariant 0 <= i <= |cart|
      invariant items == Views(books, cart[..i])
      invariant subtotal == Subtotal(books, cart[..i])
      invariant totalItems == ListedCount(books, cart[..i])
      invariant hasUnavailable <==> AnyUnavailable(books, cart[..i])
    {
      var line := cart[i];
      assert cart[..i + 1][..i] == cart[..i] && cart[..i + 1][i] == line;
      if Active(books, line.book) {
        var book := books[line.book];
        var itemSubtotal := book.price * line.quantity as real;
        subtotal := subtotal + itemSubtotal;
        totalItems := totalItems + line.quantity;
        var isAvailable := book.isDigital || book.stock >= line.quantity;
        if !isAvailable {
          hasUnavailable := true;
        }
        items := items + [ItemView(line.id, line.book, line.quantity, itemSubtotal, isAvailable)];
        assert itemSubtotal == LineSubtotal(books, line);
        assert isAvailable == CanSupply(books[line.book], line.quantity);
      }
      assert AnyUnavailable(books, cart[..i + 1]) <==>
             AnyUnavailable(books, cart[..i]) || (Active(books, line.book) && !CanSupply(books[line.book], line.quantity)) by {
        assert cart[..i + 1][i] == line;
        if AnyUnavailable(books, cart[..i]) {
          var k :| 0 <= k < i && Active(books, cart[..i][k].book) && !CanSupply(books[cart[..i][k].book], cart[..i][k].quantity);
          assert cart[..i + 1][k] == cart[..i][k];
        }
      }
      i := i + 1;
    }
    assert cart[..|cart|] == cart;
    summary := CartSummary(totalItems, Pricing.Summarize(subtotal), hasUnavailable);
  }

  // ---------------------------------------------------------------------
  // GET /count : sum of quantities over every line, listed or not.

  function CountItems(cart: seq<CartLine>): int
  {
    if cart == [] then 0 else CountItems(cart[..|cart| - 1]) + cart[|cart| - 1].quantity
  }

  /** The badge count bounds the summary's item count, and the two agree
      exactly when every line's book is still listed. */
  lemma {:induction false} CountBoundsListed(books: map<BookId, Book>, cart: seq<CartLine>)
    requires QuantitiesPositive(cart)
    ensures 0 <= ListedCount(books, cart) <= CountItems(cart)
    ensures ListedCount(books, cart) == CountItems(cart) <==> forall i :: 0 <= i < |cart| ==> Active(books, cart[i].book)
  {
    if cart != [] {
      var init := cart[..|cart| - 1];
      CountBoundsListed(books, init);
      if forall i :: 0 <= i < |cart| ==> Active(books, cart[i].book) {
        assert forall i :: 0 <= i < |init| ==> Active(books, init[i].book) by {
          forall i | 0 <= i < |init| ensures Active(books, init[i].book) {
            assert init[i] == cart[i];
          }
        }
      } else {
        var j :| 0 <= j < |cart| && !Active(books, cart[j].book);
        if j < |cart| - 1 {
          assert init[j] == cart[j];
        }
      }
    }
  }

  /** With non-negative prices and positive quantities the subtotal is
      non-negative. */
  lemma {:induction false} SubtotalNonNegative(books: map<BookId, Book>, cart: seq<CartLine>)
    requires QuantitiesPositive(cart)
    requires forall b :: b in books ==> books[b].price >= 0.0
    ensures Subtotal(books, cart) >= 0.0
  {
    if cart != [] {
      var init := cart[..|cart| - 1];
      assert QuantitiesPositive(init) by {
        forall i | 0 <= i < |init| ensures init[i].quantity >= 1 {
          assert init[i] == cart[i];
        }
      }
      SubtotalNonNegative(books, init);
    }
  }

  // ---------------------------------------------------------------------
  // Finding: the GET / filter reads a field its projection leaves out.

  /** The GET / filter as written: the populate projection selects
      `bookTitle price originalPrice imageURL stock isDigital seller
      availabilityStatus discountPercentage`, so `book.isActive` is
      undefined and `isActive !== false` holds for every book that still
      exists. */
  predicate KeptAsWritten(books: map<BookId, Book>, b: BookId) {
    var projectedIsActive: Option<bool> := None;
    b in books && projectedIsActive != Some(false)
  }

  /** The subtotal over the lines the filter as written keeps. */
  function SubtotalAsWritten(books: map<BookId, Book>, cart: seq<CartLine>): real
  {
    if cart == [] then 0.0
    else
      var last := cart[|cart| - 1];
      SubtotalAsWritten(books, cart[..|cart| - 1]) + (if KeptAsWritten(books, last.book) then LineSubtotal(books, last) else 0.0)
  }

  /** The two subtotals agree on every cart whose existing books are all
      listed; the filter as written keeps exactly the existing books. */
  lemma {:induction false} SubtotalAsWrittenAgrees(books: map<BookId, Book>, cart: seq<CartLine>)
    requires forall b :: b in books ==> books[b].isActive
    ensures SubtotalAsWritten(books, cart) == Subtotal(books, cart)
    ensures forall b :: KeptAsWritten(books, b) <==> b in books
  {
    if cart != [] {
      SubtotalAsWrittenAgrees(books, cart[..|cart| - 1]);
    }
  }

  /** A deactivated book of price 10 with a line for 2: as written the
      summary still charges 20 for it; reading `isActive` it is dropped. */
  lemma InactiveBookStillCharged()
    ensures var b := Book("T", "A", "C", 10.0, None, 5, false, false, false, 0, 0.0, 0, 7);
            var books := map[3 := b];
            var cart := [CartLine(1, 3, 2)];
            SubtotalAsWritten(books, cart) == 20.0 && Subtotal(books, cart) == 0.0 && Views(books, cart) == []
  {
    var cart := [CartLine(1, 3, 2)];
    assert cart[..|cart| - 1] == [];
  }

  // ---------------------------------------------------------------------
  // The user document's cart and wishlist, updated in place by the routes.

  class Account {
    var cart: seq<CartLine>
    var wishlist: seq<BookId>
    var nextItemId: nat  // where fresh subdocument ids come from

    ghost predicate Valid()
      reads this
    {
      CartInvariant(cart) && forall i :: 0 <= i < |cart| ==> cart[i].id < nextItemId
    }

    constructor ()
      ensures Valid() && cart == [] && wishlist == []
    {
      cart := [];
      wishlist := [];
      nextItemId := 0;
    }

    /** POST /add */
    method Add(books: map<BookId, Book>, bookId: BookId, quantity: Option<int>) returns (outcome: Outcome)
      requires Valid()
      modifies this
      ensures Valid() && wishlist == old(wishlist)
      ensures var r := AddLine(books, old(cart), bookId, quantity, old(nextItemId));
              (r.Ok? ==> outcome == Done && cart == r.value)
              && (r.Err? ==> outcome == Refused(r.failure) && cart == old(cart))
    {
      if quantity.Some? && quantity.value < 1 {
        return Refused(ValidationFailed);
      }
      var q := quantity.GetOr(1);
      if bookId !in books || !books[bookId].isActive {
        return Refused(BookUnavailable);
      }
      var book := books[bookId];
      if !book.isDigital && book.stock < q {
        return Refused(OutOfStock(book.stock));
      }
      var found := FindBook(cart, bookId);
      if found.Some? {
        var i := found.value;
        var newQuantity := cart[i].quantity + q;
        if !book.isDigital && book.stock < newQuantity {
          return Refused(OutOfStock(book.stock));
        }
        AddKeepsInvariant(books, cart, bookId, quantity, nextItemId);
        cart := cart[i := cart[i].(quantity := newQuantity)];
      } else {
        assert !HasItem(cart, nextItemId);
        AddKeepsInvariant(books, cart, bookId, quantity, nextItemId);
        cart := cart + [CartLine(nextItemId, bookId, q)];
        nextItemId := nextItemId + 1;
      }
      outcome := Done;
    }

    /** PUT /update/:itemId */
    method Update(books: map<BookId, Book>, itemId: ItemId, quantity: Option<int>) returns (outcome: Outcome)
      requires Valid()
      modifies this
      ensures Valid() && wishlist == old(wishlist)
      ensures var r := UpdateLine(books, old(cart), itemId, quantity);
              (r.Ok? ==> outcome == Done && cart == r.value)
              && (r.Err? ==> outcome == Refused(r.failure) && cart == old(cart))
    {
      if quantity.None? || quantity.value < 1 {
        return Refused(InvalidQuantity);
      }
      var found := FindItem(cart, itemId);
      if found.None? {
        return Refused(ItemNotFound);
      }
      var i := found.value;
      var bookId := cart[i].book;
      if bookId !in books || !books[bookId].isActive {
        return Refused(BookUnavailable);
      }
      if !books[bookId].isDigital && books[bookId].stock < quantity.value {
        return Refused(OutOfStock(books[bookId].stock));
      }
      cart := cart[i := cart[i].(quantity := quantity.value)];
      outcome := Done;
    }

    /** DELETE /remove/:itemId */
    method Remove(itemId: ItemId) returns (outcome: Outcome)
      requires Valid()
      modifies this
      ensures Valid() && wishlist == old(wishlist)
      ensures var r := RemoveLine(old(cart), itemId);
              (r.Ok? ==> outcome == Done && cart == r.value)
              && (r.Err? ==> outcome == Refused(r.failure) && cart == old(cart))
    {
      var found := FindItem(cart, itemId);
      if found.None? {
        return Refused(ItemNotFound);
      }
      RemoveKeepsInvariant(cart, itemId);
      cart := RemoveAt(cart, found.value);
      outcome := Done;
    }

    /** DELETE /clear */
    method Clear()
      requires Valid()
      modifies this
      ensures Valid() && cart == [] && wishlist == old(wishlist)
    {
      cart := [];
    }

    /** POST /move-to-wishlist/:itemId */
    method MoveToWishlistRoute(itemId: ItemId) returns (outcome: Outcome)
      requires Valid()
      modifies this
      ensures Valid()
      ensures var r := MoveToWishlist(old(cart), old(wishlist), itemId);
              (r.Ok? ==> outcome == Done && cart == r.value.cart && wishlist == r.value.wishlist)
              && (r.Err? ==> outcome == Refused(r.failure) && cart == old(cart) && wishlist == old(wishlist))
    {
      var found := FindItem(cart, itemId);
      if found.None? {
        return Refused(ItemNotFound);
      }
      var bookId := cart[found.value].book;
      if bookId !in wishlist {
        wishlist := wishlist + [bookId];
      }
      RemoveKeepsInvariant(cart, itemId);
      cart := RemoveAt(cart, found.value);
      outcome := Done;
    }
  }
}
