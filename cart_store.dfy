/** The client's cart store: the cart as last fetched or optimistically
    edited, with its summary recomputed on the client after each edit, and
    the loading flags. Server calls are inputs: each action receives whether
    its request succeeded (and, for a fetch, what came back). */
module CartStore {
  import opened Types
  import Pricing
  import ServerCart

  /** Line ids: the server's, or the temporary `temp-<time>` id of an
      optimistic line. */
  datatype ClientId = Server(n: ItemId) | Temp(stamp: int)

  /** A cart line as the store keeps it; `price` is the populated book's
      price. */
  datatype ClientItem = ClientItem(id: ClientId, book: BookId, price: real, quantity: int,
                                   itemSubtotal: real, isAvailable: bool)

  datatype ClientSummary = ClientSummary(totalItems: int, subtotal: real, tax: real, shipping: real,
                                         total: real, hasUnavailableItems: bool)

  datatype ClientCart = ClientCart(items: seq<ClientItem>, summary: ClientSummary)

  const EmptySummary := ClientSummary(0, 0.0, 0.0, 0.0, 0.0, false)
  const EmptyCart := ClientCart([], EmptySummary)

  // ---------------------------------------------------------------------
  // The recomputed summary

  /** `items.reduce((sum, item) => sum + item.quantity, 0)` */
  function TotalQuantity(items: seq<ClientItem>): int {
    if items == [] then 0 else TotalQuantity(items[..|items| - 1]) + items[|items| - 1].quantity
  }

  /** `items.reduce((sum, item) => sum + item.itemSubtotal, 0)` */
  function TotalSubtotal(items: seq<ClientItem>): real {
    if items == [] then 0.0 else TotalSubtotal(items[..|items| - 1]) + items[|items| - 1].itemSubtotal
  }

  /** The summary formula the store repeats after each local edit. */
  function Recompute(items: seq<ClientItem>, hasUnavailable: bool): ClientSummary {
    var subtotal := TotalSubtotal(items);
    var tax := subtotal * 0.08;
    var shipping := if subtotal > 50.0 then 0.0 else 5.99;
    ClientSummary(TotalQuantity(items), subtotal, tax, shipping, subtotal + tax + shipping, hasUnavailable)
  }

  function Money(s: ClientSummary): Pricing.Summary {
    Pricing.Summary(s.subtotal, s.tax, s.shipping, s.total)
  }

  /** The client's copy of the formula is the server's. */
  lemma RecomputeIsServerFormula(items: seq<ClientItem>, hasUnavailable: bool)
    ensures Money(Recompute(items, hasUnavailable)) == Pricing.Summarize(TotalSubtotal(items))
  {
  }

  /** `price * quantity`, the line subtotal. */
  function Cost(price: real, quantity: int): real {
    price * quantity as real
  }

  /** Every line's subtotal is its price times its quantity. */
  predicate Priced(items: seq<ClientItem>) {
    forall i :: 0 <= i < |items| ==> items[i].itemSubtotal == Cost(items[i].price, items[i].quantity)
  }

  // ---------------------------------------------------------------------
  // Agreement with the server's GET answer

  /** A line of the server's answer as the store holds it. */
  function FromView(books: map<BookId, Book>, v: ServerCart.ItemView): ClientItem
    requires v.book in books
  {
    ClientItem(Server(v.id), v.book, books[v.book].price, v.quantity, v.itemSubtotal, v.isAvailable)
  }

  function FromViews(books: map<BookId, Book>, views: seq<ServerCart.ItemView>): (items: seq<ClientItem>)
    requires forall i :: 0 <= i < |views| ==> views[i].book in books
    ensures |items| == |views|
  {
    if views == [] then []
    else FromViews(books, views[..|views| - 1]) + [FromView(books, views[|views| - 1])]
  }

  lemma {:induction false} ViewsListed(books: map<BookId, Book>, cart: seq<ServerCart.CartLine>)
    ensures forall i :: 0 <= i < |ServerCart.Views(books, cart)| ==> ServerCart.Views(books, cart)[i].book in books
  {
    if cart != [] {
      ViewsListed(books, cart[..|cart| - 1]);
    }
  }

  lemma FromViewsAppend(books: map<BookId, Book>, views: seq<ServerCart.ItemView>, v: ServerCart.ItemView)
    requires forall i :: 0 <= i < |views| ==> views[i].book in books
    requires v.book in books
    ensures var all := views + [v];
            (forall i :: 0 <= i < |all| ==> all[i].book in books)
            && FromViews(books, all) == FromViews(books, views) + [FromView(books, v)]
  {
    var all := views + [v];
    assert all[..|all| - 1] == views;
  }

  /** One step of the server's pass: the line is listed and extends the
      views, or it is not and they stay as they were. */
  lemma ViewsStep(books: map<BookId, Book>, cart: seq<ServerCart.CartLine>)
    requires cart != []
    ensures var init := cart[..|cart| - 1];
            var last := cart[|cart| - 1];
            ServerCart.Views(books, cart) ==
              if ServerCart.Active(books, last.book) then ServerCart.Views(books, init) + [ServerCart.ViewOf(books, last)]
              else ServerCart.Views(books, init)
  {
  }

  /** The client lines of a fetched cart, extended one cart line at a time. */
  lemma FetchedStep(books: map<BookId, Book>, cart: seq<ServerCart.CartLine>)
    requires cart != []
    ensures (forall i :: 0 <= i < |ServerCart.Views(books, cart)| ==> ServerCart.Views(books, cart)[i].book in books)
    ensures var init := cart[..|cart| - 1];
            var last := cart[|cart| - 1];
            (forall i :: 0 <= i < |ServerCart.Views(books, init)| ==> ServerCart.Views(books, init)[i].book in books)
            && FromViews(books, ServerCart.Views(books, cart)) ==
                 FromViews(books, ServerCart.Views(books, init))
                 + (if ServerCart.Active(books, last.book) then [FromView(books, ServerCart.ViewOf(books, last))] else [])
  {
    var init := cart[..|cart| - 1];
    var last := cart[|cart| - 1];
    ViewsListed(books, cart);
    ViewsListed(books, init);
    ViewsStep(books, cart);
    if ServerCart.Active(books, last.book) {
      FromViewsAppend(books, ServerCart.Views(books, init), ServerCart.ViewOf(books, last));
    } else {
      assert FromViews(books, ServerCart.Views(books, init)) + [] == FromViews(books, ServerCart.Views(books, init));
    }
  }

  lemma {:induction false} FetchedSubtotal(books: map<BookId, Book>, cart: seq<ServerCart.CartLine>)
    ensures (forall i :: 0 <= i < |ServerCart.Views(books, cart)| ==> ServerCart.Views(books, cart)[i].book in books)
            && TotalSubtotal(FromViews(books, ServerCart.Views(books, cart))) == ServerCart.Subtotal(books, cart)
  {
    ViewsListed(books, cart);
    if cart != [] {
      var init := cart[..|cart| - 1];
      FetchedSubtotal(books, init);
      FetchedStep(books, cart);
      var before := FromViews(books, ServerCart.Views(books, init));
      var items := FromViews(books, ServerCart.Views(books, cart));
      if items != before {
        assert items[..|items| - 1] == before;
      }
    }
  }

  lemma {:induction false} FetchedCount(books: map<BookId, Book>, cart: seq<ServerCart.CartLine>)
    ensures (forall i :: 0 <= i < |ServerCart.Views(books, cart)| ==> ServerCart.Views(books, cart)[i].book in books)
            && TotalQuantity(FromViews(books, ServerCart.Views(books, cart))) == ServerCart.ListedCount(books, cart)
  {
    ViewsListed(books, cart);
    if cart != [] {
      var init := cart[..|cart| - 1];
      FetchedCount(books, init);
      FetchedStep(books, cart);
      var before := FromViews(books, ServerCart.Views(books, init));
      var items := FromViews(books, ServerCart.Views(books, cart));
      if items != before {
        assert items[..|items| - 1] == before;
      }
    }
  }

  lemma {:induction false} FetchedPriced(books: map<BookId, Book>, cart: seq<ServerCart.CartLine>)
    ensures (forall i :: 0 <= i < |ServerCart.Views(books, cart)| ==> ServerCart.Views(books, cart)[i].book in books)
            && Priced(FromViews(books, ServerCart.Views(books, cart)))
  {
    ViewsListed(books, cart);
    if cart != [] {
      var init := cart[..|cart| - 1];
      var last := cart[|cart| - 1];
      FetchedPriced(books, init);
      FetchedStep(books, cart);
      var before := FromViews(books, ServerCart.Views(books, init));
      var items := FromViews(books, ServerCart.Views(books, cart));
      if ServerCart.Active(books, last.book) {
        forall k | 0 <= k < |items| ensures items[k].itemSubtotal == Cost(items[k].price, items[k].quantity) {
          if k < |before| {
            assert items[k] == before[k];
          }
        }
      }
    }
  }

  /** Recomputing on the client from a freshly fetched cart reproduces the
      server's subtotal and item count, and every fetched line is priced. */
  lemma FetchedSums(books: map<BookId, Book>, cart: seq<ServerCart.CartLine>)
    ensures (forall i :: 0 <= i < |ServerCart.Views(books, cart)| ==> ServerCart.Views(books, cart)[i].book in books)
            && var items := FromViews(books, ServerCart.Views(books, cart));
               TotalSubtotal(items) == ServerCart.Subtotal(books, cart)
               && TotalQuantity(items) == ServerCart.ListedCount(books, cart)
               && Priced(items)
  {
    FetchedSubtotal(books, cart);
    FetchedCount(books, cart);
    FetchedPriced(books, cart);
  }

  /** Hence the whole money part of the client's summary of a fetched cart
      is the server's summary. */
  lemma FetchedAgreesWithServer(books: map<BookId, Book>, cart: seq<ServerCart.CartLine>)
    ensures (forall i :: 0 <= i < |ServerCart.Views(books, cart)| ==> ServerCart.Views(books, cart)[i].book in books)
            && var s := Recompute(FromViews(books, ServerCart.Views(books, cart)), false);
               Money(s) == Pricing.Summarize(ServerCart.Subtotal(books, cart))
               && s.totalItems == ServerCart.ListedCount(books, cart)
  {
    FetchedSums(books, cart);
  }

  // ---------------------------------------------------------------------
  // Local edits

  /** The `map` of `updateCartItem`: the lines with that id take the new
      quantity and a recomputed subtotal; the others are kept. */
  function WithQuantity(items: seq<ClientItem>, id: ClientId, q: int): (r: seq<ClientItem>)
    ensures |r| == |items|
    ensures forall i :: 0 <= i < |items| && items[i].id != id ==> r[i] == items[i]
    ensures forall i :: 0 <= i < |items| && items[i].id == id ==>
              r[i].quantity == q && r[i].itemSubtotal == Cost(items[i].price, q)
              && r[i].id == id && r[i].book == items[i].book && r[i].price == items[i].price
  {
    if items == [] then []
    else
      var last := items[|items| - 1];
      WithQuantity(items[..|items| - 1], id, q)
      + [if last.id == id then last.(quantity := q, itemSubtotal := Cost(last.price, q)) else last]
  }

  /** The `filter` of `removeFromCart`. */
  function WithoutId(items: seq<ClientItem>, id: ClientId): (r: seq<ClientItem>)
    ensures |r| <= |items|
    ensures forall x :: x in r <==> x in items && x.id != id
  {
    if items == [] then []
    else
      var last := items[|items| - 1];
      WithoutId(items[..|items| - 1], id) + (if last.id == id then [] else [last])
  }

  /** One step of the filter from the back. */
  lemma WithoutIdLast(xs: seq<ClientItem>, id: ClientId)
    requires xs != []
    ensures WithoutId(xs, id) == WithoutId(xs[..|xs| - 1], id)
                                 + (if xs[|xs| - 1].id == id then [] else [xs[|xs| - 1]])
  {
  }

  /** `removeFromCart` drops every line with the id and keeps each other
      line as often as the cart had it. */
  lemma {:induction false} WithoutIdCount(items: seq<ClientItem>, id: ClientId, x: ClientItem)
    ensures multiset(WithoutId(items, id))[x] == if x.id == id then 0 else multiset(items)[x]
  {
    if items != [] {
      var init := items[..|items| - 1];
      var last := items[|items| - 1];
      var kept: seq<ClientItem> := if last.id == id then [] else [last];
      calc {
        multiset(WithoutId(items, id))[x];
      == { WithoutIdLast(items, id); }
        multiset(WithoutId(init, id) + kept)[x];
      ==
        multiset(WithoutId(init, id))[x] + multiset(kept)[x];
      == { WithoutIdCount(init, id, x); }
        (if x.id == id then 0 else multiset(init)[x]) + multiset(kept)[x];
      == { assert items == init + [last]; }
        if x.id == id then 0 else multiset(items)[x];
      }
    }
  }


  /** The kept lines stay in their order: the filter works line by line
      from the front as well. */
  lemma {:induction false} WithoutIdPrepend(l: ClientItem, items: seq<ClientItem>, id: ClientId)
    ensures WithoutId([l] + items, id) == (if l.id == id then [] else [l]) + WithoutId(items, id)
  {
    var head: seq<ClientItem> := if l.id == id then [] else [l];
    var xs := [l] + items;
    if items == [] {
      assert xs[..|xs| - 1] == [];
      WithoutIdLast(xs, id);
    } else {
      var init := items[..|items| - 1];
      var tail: seq<ClientItem> := if items[|items| - 1].id == id then [] else [items[|items| - 1]];
      calc {
        WithoutId(xs, id);
      == { assert xs[..|xs| - 1] == [l] + init && xs[|xs| - 1] == items[|items| - 1];
           WithoutIdLast(xs, id); }
        WithoutId([l] + init, id) + tail;
      == { WithoutIdPrepend(l, init, id); }
        head + WithoutId(init, id) + tail;
      == { WithoutIdLast(items, id); }
        head + WithoutId(items, id);
      }
    }
  }


  /** The `map` of `quickAddToCart` when the book is already in the cart:
      each of its lines gains the quantity, priced at the given price. */
  function AddToBook(items: seq<ClientItem>, b: BookId, price: real, q: int): (r: seq<ClientItem>)
    ensures |r| == |items|
    ensures forall i :: 0 <= i < |items| && items[i].book != b ==> r[i] == items[i]
    ensures forall i :: 0 <= i < |items| && items[i].book == b ==>
              r[i] == items[i].(quantity := items[i].quantity + q, itemSubtotal := Cost(price, items[i].quantity + q))
  {
    if items == [] then []
    else
      var last := items[|items| - 1];
      AddToBook(items[..|items| - 1], b, price, q)
      + [if last.book == b then last.(quantity := last.quantity + q, itemSubtotal := Cost(price, last.quantity + q))
         else last]
  }

  function LinesFor(items: seq<ClientItem>, b: BookId): nat {
    if items == [] then 0
    else LinesFor(items[..|items| - 1], b) + (if items[|items| - 1].book == b then 1 else 0)
  }

  /** The optimistic items of `quickAddToCart`. */
  function QuickAdded(items: seq<ClientItem>, b: BookId, price: real, q: int, stamp: int): seq<ClientItem> {
    if exists i :: 0 <= i < |items| && items[i].book == b then AddToBook(items, b, price, q)
    else items + [ClientItem(Temp(stamp), b, price, q, Cost(price, q), true)]
  }

  /** `q` added `n` times. */
  function Repeated(q: int, n: nat): int {
    if n == 0 then 0 else Repeated(q, n - 1) + q
  }

  /** A merge adds the quantity once for each line of the book, so once when
      the cart holds one line per book. */
  lemma {:induction false} AddToBookCount(items: seq<ClientItem>, b: BookId, price: real, q: int)
    ensures TotalQuantity(AddToBook(items, b, price, q)) == TotalQuantity(items) + Repeated(q, LinesFor(items, b))
  {
    if items != [] {
      var init := items[..|items| - 1];
      AddToBookCount(init, b, price, q);
      var r := AddToBook(items, b, price, q);
      assert r[..|r| - 1] == AddToBook(init, b, price, q);
      var n := LinesFor(init, b);
      if items[|items| - 1].book == b {
        assert LinesFor(items, b) == n + 1;
      } else {
        assert LinesFor(items, b) == n;
      }
    }
  }

  lemma {:induction false} LinesForPositive(items: seq<ClientItem>, b: BookId, i: int)
    requires 0 <= i < |items| && items[i].book == b
    ensures LinesFor(items, b) >= 1
  {
    if i < |items| - 1 {
      LinesForPositive(items[..|items| - 1], b, i);
    }
  }

  lemma {:induction false} LinesForZero(items: seq<ClientItem>, b: BookId)
    requires forall i :: 0 <= i < |items| ==> items[i].book != b
    ensures LinesFor(items, b) == 0
  {
    if items != [] {
      LinesForZero(items[..|items| - 1], b);
    }
  }

  lemma QuickAddedCount(items: seq<ClientItem>, b: BookId, price: real, q: int, stamp: int)
    requires LinesFor(items, b) <= 1
    ensures TotalQuantity(QuickAdded(items, b, price, q, stamp)) == TotalQuantity(items) + q
  {
    if exists i :: 0 <= i < |items| && items[i].book == b {
      var i :| 0 <= i < |items| && items[i].book == b;
      LinesForPositive(items, b, i);
      AddToBookCount(items, b, price, q);
      assert Repeated(q, 1) == q;
    } else {
      var r := QuickAdded(items, b, price, q, stamp);
      assert r[..|r| - 1] == items;
    }
  }

  lemma QuickAddedPriced(items: seq<ClientItem>, b: BookId, price: real, q: int, stamp: int)
    requires Priced(items)
    requires forall i :: 0 <= i < |items| && items[i].book == b ==> items[i].price == price
    ensures Priced(QuickAdded(items, b, price, q, stamp))
  {
    var r := QuickAdded(items, b, price, q, stamp);
    if exists i :: 0 <= i < |items| && items[i].book == b {
      assert r == AddToBook(items, b, price, q);
    } else {
      assert r == items + [ClientItem(Temp(stamp), b, price, q, Cost(price, q), true)];
      forall k | 0 <= k < |r| ensures r[k].itemSubtotal == Cost(r[k].price, r[k].quantity) {
        if k < |items| {
          assert r[k] == items[k];
        }
      }
    }
  }

  /** Quick-adding raises the item count by the quantity when the cart had
      at most one line for the book, and keeps the lines priced when the
      price given is the lines' price. */
  lemma QuickAddedEffect(items: seq<ClientItem>, b: BookId, price: real, q: int, stamp: int)
    requires LinesFor(items, b) <= 1
    ensures TotalQuantity(QuickAdded(items, b, price, q, stamp)) == TotalQuantity(items) + q
    ensures Priced(items) && (forall i :: 0 <= i < |items| && items[i].book == b ==> items[i].price == price)
            ==> Priced(QuickAdded(items, b, price, q, stamp))
  {
    QuickAddedCount(items, b, price, q, stamp);
    if Priced(items) && (forall i :: 0 <= i < |items| && items[i].book == b ==> items[i].price == price) {
      QuickAddedPriced(items, b, price, q, stamp);
    }
  }

  /** Updating keeps every line priced. */
  lemma {:induction false} UpdateKeepsPriced(items: seq<ClientItem>, id: ClientId, q: int)
    requires Priced(items)
    ensures Priced(WithQuantity(items, id, q))
  {
    var r := WithQuantity(items, id, q);
    forall i | 0 <= i < |r| ensures r[i].itemSubtotal == Cost(r[i].price, r[i].quantity) {
      if items[i].id == id {
        assert r[i].quantity == q && r[i].price == items[i].price;
      } else {
        assert r[i] == items[i];
      }
    }
  }

  // ---------------------------------------------------------------------
  // The store

  /** What `cartAPI.getCart` gave: the server's cart, or an error status. */
  datatype FetchResponse = Fetched(cart: ClientCart) | FetchFailed(status: int)

  class Store {
    var cart: ClientCart
    var isLoading: bool
    var isSubmitting: bool

    constructor ()
      ensures cart == EmptyCart && !isLoading && !isSubmitting
    {
      cart := EmptyCart;
      isLoading := false;
      isSubmitting := false;
    }

    /** `fetchCart`: the server's cart replaces the local one; a 401 empties
        it; any other failure keeps it. */
    method FetchCart(response: FetchResponse) returns (success: bool)
      modifies this
      ensures success <==> response.Fetched?
      ensures response.Fetched? ==> cart == response.cart
      ensures response.FetchFailed? && response.status == 401 ==> cart == EmptyCart
      ensures response.FetchFailed? && response.status != 401 ==> cart == old(cart)
      ensures !isLoading && isSubmitting == old(isSubmitting)
    {
      isLoading := true;
      match response
      case Fetched(c) =>
        cart := c;
        isLoading := false;
        success := true;
      case FetchFailed(status) =>
        isLoading := false;
        if status == 401 {
          cart := EmptyCart;
        }
        success := false;
    }

    /** `addToCart`: on success the cart is fetched again (whatever that
        fetch gives, the add reports success). */
    method AddToCart(addOk: bool, response: FetchResponse) returns (success: bool)
      modifies this
      ensures success == addOk
      ensures !addOk ==> cart == old(cart) && isLoading == old(isLoading)
      ensures addOk && response.Fetched? ==> cart == response.cart
      ensures addOk && response.FetchFailed? && response.status == 401 ==> cart == EmptyCart
      ensures addOk && response.FetchFailed? && response.status != 401 ==> cart == old(cart)
      ensures addOk ==> !isLoading
      ensures !isSubmitting
    {
      isSubmitting := true;
      if !addOk {
        isSubmitting := false;
        return false;
      }
      var _ := FetchCart(response);
      isSubmitting := false;
      success := true;
    }

    /** `updateCartItem`: after the server accepts, the lines with that id
        take the quantity and the summary is recomputed, keeping the
        availability flag. A refused request changes only `isSubmitting`. */
    method UpdateCartItem(id: ClientId, q: int, serverOk: bool) returns (success: bool)
      modifies this
      ensures success == serverOk && !isSubmitting && isLoading == old(isLoading)
      ensures !serverOk ==> cart == old(cart)
      ensures serverOk ==>
                var items := WithQuantity(old(cart).items, id, q);
                cart == ClientCart(items, Recompute(items, old(cart).summary.hasUnavailableItems))
    {
      isSubmitting := true;
      if !serverOk {
        isSubmitting := false;
        return false;
      }
      var items := WithQuantity(cart.items, id, q);
      cart := ClientCart(items, Recompute(items, cart.summary.hasUnavailableItems));
      isSubmitting := false;
      success := true;
    }

    /** `removeFromCart`: the lines with that id go, the summary is
        recomputed and the availability flag is cleared. */
    method RemoveFromCart(id: ClientId, serverOk: bool) returns (success: bool)
      modifies this
      ensures success == serverOk && !isSubmitting && isLoading == old(isLoading)
      ensures !serverOk ==> cart == old(cart)
      ensures serverOk ==>
                var items := WithoutId(old(cart).items, id);
                cart == ClientCart(items, Recompute(items, false))
    {
      isSubmitting := true;
      if !serverOk {
        isSubmitting := false;
        return false;
      }
      var items := WithoutId(cart.items, id);
      cart := ClientCart(items, Recompute(items, false));
      isSubmitting := false;
      success := true;
    }

    /** `clearCart` */
    method ClearCart(serverOk: bool) returns (success: bool)
      modifies this
      ensures success == serverOk && !isSubmitting && isLoading == old(isLoading)
      ensures cart == if serverOk then EmptyCart else old(cart)
    {
      isSubmitting := true;
      if serverOk {
        cart := EmptyCart;
      }
      isSubmitting := false;
      success := serverOk;
    }

    /** `moveToWishlist`: after the server moves the line, the local removal
        runs; its own failure does not make the move report failure. */
    method MoveToWishlist(id: ClientId, moveOk: bool, removeOk: bool) returns (success: bool)
      modifies this
      ensures success == moveOk && !isSubmitting && isLoading == old(isLoading)
      ensures !(moveOk && removeOk) ==> cart == old(cart)
      ensures moveOk && removeOk ==>
                var items := WithoutId(old(cart).items, id);
                cart == ClientCart(items, Recompute(items, false))
    {
      isSubmitting := true;
      if !moveOk {
        isSubmitting := false;
        return false;
      }
      var _ := RemoveFromCart(id, removeOk);
      success := true;
    }

    /** `quickAddToCart`: the optimistic line is written first, then the add
        request runs. A refused add does not roll the optimistic line back. */
    method QuickAddToCart(b: BookId, price: real, quantity: Option<int>, stamp: int,
                          addOk: bool, response: FetchResponse) returns (success: bool)
      modifies this
      ensures success == addOk && !isSubmitting
      ensures var items := QuickAdded(old(cart).items, b, price, quantity.GetOr(1), stamp);
              var optimistic := ClientCart(items, Recompute(items, old(cart).summary.hasUnavailableItems));
              (!addOk ==> cart == optimistic)
              && (addOk && response.Fetched? ==> cart == response.cart)
              && (addOk && response.FetchFailed? && response.status != 401 ==> cart == optimistic)
              && (addOk && response.FetchFailed? && response.status == 401 ==> cart == EmptyCart)
    {
      var q := quantity.GetOr(1);
      var items := QuickAdded(cart.items, b, price, q, stamp);
      cart := ClientCart(items, Recompute(items, cart.summary.hasUnavailableItems));
      success := AddToCart(addOk, response);
    }

    /** `resetCart` (on logout). */
    method ResetCart()
      modifies this
      ensures cart == EmptyCart && !isLoading && !isSubmitting
    {
      cart := EmptyCart;
      isLoading := false;
      isSubmitting := false;
    }

    /** `getCartCount` */
    function CartCount(): (n: int)
      reads this
      ensures n == cart.summary.totalItems
    {
      cart.summary.totalItems
    }

    /** `isInCart` */
    predicate IsInCart(b: BookId)
      reads this
    {
      exists i :: 0 <= i < |cart.items| && cart.items[i].book == b
    }

    /** `getCartItem`: the first line for the book. */
    function CartItem(b: BookId): (r: Option<ClientItem>)
      reads this
      ensures r.Some? <==> IsInCart(b)
      ensures r.Some? ==> exists i :: 0 <= i < |cart.items| && cart.items[i] == r.value && r.value.book == b
                                      && forall k :: 0 <= k < i ==> cart.items[k].book != b
    {
      match FirstWithBook(cart.items, BookOf, b)
      case None => None
      case Some(i) => Some(cart.items[i])
    }
  }

  /** The book of a cart line. */
  function BookOf(item: ClientItem): BookId {
    item.book
  }

  /** After any local edit the count the badge shows is the sum of the
      line quantities. */
  lemma CountAfterEdit(items: seq<ClientItem>, flag: bool)
    ensures Recompute(items, flag).totalItems == TotalQuantity(items)
  {
  }

  /** Clearing, resetting and removing the last line all leave the zero
      summary's money part equal to the server's formula for an empty
      cart, except for the shipping fee the formula charges an empty
      cart. */
  lemma EmptySummaryVsFormula()
    ensures Money(Recompute([], false)) == Pricing.Summarize(0.0)
    ensures Recompute([], false).shipping == 5.99 && EmptySummary.shipping == 0.0
  {
  }
}
