/** The order routes: checkout from the server cart, cancellation by the
    customer, the role-gated status update and the view rule.

    Checkout validates every cart line before anything is written, snapshots
    each line (price, discount, subtotal), plans a stock decrement for each
    physical book, saves the order as pending, applies the decrements and
    empties the cart. Cancellation puts the quantities back. */
module Orders {
  import opened Types
  import Pricing
  import Text
  import opened OrderModel
  import ServerCart

  // ---------------------------------------------------------------------
  // Request validation of POST /create

  /** `trim().notEmpty()`: some character is not whitespace (see
      `Text.TrimNonEmptyIffNonBlank`). */
  predicate Filled(s: string) {
    Text.NonBlank(s)
  }

  /** The validator chain: six trimmed address fields must be non-empty and
      the payment type must be one of the five listed. */
  predicate RequestValid(addr: Address, paymentType: string) {
    Filled(addr.fullName) && Filled(addr.street) && Filled(addr.city)
    && Filled(addr.state) && Filled(addr.zipCode) && Filled(addr.country)
    && paymentType in PaymentTypes
  }

  /** The `trim()` sanitizers rewrite the validated fields in the body, so
      the order stores them trimmed. */
  function TrimmedAddress(addr: Address): Address
  {
    Address(Text.Trim(addr.fullName), Text.Trim(addr.street), Text.Trim(addr.city),
            Text.Trim(addr.state), Text.Trim(addr.zipCode), Text.Trim(addr.country),
            addr.phoneNumber)
  }

  /** The stored address is a fixed point of the sanitizers, and a valid
      request stores no empty address field. */
  lemma TrimmedAddressSound(addr: Address, paymentType: string)
    ensures TrimmedAddress(TrimmedAddress(addr)) == TrimmedAddress(addr)
    ensures RequestValid(addr, paymentType) ==>
              var r := TrimmedAddress(addr);
              r.fullName != "" && r.street != "" && r.city != "" && r.state != ""
              && r.zipCode != "" && r.country != ""
  {
    Text.TrimIdempotent(addr.fullName);
    Text.TrimIdempotent(addr.street);
    Text.TrimIdempotent(addr.city);
    Text.TrimIdempotent(addr.state);
    Text.TrimIdempotent(addr.zipCode);
    Text.TrimIdempotent(addr.country);
    Text.TrimNonEmptyIffNonBlank(addr.fullName);
    Text.TrimNonEmptyIffNonBlank(addr.street);
    Text.TrimNonEmptyIffNonBlank(addr.city);
    Text.TrimNonEmptyIffNonBlank(addr.state);
    Text.TrimNonEmptyIffNonBlank(addr.zipCode);
    Text.TrimNonEmptyIffNonBlank(addr.country);
  }

  // ---------------------------------------------------------------------
  // The checkout plan

  /** A planned decrement. The record carries the quantity to subtract; see
      `PlannedRecordAsWritten` for the record as the route builds it. */
  datatype StockUpdate = StockUpdate(book: BookId, newStock: int, quantity: int)

  /** What the validation loop accumulates: the order lines, the running
      subtotal and the planned decrements. */
  datatype Plan = Plan(lines: seq<OrderLine>, subtotal: real, updates: seq<StockUpdate>)

  /** Why a cart line blocks checkout, if it does: its book is gone or
      inactive, or it is physical and short of stock. */
  function LineCheck(books: map<BookId, Book>, l: ServerCart.CartLine): (r: Option<Failure>)
    ensures r.None? <==> ServerCart.Active(books, l.book) && CanSupply(books[l.book], l.quantity)
    ensures r == Some(NoLongerAvailable) <==> !ServerCart.Active(books, l.book)
  {
    if !ServerCart.Active(books, l.book) then Some(NoLongerAvailable)
    else if !books[l.book].isDigital && books[l.book].stock < l.quantity then
      Some(InsufficientStock(books[l.book].stock))
    else None
  }

  /** `originalPrice ? (originalPrice - price) * quantity : 0` */
  function Discount(b: Book, quantity: int): (d: real)
    ensures HasOriginalPrice(b) && b.originalPrice.value >= b.price && quantity >= 0 ==> d >= 0.0
    ensures !HasOriginalPrice(b) ==> d == 0.0
  {
    if HasOriginalPrice(b) then (b.originalPrice.value - b.price) * quantity as real else 0.0
  }

  /** The order line copied from a cart line and its book. */
  function Snapshot(books: map<BookId, Book>, l: ServerCart.CartLine): (o: OrderLine)
    requires l.book in books
    ensures o.book == l.book && o.seller == books[l.book].seller && o.quantity == l.quantity
    ensures o.price == books[l.book].price
    ensures o.subtotal == o.price * o.quantity as real
    ensures o.discount == Discount(books[l.book], l.quantity)
  {
    var b := books[l.book];
    OrderLine(l.book, b.seller, l.quantity, b.price, Discount(b, l.quantity), b.price * l.quantity as real)
  }

  /** The decrements planned for a line: one for a physical book, none for
      a digital one. */
  function UpdatesFor(books: map<BookId, Book>, l: ServerCart.CartLine): seq<StockUpdate>
    requires l.book in books
  {
    var b := books[l.book];
    if b.isDigital then [] else [StockUpdate(l.book, b.stock - l.quantity, l.quantity)]
  }

  /** The validation loop over the cart, defined from the end: the plan of a
      prefix, or the failure of its first blocking line. */
  function PlanLines(books: map<BookId, Book>, cart: seq<ServerCart.CartLine>): Result<Plan>
  {
    if cart == [] then Ok(Plan([], 0.0, []))
    else
      var last := cart[|cart| - 1];
      match PlanLines(books, cart[..|cart| - 1])
      case Err(f) => Err(f)
      case Ok(p) =>
        match LineCheck(books, last)
        case Some(f) => Err(f)
        case None =>
          Ok(Plan(p.lines + [Snapshot(books, last)],
                  p.subtotal + books[last.book].price * last.quantity as real,
                  p.updates + UpdatesFor(books, last)))
  }

  /** The plan of one more line: the prefix's plan extended by the line's
      snapshot, or the line's failure. */
  lemma PlanStep(books: map<BookId, Book>, cart: seq<ServerCart.CartLine>, i: nat)
    requires i < |cart| && PlanLines(books, cart[..i]).Ok?
    ensures LineCheck(books, cart[i]).Some? ==> PlanLines(books, cart[..i + 1]) == Err(LineCheck(books, cart[i]).value)
    ensures LineCheck(books, cart[i]).None? ==>
              var p := PlanLines(books, cart[..i]).value;
              PlanLines(books, cart[..i + 1])
                == Ok(Plan(p.lines + [Snapshot(books, cart[i])],
                           p.subtotal + books[cart[i].book].price * cart[i].quantity as real,
                           p.updates + UpdatesFor(books, cart[i])))
  {
    var prefix := cart[..i + 1];
    assert prefix[..|prefix| - 1] == cart[..i];
    assert prefix[|prefix| - 1] == cart[i];
    if LineCheck(books, cart[i]).None? {
      var p := PlanLines(books, cart[..i]).value;
      assert PlanLines(books, prefix).Ok?;
      assert PlanLines(books, prefix).value.subtotal == p.subtotal + books[cart[i].book].price * cart[i].quantity as real;
      assert PlanLines(books, prefix).value.lines == p.lines + [Snapshot(books, cart[i])];
      assert PlanLines(books, prefix).value.updates == p.updates + UpdatesFor(books, cart[i]);
    }
  }

  /** Once a prefix fails, the whole cart fails with the same reason. */
  lemma {:induction false} PlanPrefixFailure(books: map<BookId, Book>, cart: seq<ServerCart.CartLine>, k: nat)
    requires k <= |cart| && PlanLines(books, cart[..k]).Err?
    ensures PlanLines(books, cart) == PlanLines(books, cart[..k])
    decreases |cart|
  {
    if k < |cart| {
      var init := cart[..|cart| - 1];
      assert init[..k] == cart[..k];
      PlanPrefixFailure(books, init, k);
    } else {
      assert cart[..k] == cart;
    }
  }

  /** Checkout fails exactly when some line is blocked, and then with the
      reason of the first blocked line. */
  lemma {:induction false} PlanFailsIffBlocked(books: map<BookId, Book>, cart: seq<ServerCart.CartLine>)
    ensures PlanLines(books, cart).Err? <==> exists i :: 0 <= i < |cart| && LineCheck(books, cart[i]).Some?
    ensures PlanLines(books, cart).Err? ==>
              exists i :: 0 <= i < |cart| && LineCheck(books, cart[i]) == Some(PlanLines(books, cart).failure)
                          && forall k :: 0 <= k < i ==> LineCheck(books, cart[k]).None?
  {
    if cart != [] {
      var init := cart[..|cart| - 1];
      var last := cart[|cart| - 1];
      PlanFailsIffBlocked(books, init);
      if exists i :: 0 <= i < |init| && LineCheck(books, init[i]).Some? {
        var i :| 0 <= i < |init| && LineCheck(books, init[i]).Some?;
        assert cart[i] == init[i];
      }
      if PlanLines(books, init).Err? {
        var i :| 0 <= i < |init| && LineCheck(books, init[i]) == Some(PlanLines(books, init).failure)
                 && forall k :: 0 <= k < i ==> LineCheck(books, init[k]).None?;
        assert cart[i] == init[i];
        assert forall k :: 0 <= k < i ==> cart[k] == init[k];
      } else {
        assert forall k :: 0 <= k < |init| ==> cart[k] == init[k];
      }
    }
  }

  /** A successful plan has one snapshot per cart line, in order, and its
      subtotal is the cart summary's subtotal: every line is then listed. */
  lemma {:induction false} PlanMatchesCart(books: map<BookId, Book>, cart: seq<ServerCart.CartLine>)
    requires PlanLines(books, cart).Ok?
    ensures var p := PlanLines(books, cart).value;
            |p.lines| == |cart|
            && (forall i :: 0 <= i < |cart| ==> cart[i].book in books && p.lines[i] == Snapshot(books, cart[i]))
            && p.subtotal == ServerCart.Subtotal(books, cart)
  {
    if cart != [] {
      var init := cart[..|cart| - 1];
      PlanMatchesCart(books, init);
      assert forall i :: 0 <= i < |init| ==> cart[i] == init[i];
    }
  }

  /** Decrements are planned for physical books only, each from the book's
      current stock; the earlier stock check makes every new stock
      non-negative. */
  lemma {:induction false} PlannedUpdatesSound(books: map<BookId, Book>, cart: seq<ServerCart.CartLine>)
    requires PlanLines(books, cart).Ok?
    ensures forall u :: u in PlanLines(books, cart).value.updates ==>
              u.book in books && !books[u.book].isDigital
              && u.newStock == books[u.book].stock - u.quantity && u.newStock >= 0
  {
    if cart != [] {
      PlannedUpdatesSound(books, cart[..|cart| - 1]);
    }
  }

  /** The all-or-nothing decision of POST /create: request validation, the
      empty cart, the line checks, and the schema minimums at `save`. */
  function CheckoutPlan(books: map<BookId, Book>, cart: seq<ServerCart.CartLine>,
                        addr: Address, paymentType: string): (r: Result<Plan>)
    ensures !RequestValid(addr, paymentType) ==> r == Err(ValidationFailed)
    ensures RequestValid(addr, paymentType) && cart == [] ==> r == Err(CartEmpty)
    ensures r.Ok? ==> r == PlanLines(books, cart)
                      && DocumentValid(r.value.lines, Pricing.Summarize(r.value.subtotal))
  {
    if !RequestValid(addr, paymentType) then Err(ValidationFailed)
    else if cart == [] then Err(CartEmpty)
    else match PlanLines(books, cart)
      case Err(f) => Err(f)
      case Ok(p) =>
        if DocumentValid(p.lines, Pricing.Summarize(p.subtotal)) then Ok(p) else Err(ServerError)
  }

  /** Once the request, the cart and every line pass, POST /create succeeds
      exactly when the intended `save` stores the new order under its
      generated number, and fails with the 500 that `save` gives otherwise. */
  lemma CheckoutSavesNumbered(books: map<BookId, Book>, cart: seq<ServerCart.CartLine>, addr: Address,
                              paymentType: string, clock36: string, random5: string)
    requires RequestValid(addr, paymentType) && cart != [] && PlanLines(books, cart).Ok?
    ensures var p := PlanLines(books, cart).value;
            var saved := SaveNumbered(None, p.lines, Pricing.Summarize(p.subtotal), GeneratedNumber(clock36, random5));
            (CheckoutPlan(books, cart, addr, paymentType).Ok? <==> saved == Ok(GeneratedNumber(clock36, random5)))
            && (saved.Err? ==> CheckoutPlan(books, cart, addr, paymentType) == Err(saved.failure))
  {
    var p := PlanLines(books, cart).value;
    NewOrderNumbered(p.lines, Pricing.Summarize(p.subtotal), clock36, random5, None);
  }

  /** Books whose prices are non-negative and never above their original
      price, in a cart whose quantities are positive, always pass the save:
      a valid request fails only on an empty cart or a blocked line. */
  lemma {:induction false} SaveAcceptsSanePrices(books: map<BookId, Book>, cart: seq<ServerCart.CartLine>,
                                                 addr: Address, paymentType: string)
    requires RequestValid(addr, paymentType) && cart != []
    requires ServerCart.QuantitiesPositive(cart)
    requires forall b :: b in books ==> books[b].price >= 0.0
    requires forall b :: b in books && HasOriginalPrice(books[b]) ==> books[b].originalPrice.value >= books[b].price
    ensures CheckoutPlan(books, cart, addr, paymentType).Err? <==>
            exists i :: 0 <= i < |cart| && LineCheck(books, cart[i]).Some?
  {
    PlanFailsIffBlocked(books, cart);
    if PlanLines(books, cart).Ok? {
      PlanDocumentValid(books, cart);
    }
  }

  /** Under the same price and quantity conditions, a plan's lines and
      summary meet the schema's minimums. */
  lemma PlanDocumentValid(books: map<BookId, Book>, cart: seq<ServerCart.CartLine>)
    requires PlanLines(books, cart).Ok?
    requires ServerCart.QuantitiesPositive(cart)
    requires forall b :: b in books ==> books[b].price >= 0.0
    requires forall b :: b in books && HasOriginalPrice(books[b]) ==> books[b].originalPrice.value >= books[b].price
    ensures var p := PlanLines(books, cart).value;
            DocumentValid(p.lines, Pricing.Summarize(p.subtotal))
  {
    var p := PlanLines(books, cart).value;
    PlanMatchesCart(books, cart);
    ServerCart.SubtotalNonNegative(books, cart);
    Pricing.TotalBounds(p.subtotal);
    forall i | 0 <= i < |p.lines| ensures LineValid(p.lines[i]) {
      assert p.lines[i] == Snapshot(books, cart[i]);
      assert cart[i].quantity >= 1;
    }
  }

  /** A book sold above its original price makes `discount` negative, which
      the schema's `min: 0` refuses at `save`: the route answers 500 and
      nothing is written. */
  lemma DiscountBelowZeroRefused(addr: Address, paymentType: string)
    requires RequestValid(addr, paymentType)
    ensures var b := Book("T", "A", "C", 12.0, Some(10.0), 5, false, true, false, 0, 0.0, 0, 7);
            CheckoutPlan(map[3 := b], [ServerCart.CartLine(1, 3, 2)], addr, paymentType) == Err(ServerError)
  {
    var b := Book("T", "A", "C", 12.0, Some(10.0), 5, false, true, false, 0, 0.0, 0, 7);
    var books := map[3 := b];
    var cart := [ServerCart.CartLine(1, 3, 2)];
    assert cart[..0] == [];
    PlanStep(books, cart, 0);
    assert cart[..1] == cart;
    assert !LineValid(PlanLines(books, cart).value.lines[0]);
  }

  // ---------------------------------------------------------------------
  // Stock effects

  /** `$inc: { stock: -q, totalSales: q }` on one book; an unknown id
      matches nothing. */
  function Decrement(books: map<BookId, Book>, u: StockUpdate): map<BookId, Book>
  {
    if u.book in books then
      books[u.book := books[u.book].(stock := books[u.book].stock - u.quantity,
                                     totalSales := books[u.book].totalSales + u.quantity)]
    else books
  }

  function ApplyUpdates(books: map<BookId, Book>, us: seq<StockUpdate>): map<BookId, Book>
  {
    if us == [] then books else Decrement(ApplyUpdates(books, us[..|us| - 1]), us[|us| - 1])
  }

  /** Cancellation's `$inc: { stock: q, totalSales: -q }`, only for a book
      that still exists and is physical. */
  function Replenish(books: map<BookId, Book>, l: OrderLine): map<BookId, Book>
  {
    if l.book in books && !books[l.book].isDigital then
      books[l.book := books[l.book].(stock := books[l.book].stock + l.quantity,
                                     totalSales := books[l.book].totalSales - l.quantity)]
    else books
  }

  function Restock(books: map<BookId, Book>, lines: seq<OrderLine>): map<BookId, Book>
  {
    if lines == [] then books else Replenish(Restock(books, lines[..|lines| - 1]), lines[|lines| - 1])
  }

  /** Total quantity the updates take from book `b`. */
  function UpdatedQuantity(us: seq<StockUpdate>, b: BookId): int
  {
    if us == [] then 0
    else UpdatedQuantity(us[..|us| - 1], b) + (if us[|us| - 1].book == b then us[|us| - 1].quantity else 0)
  }

  /** Total quantity the lines order of book `b`. */
  function OrderedQuantity(lines: seq<OrderLine>, b: BookId): int
  {
    if lines == [] then 0
    else OrderedQuantity(lines[..|lines| - 1], b) + (if lines[|lines| - 1].book == b then lines[|lines| - 1].quantity else 0)
  }

  function Shifted(b: Book, delta: int): Book {
    b.(stock := b.stock + delta, totalSales := b.totalSales - delta)
  }

  /** Applying the decrements takes each book's total planned quantity off
      its stock and adds it to its sales; no book appears or disappears. */
  lemma {:induction false} ApplyUpdatesEffect(books: map<BookId, Book>, us: seq<StockUpdate>)
    ensures ApplyUpdates(books, us).Keys == books.Keys
    ensures forall b :: b in books ==> ApplyUpdates(books, us)[b] == Shifted(books[b], -UpdatedQuantity(us, b))
  {
    if us != [] {
      ApplyUpdatesEffect(books, us[..|us| - 1]);
    }
  }

  /** Restocking adds each physical book's ordered quantity back to its
      stock and takes it off its sales; digital books are untouched. */
  lemma {:induction false} RestockEffect(books: map<BookId, Book>, lines: seq<OrderLine>)
    ensures Restock(books, lines).Keys == books.Keys
    ensures forall b :: b in books ==>
              Restock(books, lines)[b] == Shifted(books[b], if books[b].isDigital then 0 else OrderedQuantity(lines, b))
  {
    if lines != [] {
      RestockEffect(books, lines[..|lines| - 1]);
    }
  }

  /** The plan takes from each physical book exactly what its lines order,
      and nothing from digital books. */
  lemma {:induction false} PlanQuantities(books: map<BookId, Book>, cart: seq<ServerCart.CartLine>, b: BookId)
    requires PlanLines(books, cart).Ok? && b in books
    ensures var p := PlanLines(books, cart).value;
            UpdatedQuantity(p.updates, b) == (if books[b].isDigital then 0 else OrderedQuantity(p.lines, b))
  {
    if cart != [] {
      var init := cart[..|cart| - 1];
      var last := cart[|cart| - 1];
      var p0 := PlanLines(books, init).value;
      var p := PlanLines(books, cart).value;
      PlanQuantities(books, init, b);
      assert p.lines[..|p.lines| - 1] == p0.lines;
      var extra := UpdatesFor(books, last);
      if extra != [] {
        assert p.updates[..|p.updates| - 1] == p0.updates;
      } else {
        assert p.updates == p0.updates;
      }
    }
  }

  /** Cancelling right after checkout gives every book back its stock and
      sales: the restock undoes the planned decrements. */
  lemma CancelUndoesCheckout(books: map<BookId, Book>, cart: seq<ServerCart.CartLine>)
    requires PlanLines(books, cart).Ok?
    ensures var p := PlanLines(books, cart).value;
            Restock(ApplyUpdates(books, p.updates), p.lines) == books
  {
    var p := PlanLines(books, cart).value;
    var after := ApplyUpdates(books, p.updates);
    ApplyUpdatesEffect(books, p.updates);
    RestockEffect(after, p.lines);
    forall b | b in books ensures Restock(after, p.lines)[b] == books[b] {
      PlanQuantities(books, cart, b);
    }
  }

  /** In a cart with one line per book, each decremented book ends at the
      `newStock` its record planned. */
  lemma NewStockReached(books: map<BookId, Book>, cart: seq<ServerCart.CartLine>, u: StockUpdate)
    requires ServerCart.OneLinePerBook(cart)
    requires PlanLines(books, cart).Ok? && u in PlanLines(books, cart).value.updates
    ensures var p := PlanLines(books, cart).value;
            u.book in ApplyUpdates(books, p.updates)
            && ApplyUpdates(books, p.updates)[u.book].stock == u.newStock
  {
    var p := PlanLines(books, cart).value;
    PlannedUpdatesSound(books, cart);
    ApplyUpdatesEffect(books, p.updates);
    PlanQuantities(books, cart, u.book);
    PlanMatchesCart(books, cart);
    PlannedLineForUpdate(books, cart, u);
    var i :| 0 <= i < |cart| && cart[i].book == u.book && cart[i].quantity == u.quantity;
    SingleLineQuantity(p.lines, i);
  }

  /** Every planned update comes from a cart line with its book and
      quantity. */
  lemma {:induction false} PlannedLineForUpdate(books: map<BookId, Book>, cart: seq<ServerCart.CartLine>, u: StockUpdate)
    requires PlanLines(books, cart).Ok? && u in PlanLines(books, cart).value.updates
    ensures exists i :: 0 <= i < |cart| && cart[i].book == u.book && cart[i].quantity == u.quantity
  {
    var init := cart[..|cart| - 1];
    var p0 := PlanLines(books, init).value;
    if u in p0.updates {
      PlannedLineForUpdate(books, init, u);
      var i :| 0 <= i < |init| && init[i].book == u.book && init[i].quantity == u.quantity;
      assert cart[i] == init[i];
    } else {
      assert cart[|cart| - 1].book == u.book;
    }
  }

  /** When only line `i` orders its book, the ordered quantity of that book
      is that line's. */
  lemma {:induction false} SingleLineQuantity(lines: seq<OrderLine>, i: nat)
    requires i < |lines|
    requires forall k :: 0 <= k < |lines| && k != i ==> lines[k].book != lines[i].book
    ensures OrderedQuantity(lines, lines[i].book) == lines[i].quantity
  {
    var init := lines[..|lines| - 1];
    if i < |lines| - 1 {
      assert init[i] == lines[i];
      SingleLineQuantity(init, i);
    } else {
      NoLineQuantity(init, lines[i].book);
    }
  }

  lemma {:induction false} NoLineQuantity(lines: seq<OrderLine>, b: BookId)
    requires forall k :: 0 <= k < |lines| ==> lines[k].book != b
    ensures OrderedQuantity(lines, b) == 0
  {
    if lines != [] {
      NoLineQuantity(lines[..|lines| - 1], b);
    }
  }

  // ---------------------------------------------------------------------
  // Findings: the decrement records and the populated `isActive`.

  /** The record the planning loop builds, as the key-value object it is:
      only `bookId` and `newStock`. */
  function PlannedRecordAsWritten(u: StockUpdate): (rec: map<string, int>)
    ensures "quantity" !in rec && "newStock" in rec && rec["newStock"] == u.newStock
  {
    map["bookId" := u.book as int, "newStock" := u.newStock]
  }

  /** The decrement loop as written: it increments by the record's
      `quantity` key, which a planned record does not have, so no number is
      added to either field. */
  function DecrementAsWritten(books: map<BookId, Book>, rec: map<string, int>): map<BookId, Book>
  {
    if "bookId" in rec && "quantity" in rec && rec["bookId"] >= 0 then
      Decrement(books, StockUpdate(rec["bookId"], 0, rec["quantity"]))
    else books
  }

  function ApplyRecordsAsWritten(books: map<BookId, Book>, recs: seq<map<string, int>>): map<BookId, Book>
  {
    if recs == [] then books else DecrementAsWritten(ApplyRecordsAsWritten(books, recs[..|recs| - 1]), recs[|recs| - 1])
  }

  function RecordsAsWritten(us: seq<StockUpdate>): (recs: seq<map<string, int>>)
    ensures |recs| == |us| && forall i :: 0 <= i < |us| ==> recs[i] == PlannedRecordAsWritten(us[i])
  {
    if us == [] then [] else RecordsAsWritten(us[..|us| - 1]) + [PlannedRecordAsWritten(us[|us| - 1])]
  }

  /** As written, the decrement loop never changes a book. */
  lemma {:induction false} AsWrittenStockUnchanged(books: map<BookId, Book>, us: seq<StockUpdate>)
    ensures ApplyRecordsAsWritten(books, RecordsAsWritten(us)) == books
  {
    if us != [] {
      var recs := RecordsAsWritten(us);
      assert recs[..|recs| - 1] == RecordsAsWritten(us[..|us| - 1]);
      AsWrittenStockUnchanged(books, us[..|us| - 1]);
    }
  }

  /** One physical book with stock 5 and a cart line for 2: the planned
      stock is 3, which the corrected decrement reaches and the loop as
      written leaves at 5. */
  lemma StockDecrementDiscrepancy()
    ensures var b := Book("T", "A", "C", 10.0, None, 5, false, true, false, 0, 0.0, 0, 7);
            var books := map[3 := b];
            var cart := [ServerCart.CartLine(1, 3, 2)];
            var us := [StockUpdate(3, 3, 2)];
            PlanLines(books, cart).Ok? && PlanLines(books, cart).value.updates == us
            && 3 in ApplyUpdates(books, us) && ApplyUpdates(books, us)[3].stock == 3
            && ApplyRecordsAsWritten(books, RecordsAsWritten(us)) == books
  {
    var b := Book("T", "A", "C", 10.0, None, 5, false, true, false, 0, 0.0, 0, 7);
    var books := map[3 := b];
    var line := ServerCart.CartLine(1, 3, 2);
    var cart := [line];
    var us := [StockUpdate(3, 3, 2)];
    assert cart[..|cart| - 1] == [];
    assert LineCheck(books, line).None?;
    assert UpdatesFor(books, line) == us;
    assert us[..|us| - 1] == [];
    AsWrittenStockUnchanged(books, us);
  }

  /** The line check as written: the populate projection of the cart's
      books selects `bookTitle price originalPrice stock isDigital seller`,
      so `book.isActive` is undefined and `!book.isActive` holds for every
      book. */
  function LineCheckAsWritten(books: map<BookId, Book>, l: ServerCart.CartLine): Option<Failure>
  {
    var projectedIsActive: Option<bool> := None;
    if l.book !in books || !projectedIsActive.GetOr(false) then Some(NoLongerAvailable)
    else if !books[l.book].isDigital && books[l.book].stock < l.quantity then
      Some(InsufficientStock(books[l.book].stock))
    else None
  }

  function PlanLinesAsWritten(books: map<BookId, Book>, cart: seq<ServerCart.CartLine>): Result<Plan>
  {
    if cart == [] then Ok(Plan([], 0.0, []))
    else
      var last := cart[|cart| - 1];
      match PlanLinesAsWritten(books, cart[..|cart| - 1])
      case Err(f) => Err(f)
      case Ok(p) =>
        match LineCheckAsWritten(books, last)
        case Some(f) => Err(f)
        case None =>
          Ok(Plan(p.lines + [Snapshot(books, last)],
                  p.subtotal + books[last.book].price * last.quantity as real,
                  p.updates + UpdatesFor(books, last)))
  }

  /** As written, every non-empty cart is refused as no longer available,
      whatever the books; with `isActive` read, a cart of active books in
      stock plans successfully. */
  lemma {:induction false} AsWrittenRefusesEveryCart(books: map<BookId, Book>, cart: seq<ServerCart.CartLine>)
    requires cart != []
    ensures PlanLinesAsWritten(books, cart) == Err(NoLongerAvailable)
    ensures (forall i :: 0 <= i < |cart| ==> LineCheck(books, cart[i]).None?) ==> PlanLines(books, cart).Ok?
  {
    var init := cart[..|cart| - 1];
    if init != [] {
      AsWrittenRefusesEveryCart(books, init);
    }
    PlanFailsIffBlocked(books, cart);
  }

  // ---------------------------------------------------------------------
  // Access rules

  predicate SellsIn(items: seq<OrderLine>, seller: UserId) {
    exists i :: 0 <= i < |items| && items[i].seller == seller
  }

  /** `canView` of GET /:orderId */
  predicate CanView(customer: UserId, items: seq<OrderLine>, a: Actor) {
    customer == a.id || a.role == Admin || (a.role == Seller && SellsIn(items, a.id))
  }

  /** `canUpdate` of PUT /:orderId/status */
  predicate CanUpdate(items: seq<OrderLine>, a: Actor) {
    a.role == Admin || (a.role == Seller && SellsIn(items, a.id))
  }

  /** Whoever may update an order may view it, and a customer may view an
      order only as its owner and never update it. */
  lemma UpdateImpliesView(customer: UserId, items: seq<OrderLine>, a: Actor)
    ensures CanUpdate(items, a) ==> CanView(customer, items, a)
    ensures a.role == Customer ==> !CanUpdate(items, a) && (CanView(customer, items, a) <==> customer == a.id)
  {
  }

  /** The decision of PUT /:orderId/status, in the route's order: the
      status name, then the order's existence, then the caller's right. The
      order's current status is not an input: there is no transition
      table. */
  function StatusDecision(raw: string, found: bool, items: seq<OrderLine>, a: Actor): (r: Result<Status>)
    ensures r.Ok? <==> raw in StatusNames && found && CanUpdate(items, a)
    ensures r.Ok? ==> StatusName(r.value) == raw
    ensures raw !in StatusNames ==> r == Err(InvalidStatus)
    ensures raw in StatusNames && !found ==> r == Err(OrderNotFound)
    ensures raw in StatusNames && found && !CanUpdate(items, a) ==> r == Err(AccessDenied)
  {
    match ParseStatus(raw)
    case None => Err(InvalidStatus)
    case Some(s) =>
      if !found then Err(OrderNotFound)
      else if !CanUpdate(items, a) then Err(AccessDenied)
      else Ok(s)
  }

  /** JavaScript truthiness of an optional string body field. */
  predicate Provided(s: Option<string>) {
    s.Some? && s.value != ""
  }

  /** The tracking assignments: a field changes only when provided. */
  function NewTracking(t: Tracking, trackingNumber: Option<string>, carrier: Option<string>): (r: Tracking)
    ensures r.trackingNumber == (if Provided(trackingNumber) then trackingNumber else t.trackingNumber)
    ensures r.carrier == (if Provided(carrier) then carrier else t.carrier)
  {
    Tracking(if Provided(trackingNumber) then trackingNumber else t.trackingNumber,
             if Provided(carrier) then carrier else t.carrier)
  }

  /** The decision of PUT /:orderId/cancel: owner first, then the stage. */
  function CancelDecision(customer: UserId, status: Status, caller: UserId): (r: Option<Failure>)
    ensures r.None? <==> customer == caller && (status == Pending || status == Confirmed)
    ensures customer != caller ==> r == Some(AccessDenied)
    ensures customer == caller && !(status == Pending || status == Confirmed) ==> r == Some(CannotCancel)
  {
    if customer != caller then Some(AccessDenied)
    else if status != Pending && status != Confirmed then Some(CannotCancel)
    else None
  }

  const CancelNote: string := "Cancelled by customer"

  // ---------------------------------------------------------------------
  // The routes

  /** The validation loop of POST /create. */
  method BuildPlan(books: map<BookId, Book>, cart: seq<ServerCart.CartLine>) returns (r: Result<Plan>)
    ensures r == PlanLines(books, cart)
  {
    var lines: seq<OrderLine> := [];
    var subtotal := 0.0;
    var updates: seq<StockUpdate> := [];
    var i := 0;
    while i < |cart|
      invariant 0 <= i <= |cart|
      invariant PlanLines(books, cart[..i]) == Ok(Plan(lines, subtotal, updates))
    {
      var item := cart[i];
      PlanStep(books, cart, i);
      if item.book !in books || !books[item.book].isActive {
        PlanPrefixFailure(books, cart, i + 1);
        return Err(NoLongerAvailable);
      }
      var book := books[item.book];
      if !book.isDigital && book.stock < item.quantity {
        PlanPrefixFailure(books, cart, i + 1);
        return Err(InsufficientStock(book.stock));
      }
      assert LineCheck(books, item).None?;
      var line := Snapshot(books, item);
      subtotal := subtotal + line.subtotal;
      lines := lines + [line];
      updates := updates + UpdatesFor(books, item);
      i := i + 1;
    }
    assert cart[..i] == cart;
    r := Ok(Plan(lines, subtotal, updates));
  }

  /** The decrement loop, each record carrying its quantity. */
  method ApplyStock(inv: Inventory, us: seq<StockUpdate>)
    modifies inv
    ensures inv.books == ApplyUpdates(old(inv.books), us)
  {
    var i := 0;
    while i < |us|
      invariant 0 <= i <= |us|
      invariant inv.books == ApplyUpdates(old(inv.books), us[..i])
    {
      assert us[..i + 1][..i] == us[..i];
      var u := us[i];
      if u.book in inv.books {
        var b := inv.books[u.book];
        inv.books := inv.books[u.book := b.(stock := b.stock - u.quantity, totalSales := b.totalSales + u.quantity)];
      }
      i := i + 1;
    }
    assert us[..i] == us;
  }

  /** The restore loop of the cancel route. */
  method RestoreStock(inv: Inventory, lines: seq<OrderLine>)
    modifies inv
    ensures inv.books == Restock(old(inv.books), lines)
  {
    var i := 0;
    while i < |lines|
      invariant 0 <= i <= |lines|
      invariant inv.books == Restock(old(inv.books), lines[..i])
    {
      assert lines[..i + 1][..i] == lines[..i];
      var l := lines[i];
      if l.book in inv.books && !inv.books[l.book].isDigital {
        var b := inv.books[l.book];
        inv.books := inv.books[l.book := b.(stock := b.stock + l.quantity, totalSales := b.totalSales - l.quantity)];
      }
      i := i + 1;
    }
    assert lines[..i] == lines;
  }

  /** The checks of POST /create, in their order: the request, the empty
      cart, each line against its book, then the order document. */
  method DecidePlan(books: map<BookId, Book>, cart: seq<ServerCart.CartLine>,
                    addr: Address, paymentType: string) returns (r: Result<Plan>)
    ensures r == CheckoutPlan(books, cart, addr, paymentType)
  {
    if !RequestValid(addr, paymentType) {
      return Err(ValidationFailed);
    }
    if |cart| == 0 {
      return Err(CartEmpty);
    }
    r := BuildPlan(books, cart);
    if r.Ok? && !DocumentValid(r.value.lines, Pricing.Summarize(r.value.subtotal)) {
      r := Err(ServerError);
    }
  }

  /** POST /create. On refusal nothing changes. On success the order is new
      and pending with the planned lines and the shared summary, the stock
      decrements are applied and the cart is empty. */
  method Checkout(account: ServerCart.Account, inv: Inventory, customer: UserId,
                  addr: Address, paymentType: string, notes: Option<string>) returns (r: Result<Order>)
    requires account.Valid()
    modifies account, inv
    ensures account.Valid() && account.wishlist == old(account.wishlist)
    ensures var expected := CheckoutPlan(old(inv.books), old(account.cart), addr, paymentType);
            (expected.Err? ==> r == Err(expected.failure)
                               && inv.books == old(inv.books) && account.cart == old(account.cart))
            && (expected.Ok? ==> r.Ok? && fresh(r.value)
                                 && r.value.customer == customer
                                 && r.value.items == expected.value.lines
                                 && r.value.summary == Pricing.Summarize(expected.value.subtotal)
                                 && r.value.shippingAddress == TrimmedAddress(addr)
                                 && r.value.paymentType == paymentType
                                 && r.value.customerNote == notes
                                 && r.value.Log() == NewLog
                                 && inv.books == ApplyUpdates(old(inv.books), expected.value.updates)
                                 && account.cart == [])
  {
    var decided := DecidePlan(inv.books, account.cart, addr, paymentType);
    if decided.Err? {
      return Err(decided.failure);
    }
    var plan := decided.value;
    var order := new Order(customer, plan.lines, Pricing.Summarize(plan.subtotal), TrimmedAddress(addr),
                           paymentType, notes);
    ApplyStock(inv, plan.updates);
    account.Clear();
    r := Ok(order);
  }

  /** PUT /:orderId/cancel. Refusals change nothing; otherwise the ordered
      physical quantities go back to stock and the order is cancelled with
      the customer's note. */
  method Cancel(orders: map<OrderId, Order>, orderId: OrderId, caller: UserId, inv: Inventory, now: int)
    returns (outcome: Outcome)
    modifies inv, if orderId in orders then {orders[orderId]} else {}
    ensures orderId !in orders ==> outcome == Refused(OrderNotFound) && inv.books == old(inv.books)
    ensures orderId in orders ==>
              var o := orders[orderId];
              var refusal := CancelDecision(old(o.customer), old(o.status), caller);
              (refusal.Some? ==>
                 outcome == Refused(refusal.value) && inv.books == old(inv.books) && o.Log() == old(o.Log()))
              && (refusal.None? ==>
                 outcome == Done
                 && inv.books == Restock(old(inv.books), old(o.items))
                 && o.Log() == ApplyStatus(old(o.Log()), StatusUpdate(Cancelled, Some(CancelNote), caller, now)))
    ensures orderId in orders ==> var o := orders[orderId];
              o.items == old(o.items) && o.customer == old(o.customer) && o.tracking == old(o.tracking)
  {
    if orderId !in orders {
      return Refused(OrderNotFound);
    }
    var o := orders[orderId];
    if o.customer != caller {
      return Refused(AccessDenied);
    }
    if o.status != Pending && o.status != Confirmed {
      return Refused(CannotCancel);
    }
    RestoreStock(inv, o.items);
    o.UpdateStatus(Cancelled, Some(CancelNote), caller, now);
    outcome := Done;
  }

  /** PUT /:orderId/status. Refusals change nothing; otherwise the status
      log advances by one update and tracking fields change only when
      provided. */
  method UpdateStatusRoute(orders: map<OrderId, Order>, orderId: OrderId, a: Actor, raw: string,
                           note: Option<string>, trackingNumber: Option<string>, carrier: Option<string>, now: int)
    returns (outcome: Outcome)
    modifies if orderId in orders then {orders[orderId]} else {}
    ensures var d := StatusDecision(raw, orderId in orders, if orderId in orders then old(orders[orderId].items) else [], a);
            (d.Err? ==> outcome == Refused(d.failure)
                        && (orderId in orders ==> orders[orderId].Log() == old(orders[orderId].Log())
                                                  && orders[orderId].tracking == old(orders[orderId].tracking)))
            && (d.Ok? ==> outcome == Done
                          && var o := orders[orderId];
                          o.Log() == ApplyStatus(old(o.Log()), StatusUpdate(d.value, note, a.id, now))
                          && o.tracking == NewTracking(old(o.tracking), trackingNumber, carrier))
    ensures orderId in orders ==> orders[orderId].items == old(orders[orderId].items)
  {
    var status := ParseStatus(raw);
    if status.None? {
      return Refused(InvalidStatus);
    }
    if orderId !in orders {
      return Refused(OrderNotFound);
    }
    var o := orders[orderId];
    if !CanUpdate(o.items, a) {
      return Refused(AccessDenied);
    }
    o.UpdateStatus(status.value, note, a.id, now);
    if Provided(trackingNumber) {
      o.tracking := o.tracking.(trackingNumber := trackingNumber);
    }
    if Provided(carrier) {
      o.tracking := o.tracking.(carrier := carrier);
    }
    outcome := Done;
  }
}
