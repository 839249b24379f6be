/** The second cart stack: a `Cart` collection keyed by owner, whose items
    carry a book and a quantity of at least 1. GET creates an empty cart on
    first use, add merges into the line for the same book or appends one,
    remove filters out every line for a book and checkout empties the items.
    Unlike the user-embedded cart there is no stock or activity check. */
module CartRoutes {
  import opened Types

  datatype Item = Item(book: BookId, quantity: int)

  /** The `min: 1` constraint of the item schema, checked at `save`. */
  predicate ItemsValid(items: seq<Item>) {
    forall i :: 0 <= i < |items| ==> items[i].quantity >= 1
  }

  predicate OneItemPerBook(items: seq<Item>) {
    forall i, j :: 0 <= i < j < |items| ==> items[i].book != items[j].book
  }

  /** `quantity || 1`: an absent or zero quantity counts as one. */
  function Requested(quantity: Option<int>): (q: int)
    ensures q == 1 || (quantity.Some? && q == quantity.value)
    ensures quantity.Some? && quantity.value != 0 ==> q == quantity.value
  {
    if quantity.None? || quantity.value == 0 then 1 else quantity.value
  }

  /** The book of a cart line. */
  function BookOf(item: Item): BookId {
    item.book
  }

  /** The items after the add route's merge-or-push. */
  function AddItem(items: seq<Item>, b: BookId, q: int): (r: seq<Item>)
  {
    match FirstWithBook(items, BookOf, b)
    case Some(i) => items[i := Item(b, items[i].quantity + q)]
    case None => items + [Item(b, q)]
  }

  /** `items.filter(item => item.book != bookId)` */
  function RemoveBook(items: seq<Item>, b: BookId): (r: seq<Item>)
    ensures |r| <= |items|
    ensures forall x :: x in r <==> x in items && x.book != b
  {
    if items == [] then []
    else (if items[0].book == b then [] else [items[0]]) + RemoveBook(items[1..], b)
  }

  function TotalQuantity(items: seq<Item>): int {
    if items == [] then 0 else items[0].quantity + TotalQuantity(items[1..])
  }

  lemma {:induction false} TotalQuantityUpdate(items: seq<Item>, i: nat, x: Item)
    requires i < |items|
    ensures TotalQuantity(items[i := x]) == TotalQuantity(items) - items[i].quantity + x.quantity
  {
    if i > 0 {
      assert items[i := x][1..] == items[1..][i - 1 := x];
      TotalQuantityUpdate(items[1..], i - 1, x);
    }
  }

  lemma {:induction false} TotalQuantityAppend(items: seq<Item>, x: Item)
    ensures TotalQuantity(items + [x]) == TotalQuantity(items) + x.quantity
  {
    if items != [] {
      assert (items + [x])[1..] == items[1..] + [x];
      TotalQuantityAppend(items[1..], x);
    }
  }

  /** Adding merges or appends: the cart holds `q` more copies in total,
      the book ends up with a line, at most one line per book is kept, and
      the line count grows only when the book was absent. */
  lemma AddItemEffect(items: seq<Item>, b: BookId, q: int)
    requires OneItemPerBook(items)
    ensures var r := AddItem(items, b, q);
            TotalQuantity(r) == TotalQuantity(items) + q
            && OneItemPerBook(r)
            && (exists i :: 0 <= i < |r| && r[i].book == b)
            && |r| == |items| + (if FirstWithBook(items, BookOf, b).None? then 1 else 0)
  {
    var r := AddItem(items, b, q);
    match FirstWithBook(items, BookOf, b)
    case Some(i) =>
      TotalQuantityUpdate(items, i, Item(b, items[i].quantity + q));
      assert r[i].book == b;
    case None =>
      TotalQuantityAppend(items, Item(b, q));
      assert r[|items|].book == b;
  }

  /** A positive quantity keeps the schema's minimum. */
  lemma AddKeepsValid(items: seq<Item>, b: BookId, q: int)
    requires ItemsValid(items) && q >= 1
    ensures ItemsValid(AddItem(items, b, q))
  {
  }

  /** Removing is idempotent and drops exactly the lines for that book. */
  lemma {:induction false} RemoveBookIdempotent(items: seq<Item>, b: BookId)
    ensures RemoveBook(RemoveBook(items, b), b) == RemoveBook(items, b)
  {
    if items != [] {
      RemoveBookIdempotent(items[1..], b);
      var rest := RemoveBook(items[1..], b);
      if items[0].book != b {
        var r := [items[0]] + rest;
        assert RemoveBook(items, b) == r;
        assert r[0] == items[0] && r[1..] == rest;
        assert RemoveBook(r, b) == [items[0]] + RemoveBook(rest, b);
      } else {
        assert RemoveBook(items, b) == [] + rest == rest;
      }
    }
  }

  lemma {:induction false} RemoveAbsentBook(items: seq<Item>, b: BookId)
    requires forall k :: 0 <= k < |items| ==> items[k].book != b
    ensures RemoveBook(items, b) == items
  {
    if items != [] {
      RemoveAbsentBook(items[1..], b);
    }
  }

  lemma {:induction false} RemoveBookAppend(items: seq<Item>, extra: seq<Item>, b: BookId)
    ensures RemoveBook(items + extra, b) == RemoveBook(items, b) + RemoveBook(extra, b)
  {
    if items != [] {
      assert (items + extra)[1..] == items[1..] + extra;
      RemoveBookAppend(items[1..], extra, b);
    } else {
      assert items + extra == extra;
    }
  }

  /** Adding a book the cart does not hold and then removing it gives the
      cart back. */
  lemma AddThenRemove(items: seq<Item>, b: BookId, q: int)
    requires forall k :: 0 <= k < |items| ==> items[k].book != b
    ensures RemoveBook(AddItem(items, b, q), b) == items
  {
    RemoveBookAppend(items, [Item(b, q)], b);
    RemoveAbsentBook(items, b);
    assert [Item(b, q)][1..] == [];
  }

  lemma RemoveKeepsValid(items: seq<Item>, b: BookId)
    requires ItemsValid(items)
    ensures ItemsValid(RemoveBook(items, b))
  {
    var r := RemoveBook(items, b);
    forall i | 0 <= i < |r| ensures r[i].quantity >= 1 {
      assert r[i] in items;
    }
  }

  lemma TailOnePerBook(items: seq<Item>)
    requires items != [] && OneItemPerBook(items)
    ensures OneItemPerBook(items[1..])
    ensures forall k :: 0 <= k < |items[1..]| ==> items[1..][k].book != items[0].book
  {
    var tail := items[1..];
    forall i, j | 0 <= i < j < |tail| ensures tail[i].book != tail[j].book {
      assert tail[i] == items[i + 1] && tail[j] == items[j + 1];
    }
    forall k | 0 <= k < |tail| ensures tail[k].book != items[0].book {
      assert tail[k] == items[k + 1];
    }
  }

  /** Prepending a line whose book no later line has keeps one line per book. */
  lemma ConsOnePerBook(x: Item, rest: seq<Item>)
    requires OneItemPerBook(rest)
    requires forall y :: y in rest ==> y.book != x.book
    ensures OneItemPerBook([x] + rest)
  {
    var r := [x] + rest;
    forall i, j | 0 <= i < j < |r| ensures r[i].book != r[j].book {
      assert r[j] == rest[j - 1];
      if i > 0 {
        assert r[i] == rest[i - 1];
      }
    }
  }

  lemma {:induction false} RemoveKeepsOnePerBook(items: seq<Item>, b: BookId)
    requires OneItemPerBook(items)
    ensures OneItemPerBook(RemoveBook(items, b))
  {
    if items != [] {
      var tail := items[1..];
      TailOnePerBook(items);
      RemoveKeepsOnePerBook(tail, b);
      var rest := RemoveBook(tail, b);
      if items[0].book != b {
        forall y | y in rest ensures y.book != items[0].book {
          assert y in tail;
        }
        ConsOnePerBook(items[0], rest);
        assert RemoveBook(items, b) == [items[0]] + rest;
      } else {
        assert RemoveBook(items, b) == rest;
      }
    }
  }

  /** Removing keeps every other line (in the same order) and the schema's
      minimum. */
  lemma RemoveKeepsInvariants(items: seq<Item>, b: BookId)
    requires ItemsValid(items) && OneItemPerBook(items)
    ensures ItemsValid(RemoveBook(items, b)) && OneItemPerBook(RemoveBook(items, b))
  {
    RemoveKeepsValid(items, b);
    RemoveKeepsOnePerBook(items, b);
  }

  /** The carts of all owners. */
  class CartCollection {
    var carts: map<UserId, seq<Item>>

    ghost predicate Valid()
      reads this
    {
      forall o :: o in carts ==> ItemsValid(carts[o]) && OneItemPerBook(carts[o])
    }

    constructor ()
      ensures Valid() && carts == map[]
    {
      carts := map[];
    }

    /** GET /: the owner's cart, created empty when missing. */
    method Get(owner: UserId) returns (items: seq<Item>)
      requires Valid()
      modifies this
      ensures Valid()
      ensures owner in old(carts) ==> carts == old(carts) && items == carts[owner]
      ensures owner !in old(carts) ==> carts == old(carts)[owner := []] && items == []
    {
      if owner !in carts {
        carts := carts[owner := []];
      }
      items := carts[owner];
    }

    /** POST /add. An unknown book is refused before anything else. The cart
        is created if missing (that creation is saved even when the later
        save fails). The merged items are saved only when every quantity is
        still at least 1; otherwise the route answers 500. */
    method Add(books: map<BookId, Book>, owner: UserId, bookId: BookId, quantity: Option<int>)
      returns (r: Result<seq<Item>>)
      requires Valid()
      modifies this
      ensures Valid()
      ensures bookId !in books ==> r == Err(BookUnavailable) && carts == old(carts)
      ensures bookId in books ==>
                var before := if owner in old(carts) then old(carts)[owner] else [];
                var after := AddItem(before, bookId, Requested(quantity));
                (ItemsValid(after) ==> r == Ok(after) && carts == old(carts)[owner := after])
                && (!ItemsValid(after) ==> r == Err(ServerError) && carts == old(carts)[owner := before])
    {
      if bookId !in books {
        return Err(BookUnavailable);
      }
      if owner !in carts {
        carts := carts[owner := []];
      }
      var items := carts[owner];
      var q := Requested(quantity);
      var i := 0;
      while i < |items| && items[i].book != bookId
        invariant 0 <= i <= |items|
        invariant forall k :: 0 <= k < i ==> items[k].book != bookId
      {
        i := i + 1;
      }
      var updated: seq<Item>;
      if i < |items| {
        updated := items[i := Item(bookId, items[i].quantity + q)];
      } else {
        updated := items + [Item(bookId, q)];
      }
      assert updated == AddItem(items, bookId, q);
      if !ItemsValid(updated) {
        return Err(ServerError);
      }
      AddItemEffect(items, bookId, q);
      carts := carts[owner := updated];
      r := Ok(updated);
    }

    /** POST /remove: 404 without a cart; otherwise every line for the book
        goes and the rest stay in order. */
    method Remove(owner: UserId, bookId: BookId) returns (r: Result<seq<Item>>)
      requires Valid()
      modifies this
      ensures Valid()
      ensures owner !in old(carts) ==> r == Err(CartNotFound) && carts == old(carts)
      ensures owner in old(carts) ==>
                var after := RemoveBook(old(carts)[owner], bookId);
                r == Ok(after) && carts == old(carts)[owner := after]
    {
      if owner !in carts {
        return Err(CartNotFound);
      }
      var after := RemoveBook(carts[owner], bookId);
      RemoveKeepsInvariants(carts[owner], bookId);
      carts := carts[owner := after];
      r := Ok(after);
    }

    /** POST /checkout: 404 without a cart; otherwise the items are emptied. */
    method Checkout(owner: UserId) returns (outcome: Outcome)
      requires Valid()
      modifies this
      ensures Valid()
      ensures owner !in old(carts) ==> outcome == Refused(CartNotFound) && carts == old(carts)
      ensures owner in old(carts) ==> outcome == Done && carts == old(carts)[owner := []]
    {
      if owner !in carts {
        return Refused(CartNotFound);
      }
      carts := carts[owner := []];
      outcome := Done;
    }
  }
}
