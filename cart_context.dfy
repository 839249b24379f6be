/** The older client cart context: a reducer over `{ items, total, isLoading }`
    whose item edits recompute `total` as the sum of price times quantity. */
module CartContext {
  import opened Types

  datatype Line = Line(bookId: BookId, price: real, quantity: int)

  datatype CartState = CartState(items: seq<Line>, total: real, isLoading: bool)

  const InitialState := CartState([], 0.0, false)

  /** The dispatched actions; `SetCart` carries the payload's `items` and
      `total`, either of which may be missing. */
  datatype Action =
    | SetLoading(loading: bool)
    | SetCart(payloadItems: Option<seq<Line>>, payloadTotal: Option<real>)
    | AddItem(line: Line)
    | UpdateQuantity(bookId: BookId, quantity: int)
    | RemoveItem(removed: BookId)
    | ClearCart
    | UnknownAction(name: string)

  function Cost(price: real, quantity: int): real {
    price * quantity as real
  }

  /** `items.reduce((sum, item) => sum + item.price * item.quantity, 0)` */
  function Total(items: seq<Line>): real {
    if items == [] then 0.0 else Total(items[..|items| - 1]) + Cost(items[|items| - 1].price, items[|items| - 1].quantity)
  }

  predicate HasBook(items: seq<Line>, b: BookId) {
    exists i :: 0 <= i < |items| && items[i].bookId == b
  }

  /** The `map` of ADD_ITEM for a book already present. */
  function AddQuantity(items: seq<Line>, b: BookId, q: int): (r: seq<Line>)
    ensures |r| == |items|
    ensures forall i :: 0 <= i < |items| ==>
              r[i] == if items[i].bookId == b then items[i].(quantity := items[i].quantity + q) else items[i]
  {
    if items == [] then []
    else
      var last := items[|items| - 1];
      AddQuantity(items[..|items| - 1], b, q)
      + [if last.bookId == b then last.(quantity := last.quantity + q) else last]
  }

  /** The `map` of UPDATE_QUANTITY. */
  function SetQuantity(items: seq<Line>, b: BookId, q: int): (r: seq<Line>)
    ensures |r| == |items|
    ensures forall i :: 0 <= i < |items| ==>
              r[i] == if items[i].bookId == b then items[i].(quantity := q) else items[i]
  {
    if items == [] then []
    else
      var last := items[|items| - 1];
      SetQuantity(items[..|items| - 1], b, q) + [if last.bookId == b then last.(quantity := q) else last]
  }

  /** The `filter` of REMOVE_ITEM. */
  function Drop(items: seq<Line>, b: BookId): (r: seq<Line>)
    ensures |r| <= |items|
    ensures forall x :: x in r <==> x in items && x.bookId != b
  {
    if items == [] then []
    else
      var last := items[|items| - 1];
      Drop(items[..|items| - 1], b) + (if last.bookId == b then [] else [last])
  }

  /** `cartReducer` */
  function Reduce(s: CartState, a: Action): CartState {
    match a
    case SetLoading(loading) => s.(isLoading := loading)
    case SetCart(items, total) => CartState(items.GetOr([]), total.GetOr(0.0), false)
    case AddItem(line) =>
      var items := if HasBook(s.items, line.bookId) then AddQuantity(s.items, line.bookId, line.quantity)
                   else s.items + [line];
      s.(items := items, total := Total(items))
    case UpdateQuantity(b, q) =>
      var items := SetQuantity(s.items, b, q);
      s.(items := items, total := Total(items))
    case RemoveItem(b) =>
      var items := Drop(s.items, b);
      s.(items := items, total := Total(items))
    case ClearCart => s.(items := [], total := 0.0)
    case UnknownAction(_) => s
  }

  /** The state's total is the sum over its items. */
  predicate Consistent(s: CartState) {
    s.total == Total(s.items)
  }

  /** Every item edit leaves a consistent total, whatever the state before;
      loading changes and unknown actions keep consistency. */
  lemma EditsRecomputeTotal(s: CartState, a: Action)
    requires !a.SetCart?
    requires a.SetLoading? || a.UnknownAction? ==> Consistent(s)
    ensures Consistent(Reduce(s, a))
  {
  }

  /** SET_CART is consistent exactly when the payload was, with missing
      parts read as empty and zero; it always ends loading. */
  lemma SetCartDefaults(s: CartState, items: Option<seq<Line>>, total: Option<real>)
    ensures Reduce(s, SetCart(items, total)).items == (if items.None? then [] else items.value)
    ensures Reduce(s, SetCart(items, total)).total == (if total.None? then 0.0 else total.value)
    ensures !Reduce(s, SetCart(items, total)).isLoading
    ensures Reduce(s, SetCart(None, None)) == InitialState
  {
  }

  /** SET_LOADING changes only the flag; CLEAR_CART empties the cart and
      keeps the flag; unknown actions change nothing. */
  lemma FlagsAndClear(s: CartState, loading: bool, name: string)
    ensures Reduce(s, SetLoading(loading)) == CartState(s.items, s.total, loading)
    ensures Reduce(s, ClearCart) == CartState([], 0.0, s.isLoading) && Consistent(Reduce(s, ClearCart))
    ensures Reduce(s, UnknownAction(name)) == s
  {
  }

  lemma {:induction false} TotalAppend(items: seq<Line>, extra: seq<Line>)
    ensures Total(items + extra) == Total(items) + Total(extra)
    decreases |extra|
  {
    if extra != [] {
      var init := extra[..|extra| - 1];
      assert (items + extra)[..|items + extra| - 1] == items + init;
      TotalAppend(items, init);
    } else {
      assert items + extra == items;
    }
  }

  lemma {:induction false} DropAbsent(items: seq<Line>, b: BookId)
    requires !HasBook(items, b)
    ensures Drop(items, b) == items
  {
    if items != [] {
      var init := items[..|items| - 1];
      var last := items[|items| - 1];
      assert !HasBook(init, b) by {
        forall i | 0 <= i < |init| ensures init[i].bookId != b {
          assert init[i] == items[i];
        }
      }
      assert last.bookId != b;
      DropAbsent(init, b);
      assert items == init + [last];
    }
  }

  lemma {:induction false} DropAppend(items: seq<Line>, l: Line, b: BookId)
    ensures Drop(items + [l], b) == Drop(items, b) + (if l.bookId == b then [] else [l])
  {
    assert (items + [l])[..|items|] == items;
  }

  /** One step of the filter from the back. */
  lemma DropLast(items: seq<Line>, b: BookId)
    requires items != []
    ensures Drop(items, b) == Drop(items[..|items| - 1], b)
                              + (if items[|items| - 1].bookId == b then [] else [items[|items| - 1]])
  {
  }

  /** REMOVE_ITEM drops every line of the book and keeps each other line
      as often as the cart had it. */
  lemma {:induction false} DropCount(items: seq<Line>, b: BookId, x: Line)
    ensures multiset(Drop(items, b))[x] == if x.bookId == b then 0 else multiset(items)[x]
  {
    if items != [] {
      var init := items[..|items| - 1];
      var last := items[|items| - 1];
      var kept: seq<Line> := if last.bookId == b then [] else [last];
      calc {
        multiset(Drop(items, b))[x];
      == { DropLast(items, b); }
        multiset(Drop(init, b) + kept)[x];
      ==
        multiset(Drop(init, b))[x] + multiset(kept)[x];
      == { DropCount(init, b, x); }
        (if x.bookId == b then 0 else multiset(init)[x]) + multiset(kept)[x];
      == { assert items == init + [last]; }
        if x.bookId == b then 0 else multiset(items)[x];
      }
    }
  }


  /** The kept lines stay in their order: the filter works line by line
      from the front as well. */
  lemma {:induction false} DropPrepend(l: Line, items: seq<Line>, b: BookId)
    ensures Drop([l] + items, b) == (if l.bookId == b then [] else [l]) + Drop(items, b)
  {
    var head: seq<Line> := if l.bookId == b then [] else [l];
    if items == [] {
      assert [l] + items == [] + [l];
      DropAppend([], l, b);
    } else {
      var init := items[..|items| - 1];
      var last := items[|items| - 1];
      var tail: seq<Line> := if last.bookId == b then [] else [last];
      calc {
        Drop([l] + items, b);
      == { assert [l] + items == ([l] + init) + [last]; }
        Drop(([l] + init) + [last], b);
      == { DropAppend([l] + init, last, b); }
        Drop([l] + init, b) + tail;
      == { DropPrepend(l, init, b); }
        head + Drop(init, b) + tail;
      == { DropLast(items, b); }
        head + Drop(items, b);
      }
    }
  }


  /** Adding a new book appends its line and raises the total by that
      line's cost; removing it again restores the items and the total. */
  lemma AddNewThenRemove(s: CartState, line: Line)
    requires !HasBook(s.items, line.bookId)
    ensures Reduce(s, AddItem(line)).items == s.items + [line]
    ensures Reduce(s, AddItem(line)).total == Total(s.items) + Cost(line.price, line.quantity)
    ensures Reduce(Reduce(s, AddItem(line)), RemoveItem(line.bookId)).items == s.items
    ensures Reduce(Reduce(s, AddItem(line)), RemoveItem(line.bookId)).total == Total(s.items)
  {
    TotalAppend(s.items, [line]);
    assert Total([line]) == Cost(line.price, line.quantity) by {
      assert [line][..0] == [];
    }
    DropAppend(s.items, line, line.bookId);
    DropAbsent(s.items, line.bookId);
  }

  /** Adding a book already present keeps the line count and the book of
      every line. */
  lemma AddPresentKeepsLines(s: CartState, line: Line)
    requires HasBook(s.items, line.bookId)
    ensures |Reduce(s, AddItem(line)).items| == |s.items|
    ensures forall i :: 0 <= i < |s.items| ==> Reduce(s, AddItem(line)).items[i].bookId == s.items[i].bookId
  {
  }

  /** REMOVE_ITEM leaves no line of the book, keeps every other line, and
      removing twice is removing once. */
  lemma {:induction false} RemoveIdempotent(items: seq<Line>, b: BookId)
    ensures !HasBook(Drop(items, b), b)
    ensures Drop(Drop(items, b), b) == Drop(items, b)
  {
    DropAbsent(Drop(items, b), b);
  }
}
