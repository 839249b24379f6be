/** The catalog routes: the listing filter built from the query string, the
    sort-key mapping, the pagination arithmetic, the owner-or-admin rule for
    updates and deletes, the whitelisted update copy, the soft delete and the
    body validation of a new book. The text search and the case-insensitive
    regular expressions are left abstract: a `Matchers` value says which
    books they accept. */
module Catalog {
  import opened Types
  import Text

  // ---------------------------------------------------------------------
  // Listing filter

  /** The query string of the listing, after JavaScript truthiness: an empty
      string is the same as an absent parameter. Prices are already parsed. */
  datatype ListingQuery = ListingQuery(
    category: Option<string>,
    minPrice: Option<real>,
    maxPrice: Option<real>,
    author: Option<string>,
    search: Option<string>,
    featured: Option<string>,
    inStock: Option<string>)

  /** `new RegExp(p, 'i').test(field)` and `$text: { $search: q }`;
      `valid` holds for the patterns `new RegExp` accepts, and a pattern it
      rejects throws before any query runs. */
  datatype Matchers = Matchers(pattern: (string, string) -> bool, text: (Book, string) -> bool,
                               valid: string -> bool)

  /** The Mongo filter document beyond `isActive: true`, which is always
      present. */
  datatype Filter = Filter(
    category: Option<string>,
    minPrice: Option<real>,
    maxPrice: Option<real>,
    author: Option<string>,
    search: Option<string>,
    featuredOnly: bool,
    inStockOnly: bool)

  /** A query parameter that JavaScript reads as true. */
  predicate Given(o: Option<string>) {
    o.Some? && o.value != ""
  }

  function Kept(o: Option<string>): Option<string> {
    if Given(o) then o else None
  }

  function BuildFilter(q: ListingQuery): Filter {
    Filter(
      if Given(q.category) && q.category.value != "all" then q.category else None,
      q.minPrice,
      q.maxPrice,
      Kept(q.author),
      Kept(q.search),
      q.featured == Some("true"),
      q.inStock == Some("true"))
  }

  /** Every regular expression the filter builds compiles. */
  predicate PatternsValid(f: Filter, m: Matchers) {
    (f.category.Some? ==> m.valid(f.category.value)) && (f.author.Some? ==> m.valid(f.author.value))
  }

  /** The books the filter document matches. */
  predicate Selects(f: Filter, m: Matchers, b: Book) {
    b.isActive
    && (f.category.Some? ==> m.pattern(f.category.value, b.category))
    && (f.minPrice.Some? ==> f.minPrice.value <= b.price)
    && (f.maxPrice.Some? ==> b.price <= f.maxPrice.value)
    && (f.author.Some? ==> m.pattern(f.author.value, b.author))
    && (f.search.Some? ==> m.text(b, f.search.value))
    && (f.featuredOnly ==> b.featured)
    && (f.inStockOnly ==> b.isDigital || b.stock > 0)
  }

  /** The matching books, in catalog order. */
  function Matching(books: seq<Book>, f: Filter, m: Matchers): (r: seq<Book>)
    ensures |r| <= |books|
    ensures forall b :: b in r <==> b in books && Selects(f, m, b)
  {
    if books == [] then []
    else (if Selects(f, m, books[0]) then [books[0]] else []) + Matching(books[1..], f, m)
  }

  /** An empty query lists exactly the active books. */
  lemma EmptyQueryListsActive(m: Matchers, b: Book)
    ensures Selects(BuildFilter(ListingQuery(None, None, None, None, None, None, None)), m, b) <==> b.isActive
  {
  }

  /** The listing never returns an inactive book. */
  lemma ListingOnlyActive(books: seq<Book>, q: ListingQuery, m: Matchers)
    ensures forall b :: b in Matching(books, BuildFilter(q), m) ==> b.isActive
  {
  }

  /** Each price bound adds one inclusive comparison to the filter. */
  lemma PriceBoundsInclusive(q: ListingQuery, m: Matchers, b: Book, lo: real, hi: real)
    ensures Selects(BuildFilter(q.(minPrice := Some(lo))), m, b) <==>
              Selects(BuildFilter(q.(minPrice := None)), m, b) && lo <= b.price
    ensures Selects(BuildFilter(q.(maxPrice := Some(hi))), m, b) <==>
              Selects(BuildFilter(q.(maxPrice := None)), m, b) && b.price <= hi
  {
  }

  /** `inStock=true` keeps exactly the digital books and those with stock;
      any other value is ignored. */
  lemma InStockFilter(q: ListingQuery, m: Matchers, b: Book)
    ensures Selects(BuildFilter(q.(inStock := Some("true"))), m, b) <==>
              Selects(BuildFilter(q.(inStock := None)), m, b) && (b.isDigital || b.stock > 0)
    ensures q.inStock != Some("true") ==> BuildFilter(q) == BuildFilter(q.(inStock := None))
  {
  }

  /** `featured=true` keeps only featured books; category `all` or an empty
      string means no category filter. */
  lemma FeaturedAndCategory(q: ListingQuery, m: Matchers, b: Book)
    ensures Selects(BuildFilter(q.(featured := Some("true"))), m, b) <==>
              Selects(BuildFilter(q.(featured := None)), m, b) && b.featured
    ensures BuildFilter(q.(category := Some("all"))) == BuildFilter(q.(category := None))
    ensures BuildFilter(q.(category := Some(""))) == BuildFilter(q.(category := None))
  {
  }

  // ---------------------------------------------------------------------
  // Sorting

  datatype SortKey = ByPrice | ByRating | BySales | ByTitle | ByCreated

  datatype SortSpec = SortSpec(key: SortKey, direction: int)

  /** The request names of the keys (the default `createdAt` for the last). */
  function SortName(k: SortKey): string {
    match k
    case ByPrice => "price"
    case ByRating => "rating"
    case BySales => "popularity"
    case ByTitle => "title"
    case ByCreated => "createdAt"
  }

  /** The `switch (sort)` and `order === 'desc' ? -1 : 1`, with the
      defaults `createdAt` and `desc`. */
  function SortOf(sort: Option<string>, order: Option<string>): (s: SortSpec)
    ensures s.direction == -1 || s.direction == 1
    ensures s.direction == -1 <==> order.None? || order.value == "desc"
    ensures sort.Some? && sort.value !in ["price", "rating", "popularity", "title"] ==> s.key == ByCreated
    ensures sort.None? ==> s.key == ByCreated
  {
    var name := sort.GetOr("createdAt");
    var dir := if order.GetOr("desc") == "desc" then -1 else 1;
    var key :=
      if name == "price" then ByPrice
      else if name == "rating" then ByRating
      else if name == "popularity" then BySales
      else if name == "title" then ByTitle
      else ByCreated;
    SortSpec(key, dir)
  }

  /** Every key is reachable by its name. */
  lemma SortNameRoundTrip(k: SortKey, order: Option<string>)
    ensures SortOf(Some(SortName(k)), order).key == k
  {
  }

  /** The order of strings by code unit, as the database compares titles. */
  predicate StringLe(a: string, b: string) {
    a == [] || (b != [] && (a[0] < b[0] || (a[0] == b[0] && StringLe(a[1..], b[1..]))))
  }

  /** `a` may precede `b` when sorting ascending on the key. */
  predicate KeyLe(k: SortKey, a: Book, b: Book) {
    match k
    case ByPrice => a.price <= b.price
    case ByRating => a.averageRating <= b.averageRating
    case BySales => a.totalSales <= b.totalSales
    case ByTitle => StringLe(a.title, b.title)
    case ByCreated => a.createdAt <= b.createdAt
  }

  /** `a` may precede `b` under the sort specification. */
  predicate InOrder(s: SortSpec, a: Book, b: Book) {
    if s.direction == 1 then KeyLe(s.key, a, b) else KeyLe(s.key, b, a)
  }

  /** The order `.sort(sortObj)` gives the matches. */
  predicate SortedBy(xs: seq<Book>, s: SortSpec) {
    forall i, j :: 0 <= i < j < |xs| ==> InOrder(s, xs[i], xs[j])
  }

  // ---------------------------------------------------------------------
  // Pagination

  datatype Pagination = Pagination(page: int, limit: int, total: nat, totalPages: nat, hasNext: bool, hasPrev: bool)

  /** `(pageNum - 1) * limitNum` */
  function Skip(page: int, limit: int): int {
    (page - 1) * limit
  }

  /** `Math.ceil(total / limitNum)` and the two flags. */
  function Paginate(total: nat, page: int, limit: int): (p: Pagination)
    requires limit >= 1
    ensures (p.totalPages - 1) * limit < total <= p.totalPages * limit
    ensures p.totalPages == 0 <==> total == 0
    ensures p.hasNext <==> page < p.totalPages
    ensures p.hasPrev <==> page > 1
    ensures p.page == page && p.limit == limit && p.total == total
  {
    var pages := (total + limit - 1) / limit;
    assert limit * pages <= total + limit - 1 < limit * pages + limit;
    Pagination(page, limit, total, pages, page < pages, page > 1)
  }

  lemma MulMonotone(a: int, b: int, c: int)
    requires a <= b && c >= 0
    ensures a * c <= b * c
  {
    assert b * c - a * c == (b - a) * c;
  }

  /** There is a next page exactly when the items of this page and the ones
      before it do not exhaust the total. */
  lemma HasNextIffMoreItems(total: nat, page: int, limit: int)
    requires limit >= 1
    ensures Paginate(total, page, limit).hasNext <==> page * limit < total
  {
    var p := Paginate(total, page, limit);
    if page < p.totalPages {
      MulMonotone(page, p.totalPages - 1, limit);
    } else {
      MulMonotone(p.totalPages, page, limit);
    }
  }

  /** `.skip(skip).limit(limitNum)` on the sorted matches. */
  function Window<T>(xs: seq<T>, page: int, limit: int): (w: seq<T>)
    requires page >= 1 && limit >= 1
    ensures |w| <= limit
  {
    var skip := Skip(page, limit);
    MulMonotone(0, page - 1, limit);
    var from := if skip < |xs| then skip else |xs|;
    var to := if skip + limit < |xs| then skip + limit else |xs|;
    xs[from..to]
  }

  /** Position `i` lies in the block of page `i / limit + 1`. */
  lemma PageOfPosition(i: nat, limit: int)
    requires limit >= 1
    ensures Skip(i / limit + 1, limit) == (i / limit) * limit
    ensures (i / limit) * limit <= i < (i / limit) * limit + limit
  {
    assert i == (i / limit) * limit + i % limit;
  }

  /** Every match is on exactly the page its position says, and that page
      is within the page count. */
  lemma {:induction false} EveryItemOnItsPage<T>(xs: seq<T>, limit: int, i: int)
    requires limit >= 1 && 0 <= i < |xs|
    ensures var page := i / limit + 1;
            page <= Paginate(|xs|, page, limit).totalPages
            && Skip(page, limit) <= i
            && Window(xs, page, limit)[i - Skip(page, limit)] == xs[i]
  {
    var q := i / limit;
    PageOfPosition(i, limit);
    var skip := Skip(q + 1, limit);
    var n := Paginate(|xs|, q + 1, limit).totalPages;
    if n <= q {
      MulMonotone(n, q, limit);
      assert false;
    }
    var w := Window(xs, q + 1, limit);
    assert w == xs[skip..if skip + limit < |xs| then skip + limit else |xs|];
  }

  /** How often a book occurs among the matches: as often as in the
      catalog when the filter selects it, never otherwise. */
  lemma {:induction false} MatchingMultiset(xs: seq<Book>, f: Filter, m: Matchers, b: Book)
    ensures multiset(Matching(xs, f, m))[b] == if Selects(f, m, b) then multiset(xs)[b] else 0
  {
    if xs != [] {
      MatchingMultiset(xs[1..], f, m, b);
      assert xs == [xs[0]] + xs[1..];
    }
  }

  /** Reordering the catalog does not change how many books match. */
  lemma MatchingCountPermutation(xs: seq<Book>, ys: seq<Book>, f: Filter, m: Matchers)
    requires multiset(xs) == multiset(ys)
    ensures |Matching(xs, f, m)| == |Matching(ys, f, m)|
  {
    forall b ensures multiset(Matching(xs, f, m))[b] == multiset(Matching(ys, f, m))[b] {
      MatchingMultiset(xs, f, m, b);
      MatchingMultiset(ys, f, m, b);
    }
    assert multiset(Matching(xs, f, m)) == multiset(Matching(ys, f, m));
    assert |multiset(Matching(xs, f, m))| == |Matching(xs, f, m)|;
    assert |multiset(Matching(ys, f, m))| == |Matching(ys, f, m)|;
  }

  /** Filtering a sorted catalog leaves the matches sorted. */
  lemma {:induction false} MatchingKeepsOrder(xs: seq<Book>, f: Filter, m: Matchers, s: SortSpec)
    requires SortedBy(xs, s)
    ensures SortedBy(Matching(xs, f, m), s)
  {
    if xs != [] {
      var tail := xs[1..];
      forall i, j | 0 <= i < j < |tail| ensures InOrder(s, tail[i], tail[j]) {
        assert tail[i] == xs[i + 1] && tail[j] == xs[j + 1];
      }
      MatchingKeepsOrder(tail, f, m, s);
      var rest := Matching(tail, f, m);
      if Selects(f, m, xs[0]) {
        var r := [xs[0]] + rest;
        forall i, j | 0 <= i < j < |r| ensures InOrder(s, r[i], r[j]) {
          assert r[j] == rest[j - 1];
          if i == 0 {
            assert r[j] in tail;
            var k :| 0 <= k < |tail| && tail[k] == r[j];
            assert xs[k + 1] == r[j];
          } else {
            assert r[i] == rest[i - 1];
          }
        }
        assert Matching(xs, f, m) == r;
      } else {
        assert Matching(xs, f, m) == rest;
      }
    }
  }

  /** A page of a sorted sequence is sorted. */
  lemma WindowKeepsOrder(xs: seq<Book>, s: SortSpec, page: int, limit: int)
    requires page >= 1 && limit >= 1 && SortedBy(xs, s)
    ensures SortedBy(Window(xs, page, limit), s)
    ensures forall b :: b in Window(xs, page, limit) ==> b in xs
  {
    var skip := Skip(page, limit);
    MulMonotone(0, page - 1, limit);
    var from := if skip < |xs| then skip else |xs|;
    var to := if skip + limit < |xs| then skip + limit else |xs|;
    var w := Window(xs, page, limit);
    assert w == xs[from..to];
    forall i, j | 0 <= i < j < |w| ensures InOrder(s, w[i], w[j]) {
      assert w[i] == xs[from + i] && w[j] == xs[from + j];
    }
  }

  /** The listing route. `sorted` is the catalog as `.sort(sortObj)`
      orders it (ties in any order): the page is the skip-and-limit window
      of the sorted matches, and the count is taken over all matches. A
      category or author that is not a valid pattern throws while the
      filter is built, and a page below 1 gives a negative skip, which the
      database refuses: both end in the catch-all 500. */
  function ListPage(books: seq<Book>, sorted: seq<Book>, q: ListingQuery, m: Matchers,
                    sort: Option<string>, order: Option<string>, page: int, limit: int)
    : (r: Result<(seq<Book>, Pagination)>)
    requires limit >= 1
    requires multiset(sorted) == multiset(books) && SortedBy(sorted, SortOf(sort, order))
    ensures r.Err? <==> page < 1 || !PatternsValid(BuildFilter(q), m)
    ensures r.Err? ==> r.failure == ServerError
    ensures r.Ok? ==> |r.value.0| <= limit
                      && r.value.0 == Window(Matching(sorted, BuildFilter(q), m), page, limit)
                      && r.value.1 == Paginate(|Matching(books, BuildFilter(q), m)|, page, limit)
                      && SortedBy(r.value.0, SortOf(sort, order))
                      && forall b :: b in r.value.0 ==> b in books && Selects(BuildFilter(q), m, b)
  {
    if !PatternsValid(BuildFilter(q), m) || page < 1 then Err(ServerError)
    else
      var all := Matching(sorted, BuildFilter(q), m);
      var w := Window(all, page, limit);
      MatchingCountPermutation(sorted, books, BuildFilter(q), m);
      MatchingKeepsOrder(sorted, BuildFilter(q), m, SortOf(sort, order));
      WindowKeepsOrder(all, SortOf(sort, order), page, limit);
      assert forall b :: b in w ==> b in books by {
        forall b | b in w ensures b in books {
          assert b in multiset(sorted);
        }
      }
      Ok((w, Paginate(|all|, page, limit)))
  }

  // ---------------------------------------------------------------------
  // Single book

  /** GET /:id: a missing or inactive book is not found. */
  function Lookup(books: map<BookId, Book>, id: BookId): (r: Result<Book>)
    ensures r.Ok? <==> id in books && books[id].isActive
    ensures r.Ok? ==> r.value == books[id]
    ensures r.Err? ==> r.failure == BookUnavailable
  {
    if id in books && books[id].isActive then Ok(books[id]) else Err(BookUnavailable)
  }

  // ---------------------------------------------------------------------
  // Update and delete

  /** Updates and deletes are open to an admin or the book's own seller. */
  predicate CanModify(a: Actor, b: Book) {
    a.role == Admin || b.seller == a.id
  }

  /** The body keys a seller may change. */
  const AllowedUpdates: set<string> := {
    "bookTitle", "authorName", "imageURL", "additionalImages", "category",
    "subcategory", "bookDescription", "bookPDFURL", "price", "originalPrice",
    "stock", "isDigital", "publisher", "publicationDate", "language",
    "pages", "format", "dimensions", "featured", "isActive", "tags",
    "metaTitle", "metaDescription"
  }

  /** A JSON body value, as far as the modelled book fields read it. */
  datatype Value = Num(x: real) | Int(n: int) | Flag(b: bool) | Str(s: string) | Unmodelled

  /** The `forEach` over the body's keys that copies whitelisted ones. */
  method CopyAllowed(body: map<string, Value>) returns (updates: map<string, Value>)
    ensures forall k :: k in updates <==> k in body && k in AllowedUpdates
    ensures forall k :: k in updates ==> updates[k] == body[k]
  {
    updates := map[];
    var remaining := body.Keys;
    while remaining != {}
      invariant remaining <= body.Keys
      invariant forall k :: k in updates <==> k in body && k !in remaining && k in AllowedUpdates
      invariant forall k :: k in updates ==> updates[k] == body[k]
      decreases |remaining|
    {
      var key :| key in remaining;
      if key in AllowedUpdates {
        updates := updates[key := body[key]];
      }
      remaining := remaining - {key};
    }
  }

  /** The modelled fields a set of updates writes. Values of the wrong type
      leave the field as it was. */
  function Patched(b: Book, u: map<string, Value>): Book {
    b.(title := if "bookTitle" in u && u["bookTitle"].Str? then u["bookTitle"].s else b.title,
       author := if "authorName" in u && u["authorName"].Str? then u["authorName"].s else b.author,
       category := if "category" in u && u["category"].Str? then u["category"].s else b.category,
       price := if "price" in u && u["price"].Num? then u["price"].x else b.price,
       originalPrice := if "originalPrice" in u && u["originalPrice"].Num? then Some(u["originalPrice"].x) else b.originalPrice,
       stock := if "stock" in u && u["stock"].Int? then u["stock"].n else b.stock,
       isDigital := if "isDigital" in u && u["isDigital"].Flag? then u["isDigital"].b else b.isDigital,
       featured := if "featured" in u && u["featured"].Flag? then u["featured"].b else b.featured,
       isActive := if "isActive" in u && u["isActive"].Flag? then u["isActive"].b else b.isActive)
  }

  /** A whitelisted update never touches the seller, the sales counter,
      the rating or the creation date, whatever the body holds. */
  lemma UpdateKeepsProtectedFields(b: Book, body: map<string, Value>, u: map<string, Value>)
    requires forall k :: k in u <==> k in body && k in AllowedUpdates
    requires forall k :: k in u ==> u[k] == body[k]
    ensures var r := Patched(b, u);
            r.seller == b.seller && r.totalSales == b.totalSales
            && r.averageRating == b.averageRating && r.createdAt == b.createdAt
    ensures "price" in body && body["price"].Num? ==> Patched(b, u).price == body["price"].x
    ensures "stock" in body && body["stock"].Int? ==> Patched(b, u).stock == body["stock"].n
  {
  }

  /** An update with nothing whitelisted in it changes nothing. */
  lemma EmptyUpdateIsIdentity(b: Book)
    ensures Patched(b, map[]) == b
  {
  }

  /** PUT /:id: 404 only for an id with no book (`findById` also finds a
      deactivated book, which can still be edited), 403 for anyone but an
      admin or the seller, else the whitelisted fields are written. */
  method UpdateBook(inv: Inventory, id: BookId, a: Actor, body: map<string, Value>) returns (r: Result<Book>)
    modifies inv
    ensures id !in old(inv.books) ==> r == Err(BookUnavailable) && inv.books == old(inv.books)
    ensures id in old(inv.books) && !CanModify(a, old(inv.books)[id]) ==>
              r == Err(AccessDenied) && inv.books == old(inv.books)
    ensures id in old(inv.books) && CanModify(a, old(inv.books)[id]) ==>
              exists u :: (forall k :: k in u <==> k in body && k in AllowedUpdates)
                          && (forall k :: k in u ==> u[k] == body[k])
                          && r == Ok(Patched(old(inv.books)[id], u))
                          && inv.books == old(inv.books)[id := Patched(old(inv.books)[id], u)]
  {
    if id !in inv.books {
      return Err(BookUnavailable);
    }
    var b := inv.books[id];
    if !CanModify(a, b) {
      return Err(AccessDenied);
    }
    var u := CopyAllowed(body);
    var updated := Patched(b, u);
    inv.books := inv.books[id := updated];
    r := Ok(updated);
  }

  /** DELETE /:id: the same two refusals, then a soft delete that only
      clears `isActive`. */
  method DeleteBook(inv: Inventory, id: BookId, a: Actor) returns (outcome: Outcome)
    modifies inv
    ensures id !in old(inv.books) ==> outcome == Refused(BookUnavailable) && inv.books == old(inv.books)
    ensures id in old(inv.books) && !CanModify(a, old(inv.books)[id]) ==>
              outcome == Refused(AccessDenied) && inv.books == old(inv.books)
    ensures id in old(inv.books) && CanModify(a, old(inv.books)[id]) ==>
              outcome == Done && inv.books == old(inv.books)[id := SoftDeleted(old(inv.books)[id])]
  {
    if id !in inv.books {
      return Refused(BookUnavailable);
    }
    var b := inv.books[id];
    if !CanModify(a, b) {
      return Refused(AccessDenied);
    }
    inv.books := inv.books[id := SoftDeleted(b)];
    outcome := Done;
  }

  function SoftDeleted(b: Book): Book {
    b.(isActive := false)
  }

  /** A soft-deleted book keeps every other field, is still found by id for
      its owner, and drops out of every listing and of GET /:id. */
  lemma SoftDeleteHides(books: map<BookId, Book>, id: BookId, q: ListingQuery, m: Matchers, xs: seq<Book>)
    requires id in books
    ensures SoftDeleted(books[id]) == books[id].(isActive := false)
    ensures id in books[id := SoftDeleted(books[id])]
    ensures Lookup(books[id := SoftDeleted(books[id])], id) == Err(BookUnavailable)
    ensures SoftDeleted(books[id]) !in Matching(xs, BuildFilter(q), m)
  {
  }

  // ---------------------------------------------------------------------
  // Creating a book and the advanced search

  /** The body of POST /: text fields before `trim`, the price when it
      parses as a float, the stock when it parses as an integer, and whether
      the image URL passes `isURL`. */
  datatype NewBook = NewBook(
    title: string,
    author: string,
    category: string,
    description: string,
    price: Option<real>,
    stock: Option<int>,
    imageUrlValid: bool)

  /** The `validateBook` chain. */
  function ValidateNewBook(nb: NewBook): (r: Outcome)
    ensures r.Refused? ==> r.failure == ValidationFailed
  {
    if Text.Trim(nb.title) == [] || Text.Trim(nb.author) == [] || Text.Trim(nb.category) == []
       || Text.Trim(nb.description) == []
       || nb.price.None? || nb.price.value < 0.0
       || nb.stock.None? || nb.stock.value < 0
       || !nb.imageUrlValid
    then Refused(ValidationFailed)
    else Done
  }

  /** A new book is accepted exactly when every text field has a
      non-whitespace character, the price and stock are non-negative
      numbers and the image URL is valid. */
  lemma ValidateNewBookIff(nb: NewBook)
    ensures ValidateNewBook(nb) == Done <==>
              Text.NonBlank(nb.title) && Text.NonBlank(nb.author) && Text.NonBlank(nb.category)
              && Text.NonBlank(nb.description)
              && nb.price.Some? && nb.price.value >= 0.0
              && nb.stock.Some? && nb.stock.value >= 0
              && nb.imageUrlValid
  {
    Text.TrimNonEmptyIffNonBlank(nb.title);
    Text.TrimNonEmptyIffNonBlank(nb.author);
    Text.TrimNonEmptyIffNonBlank(nb.category);
    Text.TrimNonEmptyIffNonBlank(nb.description);
  }

  /** GET /search/advanced: a missing or empty `q` is refused; a category
      that is not a valid pattern throws and ends in the 500; otherwise the
      filter is the listing filter with the text search and without author,
      featured and stock conditions. */
  function AdvancedFilter(q: Option<string>, category: Option<string>, minPrice: Option<real>, maxPrice: Option<real>,
                          m: Matchers)
    : (r: Result<Filter>)
    ensures !Given(q) ==> r == Err(SearchQueryMissing)
    ensures Given(q) ==> (r.Err? <==> !PatternsValid(BuildFilter(ListingQuery(category, minPrice, maxPrice, None, q, None, None)), m))
    ensures Given(q) && r.Err? ==> r.failure == ServerError
    ensures r.Ok? ==> r.value.search == q && r.value.author.None?
                      && !r.value.featuredOnly && !r.value.inStockOnly
                      && PatternsValid(r.value, m)
  {
    if !Given(q) then Err(SearchQueryMissing)
    else
      var f := BuildFilter(ListingQuery(category, minPrice, maxPrice, None, q, None, None));
      if !PatternsValid(f, m) then Err(ServerError) else Ok(f)
  }
}
