/** The product list screen: client-side sorting and filtering of the loaded
    products, the active-filter badge, and the pager that loads pages from
    the catalogue service and merges them into the list. */
module ProductList {
  import opened Wrappers
  import opened Items
  import opened ProductSort
  import opened ErrorHandler
  import ProductsApi

  const PageSize: nat := 12
  const LoadFailedMessage := "Failed to load products"
  const DefaultSort := "default"

  // ---------------------------------------------------------------------
  // Subsequences

  /** a is b with some elements deleted, the rest kept in order. */
  predicate Subseq<T(==)>(a: seq<T>, b: seq<T>)
    decreases |b|
  {
    if b == [] then a == []
    else (a != [] && a[0] == b[0] && Subseq(a[1..], b[1..])) || Subseq(a, b[1..])
  }

  lemma {:induction false} SubseqTrans<T>(a: seq<T>, b: seq<T>, c: seq<T>)
    requires Subseq(a, b) && Subseq(b, c)
    ensures Subseq(a, c)
    decreases |c|
  {
    if c != [] {
      if Subseq(b, c[1..]) {
        SubseqTrans(a, b, c[1..]);
      } else if a != [] && a[0] == b[0] && Subseq(a[1..], b[1..]) {
        SubseqTrans(a[1..], b[1..], c[1..]);
      } else {
        SubseqTrans(a, b[1..], c[1..]);
      }
    }
  }

  lemma {:induction false} SubseqMembers<T>(a: seq<T>, b: seq<T>)
    requires Subseq(a, b)
    ensures |a| <= |b|
    ensures forall x :: x in a ==> x in b
    decreases |b|
  {
    if b != [] {
      if a != [] && a[0] == b[0] && Subseq(a[1..], b[1..]) {
        SubseqMembers(a[1..], b[1..]);
        assert forall x :: x in a ==> x == a[0] || x in a[1..];
      } else {
        SubseqMembers(a, b[1..]);
      }
    }
  }

  lemma {:induction false} SubseqRefl<T>(a: seq<T>)
    ensures Subseq(a, a)
  {
    if a != [] {
      SubseqRefl(a[1..]);
    }
  }

  // ---------------------------------------------------------------------
  // Sorting

  /** The sort options with a comparator; "default", the empty option and
      any unknown option have none. */
  function SortKeyOf(option: string): (k: Option<SortKey>)
    ensures k == Some(PriceAsc) <==> option == "price_asc"
    ensures k == Some(PriceDesc) <==> option == "price_desc"
    ensures k == Some(Alpha) <==> option == "alpha"
  {
    if option == "price_asc" then Some(PriceAsc)
    else if option == "price_desc" then Some(PriceDesc)
    else if option == "alpha" then Some(Alpha)
    else None
  }

  /** applySort: a sorted copy for a known option, the list itself else. */
  function ApplySort(list: seq<Item>, option: string): seq<Item>
  {
    match SortKeyOf(option)
    case None => list
    case Some(k) => SortBy(k, list)
  }

  lemma ApplySortSpec(list: seq<Item>, option: string)
    ensures SortKeyOf(option).None? ==> ApplySort(list, option) == list
    ensures multiset(ApplySort(list, option)) == multiset(list)
    ensures SortKeyOf(option).Some? ==>
      Sorted(SortKeyOf(option).value, ApplySort(list, option))
      && Stable(SortKeyOf(option).value, list, ApplySort(list, option))
  {
    if SortKeyOf(option).Some? {
      SortBySpec(SortKeyOf(option).value, list);
    }
  }

  /** onChangeSort: pressing the active option turns sorting off. */
  function NextSort(current: string, next: string): (r: string)
    ensures r == DefaultSort <==> current == next || next == DefaultSort
    ensures r != DefaultSort ==> r == next
  {
    if current == next then DefaultSort else next
  }

  // ---------------------------------------------------------------------
  // Filters

  /** A price bound as the filter inputs store it: unset (null), a number,
      or NaN from an input parseInt cannot read. */
  datatype Bound = Unset | Num(value: int) | NotANumber

  datatype PriceRange = PriceRange(min: Bound, max: Bound)

  /** The three filter state variables. */
  datatype Filters = Filters(price: PriceRange, rating: Option<int>, category: Option<string>)

  const NoFilters := Filters(PriceRange(Unset, Unset), None, None)

  /** A comparison with NaN is false, so a NaN bound excludes nothing. */
  predicate AboveMin(p: Item, b: Bound)
  {
    !(b.Num? && p.price < b.value)
  }

  predicate BelowMax(p: Item, b: Bound)
  {
    !(b.Num? && p.price > b.value)
  }

  predicate InPriceRange(p: Item, range: PriceRange)
  {
    AboveMin(p, range.min) && BelowMax(p, range.max)
  }

  /** The price filter is on when either bound is not null (NaN included). */
  predicate PriceActive(range: PriceRange)
  {
    range.min != Unset || range.max != Unset
  }

  function PriceTest(range: PriceRange): Item -> bool
  {
    (p: Item) => InPriceRange(p, range)
  }

  function CategoryTest(category: string): Item -> bool
  {
    (p: Item) => p.category == category
  }

  /** Array.prototype.filter. */
  function KeepIf(s: seq<Item>, keep: Item -> bool): (r: seq<Item>)
    ensures |r| <= |s|
    ensures forall x :: x in r <==> x in s && keep(x)
  {
    if s == [] then []
    else if keep(s[0]) then [s[0]] + KeepIf(s[1..], keep)
    else KeepIf(s[1..], keep)
  }

  lemma {:induction false} KeepIfSubseq(s: seq<Item>, keep: Item -> bool)
    ensures Subseq(KeepIf(s, keep), s)
  {
    if s != [] {
      KeepIfSubseq(s[1..], keep);
      if keep(s[0]) {
        assert KeepIf(s, keep)[1..] == KeepIf(s[1..], keep);
      }
    }
  }

  lemma {:induction false} KeepIfAppend(a: seq<Item>, b: seq<Item>, keep: Item -> bool)
    ensures KeepIf(a + b, keep) == KeepIf(a, keep) + KeepIf(b, keep)
  {
    if a == [] {
      assert a + b == b;
    } else {
      assert (a + b)[0] == a[0];
      assert (a + b)[1..] == a[1..] + b;
      KeepIfAppend(a[1..], b, keep);
    }
  }

  lemma {:induction false} KeepIfAll(s: seq<Item>, keep: Item -> bool)
    requires forall x :: x in s ==> keep(x)
    ensures KeepIf(s, keep) == s
  {
    if s != [] {
      assert s[0] in s;
      assert forall x :: x in s[1..] ==> x in s;
      KeepIfAll(s[1..], keep);
    }
  }

  /** The mock rating drawn for a product: 3 + Math.random() * 2. */
  function MockRating(draw: Unit): real
  {
    3.0 + draw * 2.0
  }

  /** The rating filter keeps the i-th product when its fresh mock rating,
      made from draw number start + i, reaches the minimum. */
  function RatingKept(s: seq<Item>, minRating: int, roll: nat -> Unit, start: nat): (r: seq<Item>)
    ensures |r| <= |s|
    ensures forall x :: x in r ==> x in s
  {
    if s == [] then []
    else
      var head := if MockRating(roll(start)) >= minRating as real then [s[0]] else [];
      head + RatingKept(s[1..], minRating, roll, start + 1)
  }

  lemma {:induction false} RatingKeptSubseq(s: seq<Item>, minRating: int, roll: nat -> Unit, start: nat)
    ensures Subseq(RatingKept(s, minRating, roll, start), s)
  {
    if s != [] {
      var rest := RatingKept(s[1..], minRating, roll, start + 1);
      RatingKeptSubseq(s[1..], minRating, roll, start + 1);
      if MockRating(roll(start)) >= minRating as real {
        assert RatingKept(s, minRating, roll, start) == [s[0]] + rest;
        assert ([s[0]] + rest)[1..] == rest;
      } else {
        assert RatingKept(s, minRating, roll, start) == rest;
      }
    }
  }

  /** A minimum of 3 or less keeps every product, a minimum of 5 or more
      keeps none, whatever the draws. */
  lemma {:induction false} RatingBounds(s: seq<Item>, minRating: int, roll: nat -> Unit, start: nat)
    ensures minRating <= 3 ==> RatingKept(s, minRating, roll, start) == s
    ensures minRating >= 5 ==> RatingKept(s, minRating, roll, start) == []
  {
    if s != [] {
      RatingBounds(s[1..], minRating, roll, start + 1);
      assert 3.0 <= MockRating(roll(start)) < 5.0;
      assert s == [s[0]] + s[1..];
    }
  }

  function PriceFiltered(list: seq<Item>, range: PriceRange): seq<Item>
  {
    if PriceActive(range) then KeepIf(list, PriceTest(range)) else list
  }

  function RatingFiltered(list: seq<Item>, rating: Option<int>, roll: nat -> Unit): seq<Item>
  {
    match rating
    case None => list
    case Some(m) => RatingKept(list, m, roll, 0)
  }

  function CategoryFiltered(list: seq<Item>, category: Option<string>): seq<Item>
  {
    match category
    case None => list
    case Some(c) => KeepIf(list, CategoryTest(c))
  }

  /** applyFilters: price, then rating, then category. */
  function ApplyFilters(list: seq<Item>, f: Filters, roll: nat -> Unit): seq<Item>
  {
    CategoryFiltered(RatingFiltered(PriceFiltered(list, f.price), f.rating, roll), f.category)
  }

  /** The deterministic part of the filters. */
  predicate Passes(x: Item, f: Filters)
  {
    InPriceRange(x, f.price) && (f.category.Some? ==> x.category == f.category.value)
  }

  /** The filtered list keeps products of the input in order, and each of
      them is in the price range and in the category. */
  lemma FiltersSpec(list: seq<Item>, f: Filters, roll: nat -> Unit)
    ensures Subseq(ApplyFilters(list, f, roll), list)
    ensures forall x :: x in ApplyFilters(list, f, roll) ==> x in list && Passes(x, f)
  {
    var a := PriceFiltered(list, f.price);
    var b := RatingFiltered(a, f.rating, roll);
    var c := CategoryFiltered(b, f.category);
    if PriceActive(f.price) { KeepIfSubseq(list, PriceTest(f.price)); } else { SubseqRefl(list); }
    if f.rating.Some? { RatingKeptSubseq(a, f.rating.value, roll, 0); } else { SubseqRefl(a); }
    if f.category.Some? { KeepIfSubseq(b, CategoryTest(f.category.value)); } else { SubseqRefl(b); }
    SubseqTrans(b, a, list);
    SubseqTrans(c, b, list);
    SubseqMembers(c, list);
  }

  /** Without a rating filter the filters act product by product: they
      split over concatenation and keep a single product exactly when it
      passes. */
  lemma FiltersAppend(a: seq<Item>, b: seq<Item>, f: Filters, roll: nat -> Unit)
    requires f.rating.None?
    ensures ApplyFilters(a + b, f, roll) == ApplyFilters(a, f, roll) + ApplyFilters(b, f, roll)
  {
    if PriceActive(f.price) {
      KeepIfAppend(a, b, PriceTest(f.price));
    }
    if f.category.Some? {
      KeepIfAppend(PriceFiltered(a, f.price), PriceFiltered(b, f.price), CategoryTest(f.category.value));
    }
  }

  lemma FiltersSingle(x: Item, f: Filters, roll: nat -> Unit)
    requires f.rating.None?
    ensures ApplyFilters([x], f, roll) == if Passes(x, f) then [x] else []
  {
  }

  /** A list whose products all pass is left as it is. */
  lemma FiltersKeepPassing(list: seq<Item>, f: Filters, roll: nat -> Unit)
    requires f.rating.None?
    requires forall x :: x in list ==> Passes(x, f)
    ensures ApplyFilters(list, f, roll) == list
  {
    if PriceActive(f.price) {
      KeepIfAll(list, PriceTest(f.price));
    }
    if f.category.Some? {
      KeepIfAll(list, CategoryTest(f.category.value));
    }
  }

  lemma FiltersIdempotent(list: seq<Item>, f: Filters, roll: nat -> Unit, roll2: nat -> Unit)
    requires f.rating.None?
    ensures ApplyFilters(ApplyFilters(list, f, roll), f, roll2) == ApplyFilters(list, f, roll)
  {
    FiltersSpec(list, f, roll);
    FiltersKeepPassing(ApplyFilters(list, f, roll), f, roll2);
  }

  /** getActiveFiltersCount: the number of the three filters that are on. */
  function ActiveFiltersCount(f: Filters): (n: nat)
    ensures n <= 3
    ensures n == 0 <==> f == NoFilters
  {
    (if PriceActive(f.price) then 1 else 0)
    + (if f.rating.Some? then 1 else 0)
    + (if f.category.Some? then 1 else 0)
  }

  /** Removing one filter that is on lowers the badge by one. */
  lemma RemoveLowersCount(f: Filters)
    ensures PriceActive(f.price) ==>
      ActiveFiltersCount(f.(price := PriceRange(Unset, Unset))) == ActiveFiltersCount(f) - 1
    ensures f.rating.Some? ==> ActiveFiltersCount(f.(rating := None)) == ActiveFiltersCount(f) - 1
    ensures f.category.Some? ==> ActiveFiltersCount(f.(category := None)) == ActiveFiltersCount(f) - 1
  {
  }

  /** The rating buttons 1 to 5: pressing the selected one clears it. */
  function PressedRating(current: Option<int>, rating: int): (r: Option<int>)
    ensures r != current
    ensures r == None <==> current == Some(rating)
  {
    if current == Some(rating) then None else Some(rating)
  }

  // ---------------------------------------------------------------------
  // Reading a price bound: `text ? parseInt(text) : null`

  function DigitPrefix(s: string): (r: string)
    ensures |r| <= |s| && r == s[..|r|]
    ensures forall i :: 0 <= i < |r| ==> '0' <= r[i] <= '9'
    ensures |r| < |s| ==> !('0' <= s[|r|] <= '9')
  {
    if s != [] && '0' <= s[0] <= '9' then [s[0]] + DigitPrefix(s[1..]) else []
  }

  /** parseInt in base ten: leading white space, an optional sign, and the
      longest run of digits; no digits is NaN. */
  function ParseInt(text: string): Bound
  {
    var t := ProductsApi.TrimStart(text);
    var negative := t != [] && t[0] == '-';
    var body := if t != [] && (t[0] == '-' || t[0] == '+') then t[1..] else t;
    var digits := DigitPrefix(body);
    if digits == [] then NotANumber
    else Num(if negative then -(ProductsApi.DecimalValue(digits) as int) else ProductsApi.DecimalValue(digits))
  }

  function BoundOfText(text: string): Bound
  {
    if text == [] then Unset else ParseInt(text)
  }

  /** Typing a number's decimal form sets that bound, clearing the input
      unsets it, and text without digits gives NaN. */
  lemma BoundOfTextSpec(n: nat)
    ensures BoundOfText(ProductsApi.Decimal(n)) == Num(n)
    ensures BoundOfText("") == Unset
    ensures BoundOfText("abc") == NotANumber
  {
    var d := ProductsApi.Decimal(n);
    assert !ProductsApi.IsJsWhitespace(d[0]);
    assert ProductsApi.TrimStart(d) == d;
    assert DigitPrefix(d) == d;
    ProductsApi.DecimalRoundTrip(n);
  }

  /** A NaN bound counts as an active filter and lets every product through. */
  lemma NotANumberKeepsAll(list: seq<Item>)
    ensures PriceActive(PriceRange(NotANumber, NotANumber))
    ensures PriceFiltered(list, PriceRange(NotANumber, NotANumber)) == list
  {
    KeepIfAll(list, PriceTest(PriceRange(NotANumber, NotANumber)));
  }

  // ---------------------------------------------------------------------
  // Merging a loaded page

  /** The list after a successful load: the page appended to (or replacing)
      the current list, filtered, then sorted. */
  function Merged(current: seq<Item>, incoming: seq<Item>, append: bool, f: Filters, sort: string, roll: nat -> Unit): seq<Item>
  {
    ApplySort(ApplyFilters(if append then current + incoming else incoming, f, roll), sort)
  }

  /** With no filter and no sort, loading page 0 and then appending page 1
      shows the two pages in server order. */
  lemma TwoPagesUnfiltered(previous: seq<Item>, page0: seq<Item>, page1: seq<Item>, roll: nat -> Unit, roll2: nat -> Unit)
    ensures Merged(Merged(previous, page0, false, NoFilters, DefaultSort, roll), page1, true, NoFilters, DefaultSort, roll2)
      == page0 + page1
  {
  }

  /** Without a rating filter, appending keeps the products already shown
      and adds the passing ones of the page: in order when unsorted, as a
      multiset when sorted. */
  lemma AppendKeepsLoaded(current: seq<Item>, incoming: seq<Item>, f: Filters, sort: string, roll: nat -> Unit)
    requires f.rating.None?
    requires forall x :: x in current ==> Passes(x, f)
    ensures SortKeyOf(sort).None? ==>
      Merged(current, incoming, true, f, sort, roll) == current + ApplyFilters(incoming, f, roll)
    ensures multiset(Merged(current, incoming, true, f, sort, roll))
      == multiset(current) + multiset(ApplyFilters(incoming, f, roll))
  {
    FiltersAppend(current, incoming, f, roll);
    FiltersKeepPassing(current, f, roll);
    ApplySortSpec(ApplyFilters(current + incoming, f, roll), sort);
  }

  /** The rating filter draws fresh ratings for the products already shown
      on every append: with all draws at 0 and a minimum above 3, the whole
      list is lost. */
  lemma AppendRedrawsRatings(current: seq<Item>, incoming: seq<Item>, minRating: int, sort: string)
    requires minRating > 3
    ensures Merged(current, incoming, true, NoFilters.(rating := Some(minRating)), sort, _ => 0.0) == []
  {
    var zero: nat -> Unit := _ => 0.0;
    RatingKeptZero(current + incoming, minRating, zero, 0);
  }

  lemma {:induction false} RatingKeptZero(s: seq<Item>, minRating: int, roll: nat -> Unit, start: nat)
    requires minRating > 3
    requires forall i: nat :: roll(i) == 0.0
    ensures RatingKept(s, minRating, roll, start) == []
  {
    if s != [] {
      RatingKeptZero(s[1..], minRating, roll, start + 1);
    }
  }

  /** Turning the active sort off (pressing it again, or clearing it) keeps
      the sorted order instead of going back to the order of the fetch. */
  lemma SortOffKeepsOrder(products: seq<Item>, f: Filters, option: string, roll: nat -> Unit, roll2: nat -> Unit)
    requires f.rating.None?
    ensures var sorted := ApplySort(ApplyFilters(products, f, roll), option);
      ApplySort(ApplyFilters(sorted, f, roll2), NextSort(option, option)) == sorted
  {
    var filtered := ApplyFilters(products, f, roll);
    var sorted := ApplySort(filtered, option);
    FiltersSpec(products, f, roll);
    ApplySortSpec(filtered, option);
    forall x | x in sorted ensures Passes(x, f) {
      assert x in multiset(filtered);
    }
    FiltersKeepPassing(sorted, f, roll2);
  }

  /** A concrete list for which sorting by price and then pressing the
      option again does not restore the fetched order. */
  lemma SortOffNotFetchOrder()
    ensures var a := Item(1, "a", 2, "c", "", None);
      var b := Item(2, "b", 1, "c", "", None);
      var sorted := ApplySort([a, b], "price_asc");
      ApplySort(ApplyFilters(sorted, NoFilters, _ => 0.0), NextSort("price_asc", "price_asc")) != [a, b]
  {
    var a := Item(1, "a", 2, "c", "", None);
    var b := Item(2, "b", 1, "c", "", None);
    assert SortBy(PriceAsc, [b]) == [b];
    assert SortBy(PriceAsc, [a, b]) == Insert(PriceAsc, a, [b]) == [b, a];
  }

  // ---------------------------------------------------------------------
  // Requests and the pager

  /** A call of loadPage: the page, whether to append, the query. */
  datatype LoadRequest = LoadRequest(page: nat, append: bool, query: string)

  /** What the screen shows. */
  datatype Screen = Spinner | ErrorScreen(message: string) | ProductGrid(products: seq<Item>)

  /** The options loadPage passes to fetchProducts. */
  function OptionsFor(req: LoadRequest): ProductsApi.FetchOptions
  {
    ProductsApi.FetchOptions(Some(PageSize), Some(req.page * PageSize), Some(req.query))
  }

  /** Page p of a blank query asks the listing for 12 products from 12 * p;
      any other query asks the search endpoint. */
  lemma OptionsForSpec(req: LoadRequest)
    ensures ProductsApi.EndpointOf(OptionsFor(req)).limit == PageSize
    ensures ProductsApi.EndpointOf(OptionsFor(req)).skip == req.page * PageSize
    ensures ProductsApi.EndpointOf(OptionsFor(req)).Search? <==> !ProductsApi.AllWhitespace(req.query)
  {
  }

  /** onEndReached: the next page, appended, while fewer products are shown
      than the server's total and no page is loading. */
  function EndReached(products: seq<Item>, total: int, page: nat, loadingMore: bool, search: string): (r: Option<LoadRequest>)
    ensures r.Some? <==> |products| < total && !loadingMore
    ensures r.Some? ==> r.value == LoadRequest(page + 1, true, search)
  {
    if |products| < total && !loadingMore then Some(LoadRequest(page + 1, true, search)) else None
  }

  /** The shown count is the filtered count, but the total is the server's:
      once a filter has hidden a product, an empty page past the end leaves
      the list as it is, so the next end of the list asks for yet another
      page. */
  lemma EmptyPageKeepsRequesting(current: seq<Item>, f: Filters, sort: string, roll: nat -> Unit, total: int, page: nat, search: string)
    requires f.rating.None?
    requires forall x :: x in current ==> Passes(x, f)
    requires |current| < total
    ensures var next := Merged(current, [], true, f, sort, roll);
      |next| == |current|
      && EndReached(next, total, page + 1, false, search) == Some(LoadRequest(page + 2, true, search))
  {
    AppendKeepsLoaded(current, [], f, sort, roll);
    var next := Merged(current, [], true, f, sort, roll);
    assert |multiset(next)| == |multiset(current)|;
  }

  /** A concrete case: one product on the server, hidden by the price
      filter. After page 0 nothing is shown and page 1 is requested; after
      the empty page 1, page 2 is requested, and so on. */
  lemma HiddenProductPagesForever()
    ensures var p := Item(1, "a", 100, "c", "", None);
      var f := NoFilters.(price := PriceRange(Unset, Num(50)));
      var shown := Merged([], [p], false, f, DefaultSort, _ => 0.0);
      shown == []
      && EndReached(shown, 1, 0, false, "") == Some(LoadRequest(1, true, ""))
      && EndReached(Merged(shown, [], true, f, DefaultSort, _ => 0.0), 1, 1, false, "") == Some(LoadRequest(2, true, ""))
  {
  }

  /** The state of the product list screen. */
  class CatalogPager {
    var products: seq<Item>
    var search: string
    var loading: bool
    var error: string
    var page: nat
    var total: int
    var loadingMore: bool
    var refreshing: bool
    var sort: string
    var priceFilter: PriceRange
    var ratingFilter: Option<int>
    var categoryFilter: Option<string>

    constructor ()
      ensures products == [] && search == "" && loading && error == ""
      ensures page == 0 && total == 0 && !loadingMore && !refreshing
      ensures sort == DefaultSort && ActiveFilters() == NoFilters
    {
      products := [];
      search := "";
      loading := true;
      error := "";
      page := 0;
      total := 0;
      loadingMore := false;
      refreshing := false;
      sort := DefaultSort;
      priceFilter := PriceRange(Unset, Unset);
      ratingFilter := None;
      categoryFilter := None;
    }

    function ActiveFilters(): Filters
      reads this
    {
      Filters(priceFilter, ratingFilter, categoryFilter)
    }

    /** The spinner while the first page loads, then the error, then the list. */
    function View(): (s: Screen)
      reads this
      ensures loading <==> s == Spinner
      ensures s.ErrorScreen? <==> !loading && error != ""
      ensures s.ProductGrid? ==> s.products == products
    {
      if loading then Spinner
      else if error != "" then ErrorScreen(error)
      else ProductGrid(products)
    }

    /** The load performed on mount, on search submit and by the filter effect. */
    function FirstPageRequest(): (r: LoadRequest)
      reads this
      ensures r.page == 0 && !r.append && r.query == search
    {
      LoadRequest(0, false, search)
    }

    /** onEndReached on the current state. */
    function EndReachedRequest(): (r: Option<LoadRequest>)
      reads this
      ensures r.Some? <==> |products| < total && !loadingMore
      ensures r.Some? ==> r.value.page == page + 1 && r.value.append && r.value.query == search
    {
      EndReached(products, total, page, loadingMore, search)
    }

    /** The start of loadPage: page 0 shows the spinner and clears the
        error, any other page shows the footer spinner. */
    method StartLoad(req: LoadRequest) returns (options: ProductsApi.FetchOptions)
      modifies this
      ensures options == OptionsFor(req)
      ensures req.page == 0 ==> loading && error == "" && loadingMore == old(loadingMore)
      ensures req.page != 0 ==> loadingMore && loading == old(loading) && error == old(error)
      ensures products == old(products) && total == old(total) && page == old(page)
      ensures refreshing == old(refreshing) && search == old(search) && sort == old(sort)
      ensures ActiveFilters() == old(ActiveFilters())
    {
      if req.page == 0 {
        loading := true;
        error := "";
      } else {
        loadingMore := true;
      }
      options := OptionsFor(req);
    }

    /** The end of loadPage: on success the merged list, the total and the
        page; on failure the error message and nothing else; every loading
        flag off in both cases. */
    method FinishLoad(req: LoadRequest, response: Result<ProductsApi.Page, string>, roll: nat -> Unit)
      modifies this
      ensures response.Ok? ==>
        products == Merged(old(products), response.value.products, req.append, old(ActiveFilters()), old(sort), roll)
        && total == response.value.total && page == req.page && error == old(error)
      ensures response.Err? ==>
        error == LoadFailedMessage && products == old(products) && total == old(total) && page == old(page)
      ensures !loading && !loadingMore && !refreshing
      ensures search == old(search) && sort == old(sort) && ActiveFilters() == old(ActiveFilters())
    {
      match response {
        case Ok(res) =>
          products := Merged(products, res.products, req.append, ActiveFilters(), sort, roll);
          total := res.total;
          page := req.page;
        case Err(_) =>
          error := LoadFailedMessage;
      }
      loading := false;
      loadingMore := false;
      refreshing := false;
    }

    /** loadPage: the request goes to the endpoint the options select, and
        `response` is what the service answers. */
    method LoadPage(req: LoadRequest, response: Result<ProductsApi.RawBody, HttpError>, roll: nat -> Unit)
      returns (requested: ProductsApi.Endpoint)
      modifies this
      ensures requested == ProductsApi.EndpointOf(OptionsFor(req))
      ensures response.Ok? ==>
        products == Merged(old(products), ProductsApi.Normalise(response.value).products, req.append, old(ActiveFilters()), old(sort), roll)
        && total == ProductsApi.Normalise(response.value).total && page == req.page
        && error == (if req.page == 0 then "" else old(error))
      ensures response.Err? ==>
        error == LoadFailedMessage && products == old(products) && total == old(total) && page == old(page)
      ensures !loading && !loadingMore && !refreshing
      ensures search == old(search) && sort == old(sort) && ActiveFilters() == old(ActiveFilters())
    {
      var options := StartLoad(req);
      requested := ProductsApi.EndpointOf(options);
      FinishLoad(req, ProductsApi.FetchProducts(options, response), roll);
    }

    /** The filter effect: a reload of page 0 unless a load shows the spinner. */
    function FilterReload(): (r: Option<LoadRequest>)
      reads this
      ensures r.Some? <==> !loading
      ensures r.Some? ==> r.value.page == 0 && !r.value.append && r.value.query == search
    {
      if !loading then Some(FirstPageRequest()) else None
    }

    /** onChangeSort: the current list refiltered and sorted by the new option. */
    method ChangeSort(next: string, roll: nat -> Unit)
      modifies this
      ensures sort == NextSort(old(sort), next)
      ensures products == ApplySort(ApplyFilters(old(products), ActiveFilters(), roll), sort)
      ensures ActiveFilters() == old(ActiveFilters()) && search == old(search)
      ensures loading == old(loading) && error == old(error) && page == old(page) && total == old(total)
      ensures loadingMore == old(loadingMore) && refreshing == old(refreshing)
    {
      sort := NextSort(sort, next);
      products := ApplySort(ApplyFilters(products, ActiveFilters(), roll), sort);
    }

    /** clearSort: the current list refiltered, unsorted. */
    method ClearSort(roll: nat -> Unit)
      modifies this
      ensures sort == DefaultSort
      ensures products == ApplyFilters(old(products), ActiveFilters(), roll)
      ensures ActiveFilters() == old(ActiveFilters()) && search == old(search)
      ensures loading == old(loading) && error == old(error) && page == old(page) && total == old(total)
      ensures loadingMore == old(loadingMore) && refreshing == old(refreshing)
    {
      sort := DefaultSort;
      products := ApplySort(ApplyFilters(products, ActiveFilters(), roll), DefaultSort);
    }

    method ChangeSearch(text: string)
      modifies this
      ensures search == text
      ensures products == old(products) && sort == old(sort) && ActiveFilters() == old(ActiveFilters())
      ensures loading == old(loading) && error == old(error) && page == old(page) && total == old(total)
      ensures loadingMore == old(loadingMore) && refreshing == old(refreshing)
    {
      search := text;
    }

    /** The clear button of the search bar: empties the query and reloads
        page 0 with it. */
    method ClearSearch() returns (req: LoadRequest)
      modifies this
      ensures search == "" && req == LoadRequest(0, false, "")
      ensures products == old(products) && sort == old(sort) && ActiveFilters() == old(ActiveFilters())
      ensures loading == old(loading) && error == old(error) && page == old(page) && total == old(total)
      ensures loadingMore == old(loadingMore) && refreshing == old(refreshing)
    {
      search := "";
      req := LoadRequest(0, false, "");
    }

    /** Pull to refresh: the refresh spinner and a reload of page 0. */
    method Refresh() returns (req: LoadRequest)
      modifies this
      ensures refreshing && req == LoadRequest(0, false, search)
      ensures products == old(products) && search == old(search) && sort == old(sort)
      ensures ActiveFilters() == old(ActiveFilters())
      ensures loading == old(loading) && error == old(error) && page == old(page) && total == old(total)
      ensures loadingMore == old(loadingMore)
    {
      refreshing := true;
      req := LoadRequest(0, false, search);
    }

    /** Editing a price input: the price filter is a new object, so the
        filter effect always runs. */
    method SetPriceMin(text: string) returns (reload: Option<LoadRequest>)
      modifies this
      ensures ActiveFilters() == old(ActiveFilters()).(price := PriceRange(BoundOfText(text), old(priceFilter).max))
      ensures reload == FilterReload()
      ensures products == old(products) && search == old(search) && sort == old(sort)
      ensures loading == old(loading) && error == old(error) && page == old(page) && total == old(total)
      ensures loadingMore == old(loadingMore) && refreshing == old(refreshing)
    {
      priceFilter := priceFilter.(min := BoundOfText(text));
      reload := FilterReload();
    }

    method SetPriceMax(text: string) returns (reload: Option<LoadRequest>)
      modifies this
      ensures ActiveFilters() == old(ActiveFilters()).(price := PriceRange(old(priceFilter).min, BoundOfText(text)))
      ensures reload == FilterReload()
      ensures products == old(products) && search == old(search) && sort == old(sort)
      ensures loading == old(loading) && error == old(error) && page == old(page) && total == old(total)
      ensures loadingMore == old(loadingMore) && refreshing == old(refreshing)
    {
      priceFilter := priceFilter.(max := BoundOfText(text));
      reload := FilterReload();
    }

    /** A rating button: the filter always changes, so the effect runs. */
    method PressRating(rating: int) returns (reload: Option<LoadRequest>)
      modifies this
      ensures ActiveFilters() == old(ActiveFilters()).(rating := PressedRating(old(ratingFilter), rating))
      ensures reload == FilterReload()
      ensures products == old(products) && search == old(search) && sort == old(sort)
      ensures loading == old(loading) && error == old(error) && page == old(page) && total == old(total)
      ensures loadingMore == old(loadingMore) && refreshing == old(refreshing)
    {
      ratingFilter := PressedRating(ratingFilter, rating);
      reload := FilterReload();
    }

    method RemovePriceFilter() returns (reload: Option<LoadRequest>)
      modifies this
      ensures ActiveFilters() == old(ActiveFilters()).(price := PriceRange(Unset, Unset))
      ensures reload == FilterReload()
      ensures products == old(products) && search == old(search) && sort == old(sort)
      ensures loading == old(loading) && error == old(error) && page == old(page) && total == old(total)
      ensures loadingMore == old(loadingMore) && refreshing == old(refreshing)
    {
      priceFilter := PriceRange(Unset, Unset);
      reload := FilterReload();
    }

    /** Setting a filter that is already null does not trigger the effect. */
    method RemoveRatingFilter() returns (reload: Option<LoadRequest>)
      modifies this
      ensures ActiveFilters() == old(ActiveFilters()).(rating := None)
      ensures reload == if old(ratingFilter).Some? then FilterReload() else None
      ensures products == old(products) && search == old(search) && sort == old(sort)
      ensures loading == old(loading) && error == old(error) && page == old(page) && total == old(total)
      ensures loadingMore == old(loadingMore) && refreshing == old(refreshing)
    {
      var changed := ratingFilter.Some?;
      ratingFilter := None;
      reload := if changed then FilterReload() else None;
    }

    method RemoveCategoryFilter() returns (reload: Option<LoadRequest>)
      modifies this
      ensures ActiveFilters() == old(ActiveFilters()).(category := None)
      ensures reload == if old(categoryFilter).Some? then FilterReload() else None
      ensures products == old(products) && search == old(search) && sort == old(sort)
      ensures loading == old(loading) && error == old(error) && page == old(page) && total == old(total)
      ensures loadingMore == old(loadingMore) && refreshing == old(refreshing)
    {
      var changed := categoryFilter.Some?;
      categoryFilter := None;
      reload := if changed then FilterReload() else None;
    }

    /** clearAllFilters: the badge goes to 0 and, the price filter being a
        new object, the effect runs. */
    method ClearAllFilters() returns (reload: Option<LoadRequest>)
      modifies this
      ensures ActiveFilters() == NoFilters && ActiveFiltersCount(ActiveFilters()) == 0
      ensures reload == FilterReload()
      ensures products == old(products) && search == old(search) && sort == old(sort)
      ensures loading == old(loading) && error == old(error) && page == old(page) && total == old(total)
      ensures loadingMore == old(loadingMore) && refreshing == old(refreshing)
    {
      priceFilter := PriceRange(Unset, Unset);
      ratingFilter := None;
      categoryFilter := None;
      reload := FilterReload();
    }
  }
}
