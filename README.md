# React Product App — a Dafny model of the storefront's list and state logic

This project models the logic of a React Native storefront. The storefront
browses a paginated product catalogue, keeps a cart and a favorites list on
the device, and runs a simulated checkout. The model is split into modules
that follow the app's source files:

- `Items`, `Wrappers`: the product record (a cart line is the same record
  with a `quantity`), id lookups, and the JavaScript `||` defaults.
- `Storage`: AsyncStorage as a `KeyValueStore` class. Its store contents are a
  `map` field, and read and write faults are fields too. JSON documents are
  values that parse back to what was stringified. Other text does not parse.
- `CartStorage`, `FavoritesStorage`: the cart and favorites persistence
  functions from `src/storage/`.
- `CartContext`: the cart ledger, a class whose `lines` field every mutator
  replaces and saves back to the store. It is specified by pure list edits
  on which the invariants are proved: one line per id, and every quantity at
  least 1.
- `FavoritesContext`: the favorites state, which is seeded from storage and
  replaced by what the storage toggle returns.
- `ProductSort`, `ProductList`: the product list screen. This covers the three
  stable sorts, the price, rating and category filters, and the active-filter
  badge. It also holds a `CatalogPager` class with the screen's state, covering
  `loadPage`, sorting, searching, refreshing, the filter controls, and the
  end-of-list request.
- `ProductsApi`, `ErrorHandler`: the request options, the endpoint choice
  and URL, the response normalisation, and the error messages.
- `Orders`, `CartScreen`, `Checkout`, `PaymentResultScreen`: the amounts
  (price times `quantity || 1`, 18% tax, shipping), the quantity buttons,
  and the checkout session. The session clears the cart and routes to the
  result screen. The result screen shows the summary and offers a retry.
- `ThemeContext`: the theme name (its state machine, dark mode, palettes) and
  its persistence under `appTheme`.

Inputs the app takes from its environment are parameters of the model:
- the HTTP response of the catalogue service;
- the payment service's outcome;
- the draws of `Math.random()`, as a function `nat -> Unit`;
- the system colour scheme;
- whether storage reads and writes fail;
- `encodeURIComponent`.

Three behaviours of the code worth noting:
- Turning a sort off does not return the list to fetch order. The code keeps
  the sorted order (`SortOffKeepsOrder`, and `SortOffNotFetchOrder` for a
  concrete list).
- Toggling a favorite twice restores the list only when the product started
  absent. Otherwise, the product moves to the end (`ToggleTwice`).
- Favorites storage does not absorb failures. A failed read, parse or write
  rejects to the caller (`ReadFavorites`, `ToggleFavorite`).

## Model

| member | source | states |
|---|---|---|
| Items.IndexOf | src/context/CartContext.js:40 | the position found is the first record with the id |
| Items.Find | src/context/CartContext.js:79 | `find` by id: the first record with the id, none when absent |
| Items.WithoutId | src/context/CartContext.js:51 | keeps exactly the records with another id and is never longer |
| Items.WithoutAbsentId | src/storage/cartStorage.js:43 | filtering an id that is not present changes nothing |
| Items.WithoutIdUnique | src/context/CartContext.js:51 | filtering keeps ids unique |
| Items.RemoveUniqueAt | src/storage/favoritesStorage.js:15 | with unique ids, filtering the id at k removes exactly position k |
| Storage.ParseStringify | src/storage/cartStorage.js:9-18 | parsing what was stringified gives back the same list |
| Storage.KeyValueStore.SetItem | src/storage/cartStorage.js:18 | setItem replaces the key's whole value, or changes nothing and reports failure |
| CartStorage.ReadCart | src/storage/cartStorage.js:5-14 | getCart is [] for a missing or empty key and for read or parse failures, else the stored document |
| CartStorage.GetCart | src/storage/cartStorage.js:5-14 | on the device store: a failed read gives [], a stored document is returned as it is |
| CartStorage.SaveThenGet | src/storage/cartStorage.js:3-19 | saveCart(items) followed by getCart returns items, under cart_items_v1 |
| CartStorage.SaveCart | src/storage/cartStorage.js:16-22 | writes the list; a failed write is swallowed |
| CartStorage.CartAdd | src/storage/cartStorage.js:28-33 | the id is present afterwards; the stored lines stay first and in order; one line is appended only when the id was absent |
| CartStorage.CartAddIdempotent | src/storage/cartStorage.js:26-33 | addToCart's edit leaves the id present, is idempotent and keeps ids unique |
| CartStorage.AddToCart | src/storage/cartStorage.js:24-38 | present id: returns the stored list and writes nothing; absent id: appends with quantity 1, saves and returns it; a non-array document returns [] |
| CartStorage.RemoveFromCart | src/storage/cartStorage.js:40-50 | filters out the id, saves and returns the result; a non-array document returns [] |
| CartStorage.IsInCart | src/storage/cartStorage.js:52-55 | true iff a stored line has the id; a non-array document rejects |
| CartStorage.ClearCart | src/storage/cartStorage.js:57-63 | stores [], so the next getCart is [] |
| FavoritesStorage.ReadFavorites | src/storage/favoritesStorage.js:5-8 | [] for a missing or empty key, else the parsed list; read and parse errors reject |
| FavoritesStorage.GetFavorites | src/storage/favoritesStorage.js:5-8 | on the device store: a failed read rejects, a stored document is returned as it is |
| FavoritesStorage.Toggled | src/storage/favoritesStorage.js:12-16 | grows by at most one and keeps every entry with another id |
| FavoritesStorage.ToggledFlips | src/storage/favoritesStorage.js:12-16 | the toggle flips membership of the id; absent products go at the end, present ones leave the others in order |
| FavoritesStorage.ToggledKeepsUnique | src/storage/favoritesStorage.js:12-16 | with unique ids the toggle keeps them unique and changes the length by exactly one |
| FavoritesStorage.ToggleTwice | src/storage/favoritesStorage.js:12-16 | two toggles from absent restore the list; from present the product ends up last |
| FavoritesStorage.WithoutIdAppend | src/storage/favoritesStorage.js:15 | filtering by id splits over concatenation |
| FavoritesStorage.ToggleFavorite | src/storage/favoritesStorage.js:10-19 | writes the toggled list and returns it; read, parse, non-array and write failures reject |
| FavoritesStorage.ToggleThenGet | src/storage/favoritesStorage.js:5-19 | what toggleFavorite writes is what the next getFavorites returns |
| FavoritesContext.FavoritesState.constructor | src/context/FavoritesContext.js:12 | the state starts as [] |
| FavoritesContext.FavoritesState.Seed | src/context/FavoritesContext.js:14-19 | the state becomes the stored list; a rejected read or a non-array document leaves it as it was |
| FavoritesContext.FavoritesState.ToggleFavorite | src/context/FavoritesContext.js:21-25 | the state becomes exactly what storage's toggle returned, which reflects the toggled stored list; isFavorite flips; with unique ids they stay unique and count moves by one; a rejection leaves the state and the store alone |
| CartContext.Added | src/context/CartContext.js:38-48 | the id is present afterwards; one line is appended only when the id was absent; lines with other ids stay in place |
| CartContext.QuantitySet | src/context/CartContext.js:54-60 | q <= 0 leaves no line with the id; q > 0 keeps the length and whether the id is present; lines with other ids are kept |
| CartContext.QuantityOf | src/context/CartContext.js:78-81 | an absent id reads 0; a present one reads the quantity of its first line |
| CartContext.TotalCount | src/context/CartContext.js:100 | with every quantity at least 1, the count is at least the number of lines |
| CartContext.Bumped | src/context/CartContext.js:62-64 | lines with the id get quantity + 1, all others stay, same length |
| CartContext.WithQuantity | src/context/CartContext.js:59 | lines with the id get the quantity, all others stay, same length |
| CartContext.Decremented | src/context/CartContext.js:66-76 | never longer; every remaining line with the id has a positive quantity |
| CartContext.AddedSpec | src/context/CartContext.js:38-48 | present id: that one line increments by 1, the rest and the length are unchanged; absent id: the product is appended with quantity 1 |
| CartContext.BumpedSpec | src/context/CartContext.js:62-64 | increaseQuantity adds 1 to the matching line and is a no-op on an absent id |
| CartContext.QuantitySetSpec | src/context/CartContext.js:54-60 | q <= 0 is removeItem; q > 0 sets only the matching line; an absent id is a no-op |
| CartContext.DecrementedKeepsOthers | src/context/CartContext.js:66-76 | decreaseQuantity leaves the lines with other ids, in order |
| CartContext.DecrementedAbsent | src/context/CartContext.js:66-76 | decreaseQuantity on an absent id is a no-op |
| CartContext.DecrementedSpec | src/context/CartContext.js:66-76 | subtracts 1 from the matching line, removing it when the result is not above 0 |
| CartContext.UpdatesKeepWellFormed | src/context/CartContext.js:38-85 | every mutator keeps one line per id and every quantity at least 1 |
| CartContext.AddRaisesCount | src/context/CartContext.js:38-100 | on a well-formed cart addItem raises count by 1 and the product's quantity by 1 |
| CartContext.QuantityQueries | src/context/CartContext.js:54-81 | getItemQuantity is 0 exactly for absent ids, and is the value setQuantity set (or 0 after removal) |
| CartContext.AddThenDecrease | src/context/CartContext.js:38-81 | from an empty cart, addItem gives quantity 1 and decreaseQuantity empties the cart |
| CartContext.CartLedger.constructor | src/context/CartContext.js:18 | the cart starts empty |
| CartContext.CartLedger.Persist | src/context/CartContext.js:27-36 | saves the whole cart; failures are ignored |
| CartContext.CartLedger.Seed | src/context/CartContext.js:20-25 | the cart becomes the stored list and is saved back |
| CartContext.CartLedger.AddItem | src/context/CartContext.js:38-48 | the cart becomes the addItem edit and is saved; resolves to true |
| CartContext.CartLedger.RemoveItem | src/context/CartContext.js:50-52 | the cart loses every line with the id and is saved |
| CartContext.CartLedger.SetQuantity | src/context/CartContext.js:54-60 | the cart becomes the setQuantity edit and is saved |
| CartContext.CartLedger.IncreaseQuantity | src/context/CartContext.js:62-64 | the cart becomes the increment edit and is saved |
| CartContext.CartLedger.DecreaseQuantity | src/context/CartContext.js:66-76 | the cart becomes the decrement edit and is saved |
| CartContext.CartLedger.GetItemQuantity | src/context/CartContext.js:78-81 | on a well-formed cart, 0 exactly when isInCart is false |
| CartContext.CartLedger.IsInCart | src/context/CartContext.js:87 | `some` by id holds exactly when `find` by id finds a line |
| CartContext.CartLedger.Count | src/context/CartContext.js:100 | on a well-formed cart, at least the number of lines |
| CartContext.CartLedger.ClearCart | src/context/CartContext.js:83-85 | the cart becomes [] and [] is saved |
| ProductSort.TitleLeTotal | src/screens/ProductListScreen.js:80 | any two titles are comparable |
| ProductSort.TitleLeTrans | src/screens/ProductListScreen.js:80 | title order is transitive |
| ProductSort.LeTotal | src/screens/ProductListScreen.js:78-80 | each comparator orders any two products |
| ProductSort.LeTrans | src/screens/ProductListScreen.js:78-80 | each comparator is transitive |
| ProductSort.SortBySpec | src/screens/ProductListScreen.js:78-80 | the sort is ordered by the key, is a permutation, and keeps equal-key products in input order |
| ProductList.SortKeyOf | src/screens/ProductListScreen.js:76-81 | exactly price_asc, price_desc and alpha have a comparator |
| ProductList.ApplySortSpec | src/screens/ProductListScreen.js:75-82 | default, missing and unknown options return the list; known options return a sorted, stable permutation |
| ProductList.NextSort | src/screens/ProductListScreen.js:190 | pressing the active option gives default, any other gives that option |
| ProductList.KeepIf | src/screens/ProductListScreen.js:89-93 | `filter` keeps exactly the products that pass |
| ProductList.RatingBounds | src/screens/ProductListScreen.js:97-102 | a minimum of 3 or less keeps every product and one of 5 or more keeps none, whatever the random draws |
| ProductList.FiltersSpec | src/screens/ProductListScreen.js:84-110 | the result is a subsequence of the input, and every product in it is in the price range and the category |
| ProductList.FiltersAppend | src/screens/ProductListScreen.js:84-110 | without a rating filter, filtering splits over concatenation |
| ProductList.FiltersSingle | src/screens/ProductListScreen.js:84-110 | without a rating filter, a single product is kept exactly when it passes the bounds (both inclusive) and the category |
| ProductList.FiltersKeepPassing | src/screens/ProductListScreen.js:84-110 | a list whose products all pass is unchanged |
| ProductList.FiltersIdempotent | src/screens/ProductListScreen.js:84-110 | without a rating filter, filtering twice is filtering once |
| ProductList.ActiveFiltersCount | src/screens/ProductListScreen.js:112-118 | the badge is in 0..3 and is 0 exactly when no filter is on |
| ProductList.RemoveLowersCount | src/screens/ProductListScreen.js:126-136 | removing a filter that is on lowers the badge by one |
| ProductList.PressedRating | src/screens/ProductListScreen.js:414 | pressing the selected rating clears it, any other selects it; the value always changes |
| ProductList.BoundOfTextSpec | src/screens/ProductListScreen.js:384 | typing a number sets that bound, clearing unsets it, text without digits gives NaN |
| ProductList.NotANumberKeepsAll | src/screens/ProductListScreen.js:88-94 | a NaN bound turns the price filter on but excludes nothing |
| ProductList.TwoPagesUnfiltered | src/screens/ProductListScreen.js:147-163 | with no filter or sort, page 0 then page 1 shows the two pages in server order |
| ProductList.AppendKeepsLoaded | src/screens/ProductListScreen.js:152-154 | without a rating filter, appending keeps the shown products and adds the passing ones of the page |
| ProductList.AppendRedrawsRatings | src/screens/ProductListScreen.js:152-154 | the append path re-rates the shown products, so all can be lost |
| ProductList.SortOffKeepsOrder | src/screens/ProductListScreen.js:189-204 | turning the sort off keeps the sorted order |
| ProductList.SortOffNotFetchOrder | src/screens/ProductListScreen.js:189-196 | a concrete list where turning the sort off does not restore fetch order |
| ProductList.OptionsForSpec | src/screens/ProductListScreen.js:147-148 | a page request asks for 12 products from page * 12, from search iff the query is not blank |
| ProductList.EndReached | src/screens/ProductListScreen.js:459-465 | requests page + 1 in append mode iff fewer products are shown than the server total and no further page is already loading |
| ProductList.EmptyPageKeepsRequesting | src/screens/ProductListScreen.js:459-465 | once a filter hides a product, an empty page leaves the list as it is and another page is requested |
| ProductList.HiddenProductPagesForever | src/screens/ProductListScreen.js:459-465 | a concrete catalogue where page 1, then page 2, are requested past the end |
| ProductList.CatalogPager.constructor | src/screens/ProductListScreen.js:28-48 | the screen starts loading, on page 0, with no products, default sort and no filters |
| ProductList.CatalogPager.View | src/screens/ProductListScreen.js:429-446 | the spinner while loading, then the error, then the list |
| ProductList.CatalogPager.FirstPageRequest | src/screens/ProductListScreen.js:179-181 | the search submit loads page 0 in replace mode with the current query |
| ProductList.CatalogPager.EndReachedRequest | src/screens/ProductListScreen.js:459-465 | on the screen's state: page + 1 in append mode with the current query, iff fewer products are shown than the total and no further page is loading |
| ProductList.CatalogPager.FilterReload | src/screens/ProductListScreen.js:207-211 | the filter effect reloads page 0 in replace mode with the current query, iff the spinner is off |
| ProductList.CatalogPager.StartLoad | src/screens/ProductListScreen.js:138-148 | page 0 shows the spinner and clears the error, other pages the footer spinner |
| ProductList.CatalogPager.FinishLoad | src/screens/ProductListScreen.js:149-170 | success: sorted, filtered merge, server total, requested page; failure: the error only; all loading flags off |
| ProductList.CatalogPager.LoadPage | src/screens/ProductListScreen.js:138-171 | the whole load: the endpoint asked and the resulting state |
| ProductList.CatalogPager.ChangeSort | src/screens/ProductListScreen.js:189-196 | the new sort applied to the refiltered current list, without a fetch |
| ProductList.CatalogPager.ClearSort | src/screens/ProductListScreen.js:199-204 | default sort, the current list refiltered |
| ProductList.CatalogPager.ChangeSearch | src/screens/ProductListScreen.js:184-186 | the query changes and nothing else |
| ProductList.CatalogPager.ClearSearch | src/screens/ProductListScreen.js:270 | empties the query and reloads page 0 with it |
| ProductList.CatalogPager.Refresh | src/screens/ProductListScreen.js:466-469 | the refresh spinner and a page-0 replace reload |
| ProductList.CatalogPager.SetPriceMin | src/screens/ProductListScreen.js:384 | the minimum is set and the filter effect reloads unless loading |
| ProductList.CatalogPager.SetPriceMax | src/screens/ProductListScreen.js:396 | the maximum is set and the filter effect reloads unless loading |
| ProductList.CatalogPager.PressRating | src/screens/ProductListScreen.js:414 | the rating toggles and the filter effect reloads unless loading |
| ProductList.CatalogPager.RemovePriceFilter | src/screens/ProductListScreen.js:126-128 | both bounds unset; the effect reloads unless loading |
| ProductList.CatalogPager.RemoveRatingFilter | src/screens/ProductListScreen.js:130-132 | the rating is unset; the effect reloads only if it was set |
| ProductList.CatalogPager.RemoveCategoryFilter | src/screens/ProductListScreen.js:134-136 | the category is unset; the effect reloads only if it was set |
| ProductList.CatalogPager.ClearAllFilters | src/screens/ProductListScreen.js:120-124 | no filters, badge 0; the effect reloads unless loading |
| ProductsApi.TrimSpec | src/api/productsApi.js:11 | trim gives "" exactly for all-white-space text, else a slice with no white space at either end |
| ProductsApi.NonBlankSpec | src/api/productsApi.js:11 | `q && q.trim()` holds iff the query is present and not all white space |
| ProductsApi.EndpointOf | src/api/productsApi.js:8-14 | limit defaults to 12 and skip to 0; a non-blank query selects search with the query untrimmed |
| ProductsApi.Decimal | src/api/productsApi.js:10 | numbers are written as non-empty digit strings |
| ProductsApi.DecimalRoundTrip | src/api/productsApi.js:10 | the digits written read back as the number |
| ProductsApi.Url | src/api/productsApi.js:10-13 | the listing URL starts with its prefix followed by the limit's digits; the search URL starts with its prefix followed by the encoded query |
| ProductsApi.UrlNamesEndpoint | src/api/productsApi.js:10-13 | the two URLs differ at the character after "products", so they never coincide |
| ProductsApi.Normalise | src/api/productsApi.js:18-21 | products default to [] and total to 0 |
| ProductsApi.FetchProducts | src/api/productsApi.js:6-25 | a response gives the normalised page; an error gives the handleError message |
| ErrorHandler.HandleError | src/utils/errorHandler.js:1-9 | response gives the server message, request only gives the network message, neither gives the generic one |
| Orders.SumsAppend | src/screens/CheckoutScreen.js:48 | the amount and unit sums split over concatenation |
| Orders.SumsBounds | src/screens/PaymentResultScreen.js:35-36 | with no negative quantity, each line counts at least one unit and its price |
| CartScreen.Subtotal | src/screens/CartScreen.js:24 | the subtotal is NaN exactly when some line has no number quantity |
| CartScreen.ShippingOf | src/screens/CartScreen.js:26 | shipping is 50 on a non-empty cart and 0 on the empty one |
| CartScreen.Total | src/screens/CartScreen.js:25-27 | NaN exactly when the subtotal is; an empty cart totals 0; otherwise subtotal * 1.18 + 50 |
| CartScreen.CheckoutTarget | src/screens/CartScreen.js:29-32 | nothing on an empty cart, else the checkout of the whole cart |
| CartScreen.QuantityChanged | src/screens/CartScreen.js:34-41 | a new quantity that is not above 0 (NaN included) removes the id; a positive one keeps the length; lines with other ids are kept |
| CartScreen.HandleQuantityChange | src/screens/CartScreen.js:34-41 | calls setQuantity with the new quantity when above 0, removeItem otherwise |
| CartScreen.QuantityChangedIsSetQuantity | src/screens/CartScreen.js:34-41 | with a number quantity, the change is setQuantity of the sum |
| CartScreen.ButtonsMatchLedger | src/screens/CartScreen.js:34-41 | on a well-formed cart the + and - buttons do what increaseQuantity and decreaseQuantity do |
| CartScreen.TotalsMatchCheckout | src/screens/CartScreen.js:24-27 | on a well-formed non-empty cart, subtotal and total agree with the checkout's |
| Checkout.SingleProductTotal | src/screens/CheckoutScreen.js:47-51 | one product costs its price plus 18%, plus 50 shipping |
| Checkout.Total | src/screens/CheckoutScreen.js:49-51 | subtotal * 1.18 + 50, so even an empty cart is charged 50 |
| Checkout.LineOf | src/screens/CheckoutScreen.js:59-65 | an order line copies id, title, price and thumbnail; its quantity is never 0 and price * quantity is the line's amount |
| Checkout.LinesOf | src/screens/CheckoutScreen.js:59-65 | one order line per item, in order |
| Checkout.OrderDataSpec | src/screens/CheckoutScreen.js:57-68 | order lines copy each item with a non-zero quantity; they sum to the subtotal; the amount is the total; the currency is INR |
| Checkout.ProcessPayment | src/services/paymentService.js:11-29 | approved iff the draw is above 0.3; otherwise declined |
| Checkout.ResultParamsOf | src/screens/CheckoutScreen.js:78-95 | both paths pass the items, the order id and the mode; a throw passes a fixed failure |
| Checkout.DeclineClearsCart | src/screens/CheckoutScreen.js:70-75 | a declined cart payment still empties the cart |
| Checkout.CheckoutSession.constructor | src/screens/CheckoutScreen.js:43-44 | not processing; the order id is fixed at mount |
| Checkout.CheckoutSession.StartPayment | src/screens/CheckoutScreen.js:53-68 | processing, and the order sent |
| Checkout.CheckoutSession.FinishPayment | src/screens/CheckoutScreen.js:70-98 | the cart is cleared iff a cart payment got an answer; the result screen's parameters; processing off |
| Checkout.CheckoutSession.HandlePayment | src/screens/CheckoutScreen.js:53-99 | the whole payment: the order, the clearing rule, the result, processing off |
| PaymentResultScreen.RouteOf | src/screens/CheckoutScreen.js:78-95 | the result screen displays exactly the items checkout sent, with its result, order id and mode |
| PaymentResultScreen.DisplayItems | src/screens/PaymentResultScreen.js:34 | items if given, else [product] if given, else [] |
| PaymentResultScreen.TotalAmount | src/screens/PaymentResultScreen.js:35 | 0 with nothing to display; a lone product costs price * (quantity or 1); never negative when no quantity is negative |
| PaymentResultScreen.ItemCount | src/screens/PaymentResultScreen.js:36 | 0 with nothing to display; a lone product counts quantity or 1; at least one per line when no quantity is negative |
| PaymentResultScreen.Title | src/screens/PaymentResultScreen.js:74 | the success title exactly on success |
| PaymentResultScreen.Message | src/screens/PaymentResultScreen.js:79 | the result's message if non-empty, else a non-empty default |
| PaymentResultScreen.ThumbnailsOf | src/screens/PaymentResultScreen.js:137-147 | the single product's thumbnail, or the first min(3, n) with "+(n-3)" only when n > 3 |
| PaymentResultScreen.ThumbnailUris | src/screens/PaymentResultScreen.js:140 | one thumbnail per item, in order |
| PaymentResultScreen.Buttons | src/screens/PaymentResultScreen.js:153-181 | success offers Continue Shopping; failure offers Retry Payment and Go to Home |
| PaymentResultScreen.RetryParams | src/screens/PaymentResultScreen.js:43-50 | a cart retries with the displayed lines, a single purchase with the first line |
| PaymentResultScreen.RetryReproducesCheckout | src/screens/PaymentResultScreen.js:43-50 | a retry buys the same lines for the same total |
| PaymentResultScreen.ResultTotals | src/screens/PaymentResultScreen.js:35-36 | the amount shown is the checkout subtotal, the charge is that plus tax and shipping, and the count is the units |
| PaymentResultScreen.CartItemCount | src/screens/PaymentResultScreen.js:36 | after a cart checkout the count equals the cart badge's count |
| ThemeContext.Colors | src/context/ThemeContext.js:92 | the dark palette exactly when dark |
| ThemeContext.NavColors | src/context/ThemeContext.js:93 | the dark navigation colours exactly when dark |
| ThemeContext.UnknownNameRendersLight | src/context/ThemeContext.js:91-93 | any name but dark and system renders light |
| ThemeContext.Toggled | src/context/ThemeContext.js:96 | light becomes dark; everything else becomes light |
| ThemeContext.ToggleSpec | src/context/ThemeContext.js:91-96 | a toggled name ignores the system scheme; light and dark flip and return after two toggles; system ends at dark |
| ThemeContext.ThemeState.constructor | src/context/ThemeContext.js:66 | the name starts as system |
| ThemeContext.ThemeState.Persist | src/context/ThemeContext.js:81-89 | the name is written under appTheme and failures are ignored |
| ThemeContext.ThemeState.Load | src/context/ThemeContext.js:69-78 | a non-empty saved name replaces the name, unvalidated, and a change is persisted |
| ThemeContext.ThemeState.Toggle | src/context/ThemeContext.js:96 | the name toggles and is persisted |
| ThemeContext.ThemeState.SetTheme | src/context/ThemeContext.js:99 | the name is set and persisted only when it changed |
| ThemeContext.PersistThenLoad | src/context/ThemeContext.js:69-89 | what is written under appTheme is read back |

## Left out

- Rendering: layout, styles, navigation configuration, animations, the product detail sheet, the product card and the favorites screen are not modelled.
- Time, concurrency and awaiting: each operation is one atomic step. Not modelled:
  - the mount-time race between the cart seed read and the save effect;
  - overlapping `loadPage` calls;
  - React's batching and stale closures.
- The cart and theme save effects also run once on mount, with the initial empty cart and "system". Their ordering against the mount-time read is a race and is left out.
- FavoritesContext.FavoritesState.Seed: a stored document that is not an array would become the favorites state, and later calls on it would throw. The model keeps the state as it was, because the state is a list of products.
- CartContext.CartLedger.Seed: a stored document that is not an array would become the cart and make later operations throw. The model keeps the cart as it was.
- ThemeContext.ThemeState.Load: a saved value that is JSON rather than plain text is not read as a name. JSON text is not kept in the model's storage.
- Prices are non-negative integers. The catalogue's decimal prices, IEEE arithmetic, `toFixed` and `toLocaleString` are not modelled. Tax and totals are exact `real`s.
- ProductSort.TitleLe: `localeCompare` is modelled as case-sensitive lexicographic order on characters, not as locale collation.
- ProductList.ParseInt: the hexadecimal `0x` prefix that `parseInt` accepts without a radix is not modelled.
- `encodeURIComponent` is a parameter. The HTTP call is a parameter too.
- The payment service's 2-second delay, transaction id and timestamp are not modelled. The result's echo of the order and the order id generator are left out too. Only the success draw and the two messages are modelled.
- The error screen's retry button calls an undefined `loadData` and has no behaviour to model.
- PaymentResultScreen.RetryParams: a single-product retry with no line to pass navigates with an undefined product. The model returns None there.
- The login-free navigation targets (`HomeTab`/`Products`) and the Android back handler are not modelled.
