/** The payment result screen: the lines it summarises, its totals, the
    thumbnails, the buttons, and the retry that goes back to checkout. */
module PaymentResultScreen {
  import opened Wrappers
  import opened Items
  import opened Orders
  import opened Checkout
  import CartContext

  /** The route parameters as the screen reads them; `items` and `product`
      may each be missing. */
  datatype RouteParams = RouteParams(
    result: PaymentResult,
    items: Option<seq<Item>>,
    product: Option<Item>,
    orderId: string,
    isCartCheckout: bool)

  /** The parameters checkout navigates with: always `items`, never `product`. */
  function RouteOf(next: ResultParams): (r: RouteParams)
    ensures DisplayItems(r) == next.items
    ensures r.result == next.result && r.orderId == next.orderId && r.isCartCheckout == next.isCartCheckout
  {
    RouteParams(next.result, Some(next.items), None, next.orderId, next.isCartCheckout)
  }

  /** `items || (product ? [product] : [])`; an empty array is truthy. */
  function DisplayItems(p: RouteParams): (r: seq<Item>)
    ensures p.items.Some? ==> r == p.items.value
    ensures p.items.None? && p.product.Some? ==> r == [p.product.value]
    ensures p.items.None? && p.product.None? ==> r == []
  {
    match p.items
    case Some(items) => items
    case None => if p.product.Some? then [p.product.value] else []
  }

  /** `displayItems.reduce(...)` of price times `quantity || 1`. */
  function TotalAmount(p: RouteParams): (r: int)
    ensures p.items.None? && p.product.None? ==> r == 0
    ensures p.items.None? && p.product.Some? ==> r == p.product.value.price * OrOne(p.product.value.quantity)
    ensures (forall i :: 0 <= i < |DisplayItems(p)| ==> OrOne(DisplayItems(p)[i].quantity) >= 1) ==> r >= 0
  {
    var s := DisplayItems(p);
    assert p.items.None? && p.product.Some? ==> s[1..] == [] && AmountOf(s) == LineAmount(s[0]);
    if forall i :: 0 <= i < |s| ==> OrOne(s[i].quantity) >= 1 then
      SumsBounds(s);
      AmountOf(s)
    else AmountOf(s)
  }

  /** `displayItems.reduce(...)` of `quantity || 1`. */
  function ItemCount(p: RouteParams): (r: int)
    ensures p.items.None? && p.product.None? ==> r == 0
    ensures p.items.None? && p.product.Some? ==> r == OrOne(p.product.value.quantity)
    ensures (forall i :: 0 <= i < |DisplayItems(p)| ==> OrOne(DisplayItems(p)[i].quantity) >= 1) ==> r >= |DisplayItems(p)|
  {
    var s := DisplayItems(p);
    assert p.items.None? && p.product.Some? ==> s[1..] == [];
    if forall i :: 0 <= i < |s| ==> OrOne(s[i].quantity) >= 1 then
      SumsBounds(s);
      UnitsOf(s)
    else UnitsOf(s)
  }

  const SuccessTitle := "Payment Successful!"
  const FailureTitle := "Payment Failed"

  function Title(p: RouteParams): (t: string)
    ensures t == SuccessTitle <==> p.result.success
  {
    if p.result.success then SuccessTitle else FailureTitle
  }

  /** `result.message ||` a default for the outcome. */
  function Message(p: RouteParams): (m: string)
    ensures p.result.message != "" ==> m == p.result.message
    ensures m != ""
  {
    if p.result.message != "" then p.result.message
    else if p.result.success then "Your order has been placed successfully."
    else "Unable to process payment."
  }

  /** The thumbnails: the product's for a single purchase, the first three of
      a cart with a "+n" overlay for the rest. */
  datatype Thumbnails = NoThumbnails | Single(uri: string) | Grid(uris: seq<string>, more: nat)

  function ThumbnailsOf(p: RouteParams): (t: Thumbnails)
    ensures var d := DisplayItems(p);
      && (t.Single? <==> !p.isCartCheckout && |d| > 0)
      && (t.Grid? <==> p.isCartCheckout && |d| > 0)
      && (t.Single? ==> t.uri == d[0].thumbnail)
      && (t.Grid? ==>
            |t.uris| == (if |d| < 3 then |d| else 3)
            && (forall i :: 0 <= i < |t.uris| ==> t.uris[i] == d[i].thumbnail)
            && t.more == (if |d| > 3 then |d| - 3 else 0))
  {
    var d := DisplayItems(p);
    if |d| == 0 then NoThumbnails
    else if !p.isCartCheckout then Single(d[0].thumbnail)
    else
      var shown := if |d| < 3 then d else d[..3];
      Grid(ThumbnailUris(shown), if |d| > 3 then |d| - 3 else 0)
  }

  function ThumbnailUris(s: seq<Item>): (r: seq<string>)
    ensures |r| == |s| && forall i :: 0 <= i < |s| ==> r[i] == s[i].thumbnail
  {
    if s == [] then [] else [s[0].thumbnail] + ThumbnailUris(s[1..])
  }

  /** Where a button leads. */
  datatype Action = GoHome | Retry

  datatype Button = Button(caption: string, action: Action)

  /** Success offers only Continue Shopping; failure offers Retry Payment,
      then Go to Home. */
  function Buttons(p: RouteParams): (b: seq<Button>)
    ensures p.result.success ==> b == [Button("Continue Shopping", GoHome)]
    ensures !p.result.success ==> b == [Button("Retry Payment", Retry), Button("Go to Home", GoHome)]
  {
    if p.result.success then [Button("Continue Shopping", GoHome)]
    else [Button("Retry Payment", Retry), Button("Go to Home", GoHome)]
  }

  /** handleRetry: back to checkout with the cart lines, or with the first
      line as the product; None when there is no line to pass. */
  function RetryParams(p: RouteParams): (r: Option<CheckoutParams>)
    ensures r.None? <==> !p.isCartCheckout && DisplayItems(p) == []
    ensures r.Some? && p.isCartCheckout ==> r.value == CartCheckout(DisplayItems(p))
    ensures r.Some? && !p.isCartCheckout ==> r.value == SingleProduct(DisplayItems(p)[0])
  {
    var d := DisplayItems(p);
    if p.isCartCheckout then Some(CartCheckout(d))
    else if |d| > 0 then Some(SingleProduct(d[0]))
    else None
  }

  /** Retrying a failed payment buys the same lines for the same total. */
  lemma RetryReproducesCheckout(params: CheckoutParams, orderId: string, outcome: PaymentOutcome)
    ensures var route := RouteOf(ResultParamsOf(params, orderId, outcome));
      RetryParams(route).Some?
      && ItemsOf(RetryParams(route).value) == ItemsOf(params)
      && Total(RetryParams(route).value) == Total(params)
  {
  }

  /** The amount shown is the checkout's subtotal, so the amount charged is
      that amount with tax and shipping; the count is the number of units. */
  lemma ResultTotals(params: CheckoutParams, orderId: string, outcome: PaymentOutcome)
    ensures var route := RouteOf(ResultParamsOf(params, orderId, outcome));
      TotalAmount(route) == Subtotal(params)
      && OrderDataOf(orderId, params).amount == Charged(TotalAmount(route), Shipping)
      && ItemCount(route) == UnitsOf(ItemsOf(params))
  {
  }

  /** After a cart checkout, the count shown is the cart badge's count. */
  lemma {:induction false} CartItemCount(cart: seq<Item>)
    requires forall i :: 0 <= i < |cart| ==> CartContext.PositiveQuantity(cart[i])
    ensures UnitsOf(cart) == CartContext.TotalCount(cart)
  {
    if cart != [] {
      assert forall i :: 0 <= i < |cart[1..]| ==> cart[1..][i] == cart[i + 1];
      CartItemCount(cart[1..]);
      assert CartContext.PositiveQuantity(cart[0]);
    }
  }
}
