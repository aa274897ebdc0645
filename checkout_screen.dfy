/** The checkout screen: the lines being bought, the amounts, the order
    handed to the payment service, and what happens after it answers. */
module Checkout {
  import opened Wrappers
  import opened Items
  import opened Orders
  import CartContext
  import CartStorage

  const Currency := "INR"

  /** The two ways to reach checkout: the whole cart, or one product. */
  datatype CheckoutParams = CartCheckout(cartItems: seq<Item>) | SingleProduct(product: Item)

  /** The lines being bought: the cart, or the product with quantity 1. */
  function ItemsOf(p: CheckoutParams): seq<Item>
  {
    match p
    case CartCheckout(cartItems) => cartItems
    case SingleProduct(product) => [product.(quantity := Some(1))]
  }

  function Subtotal(p: CheckoutParams): int
  {
    AmountOf(ItemsOf(p))
  }

  /** Shipping is always 50 here, even for an empty cart. */
  function Total(p: CheckoutParams): (r: real)
    ensures r == Subtotal(p) as real * 1.18 + 50.0
    ensures p == CartCheckout([]) ==> r == 50.0
  {
    Charged(Subtotal(p), Shipping)
  }

  /** One product bought alone costs its price plus 18%, plus 50. */
  lemma SingleProductTotal(product: Item)
    ensures Subtotal(SingleProduct(product)) == product.price
    ensures Total(SingleProduct(product)) == product.price as real * 1.18 + 50.0
  {
    var line := product.(quantity := Some(1));
    assert [line][1..] == [];
    assert AmountOf([line]) == LineAmount(line) == product.price;
  }

  /** A line of the order sent to the payment service. */
  datatype OrderLine = OrderLine(id: int, title: string, price: nat, quantity: int, thumbnail: string)

  datatype OrderData = OrderData(orderId: string, items: seq<OrderLine>, amount: real, currency: string)

  function LineOf(x: Item): (r: OrderLine)
    ensures r.id == x.id && r.title == x.title && r.price == x.price && r.thumbnail == x.thumbnail
    ensures r.quantity != 0 && r.price * r.quantity == LineAmount(x)
    ensures x.quantity.Some? && x.quantity.value != 0 ==> r.quantity == x.quantity.value
  {
    OrderLine(x.id, x.title, x.price, OrOne(x.quantity), x.thumbnail)
  }

  function LinesOf(s: seq<Item>): (r: seq<OrderLine>)
    ensures |r| == |s|
    ensures forall i :: 0 <= i < |s| ==> r[i] == LineOf(s[i])
  {
    if s == [] then [] else [LineOf(s[0])] + LinesOf(s[1..])
  }

  /** The sum of price * quantity over order lines. */
  function LinesAmount(lines: seq<OrderLine>): int
  {
    if lines == [] then 0 else lines[0].price * lines[0].quantity + LinesAmount(lines[1..])
  }

  /** The orderData of handlePayment. */
  function OrderDataOf(orderId: string, p: CheckoutParams): OrderData
  {
    OrderData(orderId, LinesOf(ItemsOf(p)), Total(p), Currency)
  }

  lemma {:induction false} LinesAmountOf(s: seq<Item>)
    ensures LinesAmount(LinesOf(s)) == AmountOf(s)
  {
    if s != [] {
      LinesAmountOf(s[1..]);
      assert LinesOf(s)[1..] == LinesOf(s[1..]);
    }
  }

  /** The order lists every line in order with a quantity that is never 0,
      its lines add up to the subtotal, and the amount charged is the total
      shown, in rupees. */
  lemma OrderDataSpec(orderId: string, p: CheckoutParams)
    ensures var order := OrderDataOf(orderId, p);
      && order.orderId == orderId
      && |order.items| == |ItemsOf(p)|
      && (forall i :: 0 <= i < |order.items| ==>
            order.items[i].id == ItemsOf(p)[i].id && order.items[i].quantity != 0)
      && LinesAmount(order.items) == Subtotal(p)
      && order.amount == Charged(Subtotal(p), Shipping)
      && order.currency == "INR"
  {
    LinesAmountOf(ItemsOf(p));
  }

  /** What the payment service resolves to; its transaction id, timestamp
      and echo of the order are not modelled. */
  datatype PaymentResult = PaymentResult(success: bool, error: string, message: string)

  const Approved := PaymentResult(true, "", "Payment processed successfully")
  const Declined := PaymentResult(false, "Payment declined", "Unable to process payment. Please try again.")
  const UnexpectedError := PaymentResult(false, "Unexpected error occurred", "Something went wrong. Please try again.")

  /** processPayment: approved when the draw is above 0.3. */
  function ProcessPayment(draw: Unit): (r: PaymentResult)
    ensures r.success <==> draw > 0.3
    ensures r == Approved || r == Declined
  {
    if draw > 0.3 then Approved else Declined
  }

  /** How the awaited payment call ends: with a result, or by throwing. */
  datatype PaymentOutcome = Resolved(result: PaymentResult) | Threw

  /** The parameters of the payment result screen. */
  datatype ResultParams = ResultParams(result: PaymentResult, items: seq<Item>, orderId: string, isCartCheckout: bool)

  /** Both paths go to the result screen with the same lines and order id;
      a throw shows a fixed failure. */
  function ResultParamsOf(p: CheckoutParams, orderId: string, outcome: PaymentOutcome): (r: ResultParams)
    ensures r.items == ItemsOf(p) && r.orderId == orderId && r.isCartCheckout == p.CartCheckout?
    ensures outcome.Resolved? ==> r.result == outcome.result
    ensures outcome.Threw? ==> r.result == UnexpectedError && !r.result.success
  {
    var result := match outcome
      case Resolved(res) => res
      case Threw => UnexpectedError;
    ResultParams(result, ItemsOf(p), orderId, p.CartCheckout?)
  }

  /** The cart is emptied after any answer of the payment service, approved
      or declined, and only for a cart checkout. */
  predicate ClearsCart(p: CheckoutParams, outcome: PaymentOutcome)
  {
    p.CartCheckout? && outcome.Resolved?
  }

  /** A declined payment of the cart still empties the cart. */
  lemma DeclineClearsCart(cart: seq<Item>, draw: Unit)
    requires draw <= 0.3
    ensures ClearsCart(CartCheckout(cart), Resolved(ProcessPayment(draw)))
    ensures !ResultParamsOf(CartCheckout(cart), "", Resolved(ProcessPayment(draw))).result.success
  {
  }

  class CheckoutSession {
    var processing: bool
    const params: CheckoutParams
    const orderId: string

    /** The order id is fixed when the screen mounts. */
    constructor (params: CheckoutParams, orderId: string)
      ensures !processing && this.params == params && this.orderId == orderId
    {
      processing := false;
      this.params := params;
      this.orderId := orderId;
    }

    /** The start of handlePayment: the spinner, and the order to send. */
    method StartPayment() returns (order: OrderData)
      modifies this
      ensures processing
      ensures order == OrderDataOf(orderId, params)
    {
      processing := true;
      order := OrderDataOf(orderId, params);
    }

    /** The rest of handlePayment: clear the cart when a cart payment got an
        answer, then replace the screen with the result. */
    method FinishPayment(outcome: PaymentOutcome, ledger: CartContext.CartLedger) returns (next: ResultParams)
      modifies this, ledger, ledger.store`cells
      ensures !processing
      ensures next == ResultParamsOf(params, orderId, outcome)
      ensures ClearsCart(params, outcome) ==>
        ledger.lines == [] && ledger.store.cells == CartStorage.SavedCells(old(ledger.store.cells), ledger.store.writeFails, [])
      ensures !ClearsCart(params, outcome) ==>
        ledger.lines == old(ledger.lines) && ledger.store.cells == old(ledger.store.cells)
    {
      if outcome.Resolved? && params.CartCheckout? {
        ledger.ClearCart();
      }
      next := ResultParamsOf(params, orderId, outcome);
      processing := false;
    }

    /** handlePayment, with the payment service's answer as `outcome`. */
    method HandlePayment(outcome: PaymentOutcome, ledger: CartContext.CartLedger) returns (order: OrderData, next: ResultParams)
      modifies this, ledger, ledger.store`cells
      ensures !processing
      ensures order == OrderDataOf(orderId, params)
      ensures next == ResultParamsOf(params, orderId, outcome)
      ensures ClearsCart(params, outcome) ==>
        ledger.lines == [] && ledger.store.cells == CartStorage.SavedCells(old(ledger.store.cells), ledger.store.writeFails, [])
      ensures !ClearsCart(params, outcome) ==>
        ledger.lines == old(ledger.lines) && ledger.store.cells == old(ledger.store.cells)
    {
      order := StartPayment();
      next := FinishPayment(outcome, ledger);
    }
  }
}
