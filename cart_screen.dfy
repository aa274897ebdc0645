/** The cart screen: its totals, the quantity buttons and the checkout
    button. */
module CartScreen {
  import opened Wrappers
  import opened Items
  import opened Orders
  import CartContext
  import CartStorage
  import Checkout

  /** `sum + item.price * item.quantity`; a line without a number quantity
      makes the subtotal NaN (None). */
  function Subtotal(cart: seq<Item>): (r: Option<int>)
    ensures r.None? <==> exists i :: 0 <= i < |cart| && cart[i].quantity.None?
  {
    if cart == [] then Some(0)
    else
      match (cart[0].quantity, Subtotal(cart[1..]))
      case (Some(q), Some(rest)) => Some(cart[0].price * q + rest)
      case _ => None
  }

  /** Shipping is 50 on a non-empty cart and nothing on an empty one. */
  function ShippingOf(cart: seq<Item>): (r: nat)
    ensures r == if cart == [] then 0 else 50
  {
    if |cart| > 0 then Shipping else 0
  }

  /** The total shown: subtotal, 18% tax and shipping; NaN stays NaN. */
  function Total(cart: seq<Item>): (r: Option<real>)
    ensures r.None? <==> Subtotal(cart).None?
    ensures cart == [] ==> r == Some(0.0)
    ensures cart != [] && r.Some? ==> r.value == Subtotal(cart).value as real * 1.18 + 50.0
  {
    match Subtotal(cart)
    case Some(s) => Some(Charged(s, ShippingOf(cart)))
    case None => None
  }

  /** handleCheckout: nothing on an empty cart, else the checkout of the
      whole cart. */
  function CheckoutTarget(cart: seq<Item>): (r: Option<Checkout.CheckoutParams>)
    ensures r.None? <==> cart == []
    ensures r.Some? ==> r.value == Checkout.CartCheckout(cart)
  {
    if |cart| == 0 then None else Some(Checkout.CartCheckout(cart))
  }

  /** handleQuantityChange's update: setQuantity with the new quantity when
      it is above 0, removeItem otherwise (NaN included). */
  function QuantityChanged(cart: seq<Item>, id: int, current: Option<int>, increment: int): (r: seq<Item>)
    ensures !(Plus(current, increment).Some? && Plus(current, increment).value > 0) ==> !HasId(r, id)
    ensures Plus(current, increment).Some? && Plus(current, increment).value > 0 ==> |r| == |cart|
    ensures forall x :: x in cart && x.id != id ==> x in r
  {
    var next := Plus(current, increment);
    if next.Some? && next.value > 0 then CartContext.QuantitySet(cart, id, next.value)
    else Items.WithoutId(cart, id)
  }

  /** handleQuantityChange */
  method HandleQuantityChange(ledger: CartContext.CartLedger, id: int, current: Option<int>, increment: int)
    modifies ledger, ledger.store`cells
    ensures ledger.lines == QuantityChanged(old(ledger.lines), id, current, increment)
    ensures ledger.store.cells == CartStorage.SavedCells(old(ledger.store.cells), ledger.store.writeFails, ledger.lines)
  {
    var next := Plus(current, increment);
    if next.Some? && next.value > 0 {
      ledger.SetQuantity(id, next.value);
    } else {
      ledger.RemoveItem(id);
    }
  }

  /** With a number quantity the screen's own guard agrees with setQuantity's:
      the change is setQuantity of the sum, whatever its sign. */
  lemma QuantityChangedIsSetQuantity(cart: seq<Item>, id: int, current: int, increment: int)
    ensures QuantityChanged(cart, id, Some(current), increment)
      == CartContext.QuantitySet(cart, id, current + increment)
  {
  }

  /** On a well-formed cart, the + and - buttons of a line (which pass the
      line's quantity) do what increaseQuantity and decreaseQuantity do. */
  lemma ButtonsMatchLedger(cart: seq<Item>, id: int)
    requires CartContext.WellFormed(cart) && HasId(cart, id)
    ensures QuantityChanged(cart, id, CartContext.QuantityOf(cart, id), 1) == CartContext.Bumped(cart, id)
    ensures QuantityChanged(cart, id, CartContext.QuantityOf(cart, id), -1) == CartContext.Decremented(cart, id)
  {
    PlusButton(cart, id);
    MinusButton(cart, id);
  }

  lemma PlusButton(cart: seq<Item>, id: int)
    requires CartContext.WellFormed(cart) && HasId(cart, id)
    ensures QuantityChanged(cart, id, CartContext.QuantityOf(cart, id), 1) == CartContext.Bumped(cart, id)
  {
    var k := IndexOf(cart, id);
    assert CartContext.PositiveQuantity(cart[k]);
    var q := cart[k].quantity.value;
    assert CartContext.QuantityOf(cart, id) == Some(q);
    CartContext.QuantitySetSpec(cart, id, q + 1);
    CartContext.BumpedSpec(cart, id);
  }

  lemma MinusButton(cart: seq<Item>, id: int)
    requires CartContext.WellFormed(cart) && HasId(cart, id)
    ensures QuantityChanged(cart, id, CartContext.QuantityOf(cart, id), -1) == CartContext.Decremented(cart, id)
  {
    var k := IndexOf(cart, id);
    assert CartContext.PositiveQuantity(cart[k]);
    var q := cart[k].quantity.value;
    assert CartContext.QuantityOf(cart, id) == Some(q);
    CartContext.DecrementedSpec(cart, id);
    if q - 1 > 0 {
      CartContext.QuantitySetSpec(cart, id, q - 1);
    } else {
      RemoveUniqueAt(cart, k);
    }
  }

  /** On a well-formed cart the screen's totals are numbers and agree with
      the checkout of that cart. */
  lemma TotalsMatchCheckout(cart: seq<Item>)
    requires CartContext.WellFormed(cart) && cart != []
    ensures Subtotal(cart) == Some(Checkout.Subtotal(Checkout.CartCheckout(cart)))
    ensures Total(cart) == Some(Checkout.Total(Checkout.CartCheckout(cart)))
  {
    SubtotalOfWellFormed(cart);
  }

  lemma {:induction false} SubtotalOfWellFormed(cart: seq<Item>)
    requires forall i :: 0 <= i < |cart| ==> CartContext.PositiveQuantity(cart[i])
    ensures Subtotal(cart) == Some(AmountOf(cart))
  {
    if cart != [] {
      assert forall i :: 0 <= i < |cart[1..]| ==> cart[1..][i] == cart[i + 1];
      SubtotalOfWellFormed(cart[1..]);
      assert CartContext.PositiveQuantity(cart[0]);
    }
  }
}
