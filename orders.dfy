/** The amounts every order screen derives from a list of lines: the line
    price times `quantity || 1`, summed, and the 18% GST. */
module Orders {
  import opened Items

  const TaxRate: real := 0.18
  const Shipping: nat := 50

  /** `item.price * (item.quantity || 1)` */
  function LineAmount(x: Item): int
  {
    x.price * OrOne(x.quantity)
  }

  /** `items.reduce((sum, item) => sum + item.price * (item.quantity || 1), 0)` */
  function AmountOf(s: seq<Item>): int
  {
    if s == [] then 0 else LineAmount(s[0]) + AmountOf(s[1..])
  }

  /** `items.reduce((sum, item) => sum + (item.quantity || 1), 0)` */
  function UnitsOf(s: seq<Item>): int
  {
    if s == [] then 0 else OrOne(s[0].quantity) + UnitsOf(s[1..])
  }

  /** `subtotal + subtotal * 0.18 + shipping` */
  function Charged(subtotal: int, shipping: nat): real
  {
    subtotal as real + subtotal as real * TaxRate + shipping as real
  }

  /** Both sums split over concatenation. */
  lemma {:induction false} SumsAppend(a: seq<Item>, b: seq<Item>)
    ensures AmountOf(a + b) == AmountOf(a) + AmountOf(b)
    ensures UnitsOf(a + b) == UnitsOf(a) + UnitsOf(b)
  {
    if a == [] {
      assert a + b == b;
    } else {
      SumsAppend(a[1..], b);
      assert (a + b)[1..] == a[1..] + b;
    }
  }

  /** When no line has a negative quantity, every line counts at least one
      unit and the amount is at least the sum of the prices. */
  lemma {:induction false} SumsBounds(s: seq<Item>)
    requires forall i :: 0 <= i < |s| ==> OrOne(s[i].quantity) >= 1
    ensures UnitsOf(s) >= |s|
    ensures AmountOf(s) >= PriceSum(s) >= 0
  {
    if s != [] {
      assert forall i :: 0 <= i < |s[1..]| ==> s[1..][i] == s[i + 1];
      SumsBounds(s[1..]);
      assert OrOne(s[0].quantity) >= 1;
      assert LineAmount(s[0]) >= s[0].price;
    }
  }

  function PriceSum(s: seq<Item>): nat
  {
    if s == [] then 0 else s[0].price + PriceSum(s[1..])
  }
}
