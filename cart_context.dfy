/** The cart ledger: the in-memory list of cart lines that every cart
    operation replaces, written back to device storage after each change. */
module CartContext {
  import opened Wrappers
  import opened Items
  import opened Storage
  import CartStorage

  /** A line the ledger should hold: its quantity is a number of at least 1. */
  predicate PositiveQuantity(x: Item)
  {
    x.quantity.Some? && x.quantity.value >= 1
  }

  /** The ledger's invariant: one line per id, every quantity at least 1. */
  predicate WellFormed(s: seq<Item>)
  {
    UniqueIds(s) && forall i :: 0 <= i < |s| ==> PositiveQuantity(s[i])
  }

  // ---------------------------------------------------------------------
  // The list edits that the operations hand to setCart

  /** `prev.map(p => p.id === id ? { ...p, quantity: p.quantity + 1 } : p)` */
  function Bumped(s: seq<Item>, id: int): (r: seq<Item>)
    ensures |r| == |s|
    ensures forall i :: 0 <= i < |s| ==>
      r[i] == if s[i].id == id then s[i].(quantity := Plus(s[i].quantity, 1)) else s[i]
  {
    if s == [] then []
    else
      var head := if s[0].id == id then s[0].(quantity := Plus(s[0].quantity, 1)) else s[0];
      [head] + Bumped(s[1..], id)
  }

  /** `prev.map(p => p.id === id ? { ...p, quantity: q } : p)` */
  function WithQuantity(s: seq<Item>, id: int, q: int): (r: seq<Item>)
    ensures |r| == |s|
    ensures forall i :: 0 <= i < |s| ==>
      r[i] == if s[i].id == id then s[i].(quantity := Some(q)) else s[i]
  {
    if s == [] then []
    else
      var head := if s[0].id == id then s[0].(quantity := Some(q)) else s[0];
      [head] + WithQuantity(s[1..], id, q)
  }

  /** The map-then-filter(Boolean) of decreaseQuantity: a line with the id
      gets quantity - 1, and is dropped when that is not above 0 (NaN is not). */
  function Decremented(s: seq<Item>, id: int): (r: seq<Item>)
    ensures |r| <= |s|
    ensures forall x :: x in r && x.id == id ==> x.quantity.Some? && x.quantity.value > 0
  {
    if s == [] then []
    else if s[0].id == id then
      var q := Plus(s[0].quantity, -1);
      if q.Some? && q.value > 0 then [s[0].(quantity := q)] + Decremented(s[1..], id)
      else Decremented(s[1..], id)
    else [s[0]] + Decremented(s[1..], id)
  }

  /** addItem's update: increment the line(s) with the product's id, or
      append the product with quantity 1. */
  function Added(s: seq<Item>, product: Item): (r: seq<Item>)
    ensures HasId(r, product.id)
    ensures |r| == if HasId(s, product.id) then |s| else |s| + 1
    ensures forall i :: 0 <= i < |s| && s[i].id != product.id ==> r[i] == s[i]
  {
    if HasId(s, product.id) then Bumped(s, product.id)
    else
      var r := s + [product.(quantity := Some(1))];
      assert r[|s|].id == product.id;
      r
  }

  /** setQuantity's update: a quantity of 0 or less removes the line. */
  function QuantitySet(s: seq<Item>, id: int, q: int): (r: seq<Item>)
    ensures q <= 0 ==> !HasId(r, id)
    ensures q > 0 ==> |r| == |s| && (HasId(r, id) <==> HasId(s, id))
    ensures forall x :: x in s && x.id != id ==> x in r
  {
    if q <= 0 then WithoutId(s, id) else WithQuantity(s, id, q)
  }

  // ---------------------------------------------------------------------
  // The queries

  /** getItemQuantity: the first matching line's quantity, else 0. */
  function QuantityOf(s: seq<Item>, id: int): (r: Option<int>)
    ensures !HasId(s, id) ==> r == Some(0)
    ensures HasId(s, id) ==> r == s[IndexOf(s, id)].quantity
  {
    match Find(s, id)
    case Some(line) => line.quantity
    case None => Some(0)
  }

  /** count: `cart.reduce((s, p) => s + (p.quantity || 0), 0)` */
  function TotalCount(s: seq<Item>): (r: int)
    ensures (forall i :: 0 <= i < |s| ==> PositiveQuantity(s[i])) ==> r >= |s|
  {
    if s == [] then 0 else OrZero(s[0].quantity) + TotalCount(s[1..])
  }

  // ---------------------------------------------------------------------
  // What the updates do

  /** In a list with unique ids, an id found at k occurs nowhere else. */
  lemma OnlyAt(s: seq<Item>, k: nat)
    requires UniqueIds(s) && k < |s|
    ensures forall i :: 0 <= i < |s| && i != k ==> s[i].id != s[k].id
  {
    forall i | 0 <= i < |s| && i != k ensures s[i].id != s[k].id {
      if i < k {
        assert s[i].id != s[k].id;
      } else {
        assert s[k].id != s[i].id;
      }
    }
  }

  /** addItem on an id in the cart increments that one line by exactly 1;
      the length and every other line are unchanged. On an absent id it
      appends the product with quantity 1 at the end. */
  lemma AddedSpec(s: seq<Item>, product: Item)
    requires UniqueIds(s)
    ensures HasId(s, product.id) ==>
      var k := IndexOf(s, product.id);
      Added(s, product) == s[k := s[k].(quantity := Plus(s[k].quantity, 1))]
    ensures !HasId(s, product.id) ==> Added(s, product) == s + [product.(quantity := Some(1))]
  {
    if HasId(s, product.id) {
      OnlyAt(s, IndexOf(s, product.id));
    }
  }

  /** increaseQuantity adds 1 to the matching line and is a no-op on an
      absent id. */
  lemma BumpedSpec(s: seq<Item>, id: int)
    requires UniqueIds(s)
    ensures HasId(s, id) ==>
      var k := IndexOf(s, id);
      Bumped(s, id) == s[k := s[k].(quantity := Plus(s[k].quantity, 1))]
    ensures !HasId(s, id) ==> Bumped(s, id) == s
  {
    if HasId(s, id) {
      OnlyAt(s, IndexOf(s, id));
    }
  }

  /** setQuantity with q <= 0 is removeItem; with q > 0 it sets only the
      matching line to q; on an absent id it never creates a line. */
  lemma QuantitySetSpec(s: seq<Item>, id: int, q: int)
    requires UniqueIds(s)
    ensures q <= 0 ==> QuantitySet(s, id, q) == WithoutId(s, id)
    ensures q > 0 && HasId(s, id) ==>
      var k := IndexOf(s, id);
      QuantitySet(s, id, q) == s[k := s[k].(quantity := Some(q))]
    ensures !HasId(s, id) ==> QuantitySet(s, id, q) == s
  {
    if !HasId(s, id) {
      WithoutAbsentId(s, id);
    } else if q > 0 {
      OnlyAt(s, IndexOf(s, id));
    }
  }

  /** decreaseQuantity leaves every other line, in order, as it was. */
  lemma {:induction false} DecrementedKeepsOthers(s: seq<Item>, id: int)
    ensures WithoutId(Decremented(s, id), id) == WithoutId(s, id)
  {
    if s != [] {
      DecrementedKeepsOthers(s[1..], id);
    }
  }

  /** decreaseQuantity on an absent id is a no-op. */
  lemma {:induction false} DecrementedAbsent(s: seq<Item>, id: int)
    requires !HasId(s, id)
    ensures Decremented(s, id) == s
  {
    if s != [] {
      assert s[0].id != id;
      DecrementedAbsent(s[1..], id);
      assert s == [s[0]] + s[1..];
    }
  }

  /** With ids unique, decreaseQuantity subtracts 1 from the matching line,
      or removes it when the new quantity is not above 0. */
  lemma {:induction false} DecrementedSpec(s: seq<Item>, id: int)
    requires UniqueIds(s) && HasId(s, id)
    ensures
      var k := IndexOf(s, id);
      var q := Plus(s[k].quantity, -1);
      Decremented(s, id) == if q.Some? && q.value > 0 then s[k := s[k].(quantity := q)]
                            else s[..k] + s[k + 1..]
  {
    UniqueTail(s);
    if s[0].id == id {
      DecrementedAbsent(s[1..], id);
    } else {
      var k := IndexOf(s, id);
      assert s[1..][k - 1] == s[k];
      assert IndexOf(s[1..], id) == k - 1;
      DecrementedSpec(s[1..], id);
      assert s[..k] == [s[0]] + s[1..][..k - 1];
      assert s[k + 1..] == s[1..][k..];
    }
  }

  /** Replacing one line by a line of the same id and a positive quantity
      keeps the invariant. */
  lemma UpdateAtKeeps(s: seq<Item>, k: nat, x: Item)
    requires WellFormed(s) && k < |s| && x.id == s[k].id && PositiveQuantity(x)
    ensures WellFormed(s[k := x])
  {
  }

  /** Removing one line keeps the invariant. */
  lemma RemoveAtKeeps(s: seq<Item>, k: nat)
    requires WellFormed(s) && k < |s|
    ensures WellFormed(s[..k] + s[k + 1..])
  {
    var d := s[..k] + s[k + 1..];
    forall i, j | 0 <= i < j < |d| ensures d[i].id != d[j].id {
      var i' := if i < k then i else i + 1;
      var j' := if j < k then j else j + 1;
      assert d[i] == s[i'] && d[j] == s[j'];
    }
    forall i | 0 <= i < |d| ensures PositiveQuantity(d[i]) {
      assert d[i] == s[if i < k then i else i + 1];
    }
  }

  /** addItem keeps the invariant. */
  lemma AddedKeeps(s: seq<Item>, product: Item)
    requires WellFormed(s)
    ensures WellFormed(Added(s, product))
  {
    AddedSpec(s, product);
    if HasId(s, product.id) {
      var k := IndexOf(s, product.id);
      UpdateAtKeeps(s, k, s[k].(quantity := Plus(s[k].quantity, 1)));
    } else {
      var r := s + [product.(quantity := Some(1))];
      forall i, j | 0 <= i < j < |r| ensures r[i].id != r[j].id {
        if j == |s| {
          assert r[i] == s[i];
        }
      }
    }
  }

  /** removeItem keeps the invariant. */
  lemma WithoutIdKeeps(s: seq<Item>, id: int)
    requires WellFormed(s)
    ensures WellFormed(WithoutId(s, id))
  {
    WithoutIdUnique(s, id);
    var w := WithoutId(s, id);
    forall i | 0 <= i < |w| ensures PositiveQuantity(w[i]) {
      assert w[i] in s;
    }
  }

  /** Every update keeps the ledger's invariant of one line per id and
      quantities of at least 1. */
  lemma UpdatesKeepWellFormed(s: seq<Item>, product: Item, id: int, q: int)
    requires WellFormed(s)
    ensures WellFormed(Added(s, product))
    ensures WellFormed(WithoutId(s, id))
    ensures WellFormed(QuantitySet(s, id, q))
    ensures WellFormed(Bumped(s, id))
    ensures WellFormed(Decremented(s, id))
  {
    AddedKeeps(s, product);
    WithoutIdKeeps(s, id);
    QuantitySetSpec(s, id, q);
    BumpedSpec(s, id);
    if HasId(s, id) {
      var k := IndexOf(s, id);
      if q > 0 {
        UpdateAtKeeps(s, k, s[k].(quantity := Some(q)));
      }
      UpdateAtKeeps(s, k, s[k].(quantity := Plus(s[k].quantity, 1)));
      DecrementedSpec(s, id);
      var d := Plus(s[k].quantity, -1);
      if d.Some? && d.value > 0 {
        UpdateAtKeeps(s, k, s[k].(quantity := d));
      } else {
        RemoveAtKeeps(s, k);
      }
    } else {
      DecrementedAbsent(s, id);
    }
  }

  // ---------------------------------------------------------------------
  // What the queries report after the updates

  /** The total of a list with an extra line at the end. */
  lemma {:induction false} TotalCountAppend(s: seq<Item>, x: Item)
    ensures TotalCount(s + [x]) == TotalCount(s) + OrZero(x.quantity)
  {
    if s != [] {
      TotalCountAppend(s[1..], x);
      assert (s + [x])[1..] == s[1..] + [x];
    }
  }

  /** The total after one line's quantity changes by d. */
  lemma {:induction false} TotalCountUpdate(s: seq<Item>, k: nat, x: Item)
    requires k < |s|
    ensures TotalCount(s[k := x]) == TotalCount(s) - OrZero(s[k].quantity) + OrZero(x.quantity)
  {
    if k > 0 {
      TotalCountUpdate(s[1..], k - 1, x);
      assert s[k := x][1..] == s[1..][k - 1 := x];
    }
  }

  /** On a well-formed cart, addItem and increaseQuantity raise the count by
      one, and getItemQuantity then reports one more than before. */
  lemma AddRaisesCount(s: seq<Item>, product: Item)
    requires WellFormed(s)
    ensures TotalCount(Added(s, product)) == TotalCount(s) + 1
    ensures QuantityOf(Added(s, product), product.id) == Some(OrZero(QuantityOf(s, product.id)) + 1)
  {
    AddedSpec(s, product);
    var r := Added(s, product);
    if HasId(s, product.id) {
      var k := IndexOf(s, product.id);
      TotalCountUpdate(s, k, r[k]);
      assert IndexOf(r, product.id) == k by {
        OnlyAt(s, k);
      }
    } else {
      TotalCountAppend(s, product.(quantity := Some(1)));
      assert r[|s|].id == product.id;
      assert IndexOf(r, product.id) == |s| by {
        forall i | 0 <= i < |s| ensures r[i].id != product.id {
          assert r[i] == s[i];
        }
      }
    }
  }

  /** getItemQuantity is 0 exactly for the ids that have no line, and after
      setQuantity(id, q) it is q (when q > 0 and the line exists) or 0. */
  lemma QuantityQueries(s: seq<Item>, id: int, q: int)
    requires WellFormed(s)
    ensures QuantityOf(s, id) == Some(0) <==> !HasId(s, id)
    ensures HasId(s, id) && q > 0 ==> QuantityOf(QuantitySet(s, id, q), id) == Some(q)
    ensures q <= 0 ==> QuantityOf(QuantitySet(s, id, q), id) == Some(0)
  {
    if HasId(s, id) {
      assert PositiveQuantity(s[IndexOf(s, id)]);
    }
    QuantitySetSpec(s, id, q);
    if HasId(s, id) && q > 0 {
      var k := IndexOf(s, id);
      OnlyAt(s, k);
      var r := QuantitySet(s, id, q);
      assert IndexOf(r, id) == k;
    }
    if q <= 0 {
      WithoutIdDrops(s, id);
    }
  }

  /** An empty cart; addItem(p); getItemQuantity is 1; decreaseQuantity
      empties the cart again. */
  lemma AddThenDecrease(product: Item)
    ensures QuantityOf(Added([], product), product.id) == Some(1)
    ensures Decremented(Added([], product), product.id) == []
  {
    var r := Added([], product);
    assert r == [product.(quantity := Some(1))];
    assert HasId(r, product.id) by {
      assert r[0].id == product.id;
    }
  }

  // ---------------------------------------------------------------------
  // The ledger itself

  class CartLedger {
    var lines: seq<Item>
    const store: KeyValueStore

    /** The provider mounts with an empty cart. */
    constructor (store: KeyValueStore)
      ensures lines == [] && this.store == store
    {
      lines := [];
      this.store := store;
    }

    /** The save effect: after every change the whole cart is saved, and a
        failed write is ignored. */
    method Persist()
      modifies store`cells
      ensures store.cells == CartStorage.SavedCells(old(store.cells), store.writeFails, lines)
    {
      CartStorage.SaveCart(store, lines);
    }

    /** The mount-time seed: the cart becomes what getCart read ([] when the
        key is missing or unreadable), then is saved back. */
    method Seed()
      modifies this, store`cells
      ensures old(CartStorage.GetCart(store)).JsonArray? ==>
        && lines == old(CartStorage.GetCart(store)).items
        && store.cells == CartStorage.SavedCells(old(store.cells), store.writeFails, lines)
      ensures old(CartStorage.GetCart(store)).JsonOther? ==>
        lines == old(lines) && store.cells == old(store.cells)
    {
      var doc := CartStorage.GetCart(store);
      if doc.JsonArray? {
        lines := doc.items;
        Persist();
      }
    }

    /** addItem: increments an existing line or appends a new one; always
        resolves to true. */
    method AddItem(product: Item) returns (ok: bool)
      modifies this, store`cells
      ensures ok
      ensures lines == Added(old(lines), product)
      ensures store.cells == CartStorage.SavedCells(old(store.cells), store.writeFails, lines)
    {
      if HasId(lines, product.id) {
        lines := Bumped(lines, product.id);
      } else {
        lines := lines + [product.(quantity := Some(1))];
      }
      Persist();
      ok := true;
    }

    /** removeItem: drops every line with the id. */
    method RemoveItem(productId: int)
      modifies this, store`cells
      ensures lines == WithoutId(old(lines), productId)
      ensures store.cells == CartStorage.SavedCells(old(store.cells), store.writeFails, lines)
    {
      lines := WithoutId(lines, productId);
      Persist();
    }

    /** setQuantity: a quantity of 0 or less removes the line through
        removeItem; otherwise the matching line takes the quantity. */
    method SetQuantity(productId: int, quantity: int)
      modifies this, store`cells
      ensures lines == QuantitySet(old(lines), productId, quantity)
      ensures store.cells == CartStorage.SavedCells(old(store.cells), store.writeFails, lines)
    {
      if quantity <= 0 {
        RemoveItem(productId);
        return;
      }
      lines := WithQuantity(lines, productId, quantity);
      Persist();
    }

    /** increaseQuantity */
    method IncreaseQuantity(productId: int)
      modifies this, store`cells
      ensures lines == Bumped(old(lines), productId)
      ensures store.cells == CartStorage.SavedCells(old(store.cells), store.writeFails, lines)
    {
      lines := Bumped(lines, productId);
      Persist();
    }

    /** decreaseQuantity */
    method DecreaseQuantity(productId: int)
      modifies this, store`cells
      ensures lines == Decremented(old(lines), productId)
      ensures store.cells == CartStorage.SavedCells(old(store.cells), store.writeFails, lines)
    {
      lines := Decremented(lines, productId);
      Persist();
    }

    /** clearCart */
    method ClearCart()
      modifies this, store`cells
      ensures lines == []
      ensures store.cells == CartStorage.SavedCells(old(store.cells), store.writeFails, [])
    {
      lines := [];
      Persist();
    }

    /** getItemQuantity */
    function GetItemQuantity(productId: int): (r: Option<int>)
      reads this
      ensures WellFormed(lines) ==> (r == Some(0) <==> !IsInCart(productId))
    {
      if WellFormed(lines) then
        QuantityQueries(lines, productId, 0);
        QuantityOf(lines, productId)
      else QuantityOf(lines, productId)
    }

    /** isInCart */
    function IsInCart(productId: int): (r: bool)
      reads this
      ensures r <==> Find(lines, productId).Some?
    {
      HasId(lines, productId)
    }

    /** count */
    function Count(): (r: int)
      reads this
      ensures WellFormed(lines) ==> r >= |lines|
    {
      TotalCount(lines)
    }
  }
}
