/** Cart persistence: the cart lines kept as one JSON array under a fixed key.
    Every failure is caught here and never reaches the caller. */
module CartStorage {
  import opened Wrappers
  import opened Items
  import opened Storage

  const CartKey: string := "cart_items_v1"

  /** getCart over the store contents: the parsed document, or [] when the key
      is missing or empty, or reading or parsing fails. */
  function ReadCart(cells: Cells, readFails: bool): (r: Json)
    ensures r == JsonArray([]) || (!readFails && CartKey in cells && cells[CartKey] == Document(r))
    ensures readFails || CartKey !in cells ==> r == JsonArray([])
    ensures CartKey in cells && cells[CartKey].Text? ==> r == JsonArray([])
    ensures !readFails && CartKey in cells && cells[CartKey].Document? ==> cells[CartKey] == Document(r)
  {
    match Read(cells, readFails, CartKey)
    case Err(_) => JsonArray([])
    case Ok(None) => JsonArray([])
    case Ok(Some(raw)) =>
      if !Truthy(raw) then JsonArray([])
      else match Parse(raw)
        case None => JsonArray([])
        case Some(doc) => doc
  }

  /** getCart on the device store: a failed read gives [], a stored document
      is returned as it is. */
  function GetCart(store: KeyValueStore): (r: Json)
    reads store
    ensures store.readFails ==> r == JsonArray([])
    ensures !store.readFails && CartKey in store.cells && store.cells[CartKey].Document? ==>
      store.cells[CartKey] == Document(r)
  {
    ReadCart(store.cells, store.readFails)
  }

  /** What saveCart writes is what getCart reads back next. */
  lemma SaveThenGet(cells: Cells, items: seq<Item>)
    ensures ReadCart(Written(cells, false, CartKey, Stringify(items)), false) == JsonArray(items)
  {
  }

  /** The store contents after saveCart(items). */
  function SavedCells(cells: Cells, writeFails: bool, items: seq<Item>): Cells
  {
    Written(cells, writeFails, CartKey, Stringify(items))
  }

  /** saveCart: writes the list; a failed write is swallowed. */
  method SaveCart(store: KeyValueStore, items: seq<Item>)
    modifies store`cells
    ensures store.cells == SavedCells(old(store.cells), store.writeFails, items)
  {
    var _ := store.SetItem(CartKey, Stringify(items));
  }

  /** The list edit of addToCart: a product already stored by id leaves the
      list as it is; otherwise it is appended with quantity 1. */
  function CartAdd(items: seq<Item>, product: Item): (r: seq<Item>)
    ensures HasId(r, product.id)
    ensures |r| == if HasId(items, product.id) then |items| else |items| + 1
    ensures r[..|items|] == items
  {
    if HasId(items, product.id) then items
    else
      var r := items + [product.(quantity := Some(1))];
      assert r[|items|].id == product.id;
      r
  }

  /** Adding is idempotent, and never duplicates an id. */
  lemma CartAddIdempotent(items: seq<Item>, product: Item)
    ensures HasId(CartAdd(items, product), product.id)
    ensures CartAdd(CartAdd(items, product), product) == CartAdd(items, product)
    ensures UniqueIds(items) ==> UniqueIds(CartAdd(items, product))
  {
    var r := CartAdd(items, product);
    if !HasId(items, product.id) {
      assert r[|items|].id == product.id;
    }
  }

  /** addToCart: a no-op (nothing written) when the id is already stored;
      otherwise appends, saves and returns the new list. A stored document
      that is not an array makes `find` throw, and the catch returns []. */
  method AddToCart(store: KeyValueStore, product: Item) returns (r: seq<Item>)
    modifies store`cells
    ensures old(GetCart(store)).JsonOther? ==> r == [] && store.cells == old(store.cells)
    ensures old(GetCart(store)).JsonArray? ==>
      var items := old(GetCart(store)).items;
      && r == CartAdd(items, product)
      && store.cells == if HasId(items, product.id) then old(store.cells)
                        else Written(old(store.cells), store.writeFails, CartKey, Stringify(r))
  {
    var doc := GetCart(store);
    match doc
    case JsonOther =>
      r := [];
    case JsonArray(items) =>
      if HasId(items, product.id) {
        r := items;
      } else {
        r := items + [product.(quantity := Some(1))];
        SaveCart(store, r);
      }
  }

  /** removeFromCart: drops every line with the id, saves and returns the
      result; a non-array document makes `filter` throw and the catch
      returns []. */
  method RemoveFromCart(store: KeyValueStore, productId: int) returns (r: seq<Item>)
    modifies store`cells
    ensures old(GetCart(store)).JsonOther? ==> r == [] && store.cells == old(store.cells)
    ensures old(GetCart(store)).JsonArray? ==>
      && r == WithoutId(old(GetCart(store)).items, productId)
      && store.cells == Written(old(store.cells), store.writeFails, CartKey, Stringify(r))
  {
    var doc := GetCart(store);
    match doc
    case JsonOther =>
      r := [];
    case JsonArray(items) =>
      r := WithoutId(items, productId);
      SaveCart(store, r);
  }

  /** isInCart: whether a stored line has the id. It has no catch of its own,
      so a non-array document rejects. */
  function IsInCart(store: KeyValueStore, productId: int): (r: Result<bool, Failure>)
    reads store
    ensures GetCart(store).JsonArray? ==> r == Ok(HasId(GetCart(store).items, productId))
    ensures GetCart(store).JsonOther? ==> r == Err(NotAnArray)
  {
    match GetCart(store)
    case JsonOther => Err(NotAnArray)
    case JsonArray(items) => Ok(exists i :: 0 <= i < |items| && items[i].id == productId)
  }

  /** clearCart: stores the empty list. */
  method ClearCart(store: KeyValueStore)
    modifies store`cells
    ensures store.cells == Written(old(store.cells), store.writeFails, CartKey, Stringify([]))
    ensures !store.writeFails && !store.readFails ==> GetCart(store) == JsonArray([])
  {
    SaveCart(store, []);
  }
}
