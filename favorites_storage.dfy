/** Favorites persistence: the favorite products kept as one JSON array under
    a fixed key. Unlike the cart store, nothing here catches: a failed read,
    parse or write rejects to the caller. */
module FavoritesStorage {
  import opened Wrappers
  import opened Items
  import opened Storage

  const FavoritesKey: string := "FAVORITES"

  /** getFavorites over the store contents: [] for a missing or empty value,
      else the parsed document; read and parse errors propagate. */
  function ReadFavorites(cells: Cells, readFails: bool): (r: Result<Json, Failure>)
    ensures r.Err? <==> readFails || (FavoritesKey in cells && cells[FavoritesKey].Text? && cells[FavoritesKey] != Text(""))
    ensures r.Ok? ==> r.value == JsonArray([]) || (FavoritesKey in cells && cells[FavoritesKey] == Document(r.value))
    ensures !readFails && FavoritesKey in cells && cells[FavoritesKey].Document? ==>
      r.Ok? && cells[FavoritesKey] == Document(r.value)
  {
    match Read(cells, readFails, FavoritesKey)
    case Err(e) => Err(e)
    case Ok(None) => Ok(JsonArray([]))
    case Ok(Some(data)) =>
      if !Truthy(data) then Ok(JsonArray([]))
      else match Parse(data)
        case None => Err(ParseFailed)
        case Some(doc) => Ok(doc)
  }

  /** getFavorites on the device store: a failed read rejects, a stored
      document is returned as it is. */
  function GetFavorites(store: KeyValueStore): (r: Result<Json, Failure>)
    reads store
    ensures store.readFails ==> r == Err(ReadFailed)
    ensures !store.readFails && FavoritesKey in store.cells && store.cells[FavoritesKey].Document? ==>
      r.Ok? && store.cells[FavoritesKey] == Document(r.value)
  {
    ReadFavorites(store.cells, store.readFails)
  }

  /** The list edit of toggleFavorite: a product present by id is removed
      (every entry with that id), an absent one is appended. */
  function Toggled(favorites: seq<Item>, product: Item): (r: seq<Item>)
    ensures |r| <= |favorites| + 1
    ensures forall x :: x in favorites && x.id != product.id ==> x in r
  {
    if HasId(favorites, product.id) then WithoutId(favorites, product.id)
    else favorites + [product]
  }

  /** Toggling flips membership of the id; an absent product is appended at
      the end, a present one leaves the other entries in order. */
  lemma ToggledFlips(favorites: seq<Item>, product: Item)
    ensures HasId(Toggled(favorites, product), product.id) <==> !HasId(favorites, product.id)
    ensures !HasId(favorites, product.id) ==> Toggled(favorites, product) == favorites + [product]
    ensures HasId(favorites, product.id) ==>
      forall x :: x in Toggled(favorites, product) <==> x in favorites && x.id != product.id
  {
    var r := Toggled(favorites, product);
    if HasId(favorites, product.id) {
      WithoutIdDrops(favorites, product.id);
    } else {
      assert r[|favorites|].id == product.id;
    }
  }

  /** With ids unique, toggling keeps them unique and changes the length by
      exactly one. */
  lemma ToggledKeepsUnique(favorites: seq<Item>, product: Item)
    requires UniqueIds(favorites)
    ensures UniqueIds(Toggled(favorites, product))
    ensures |Toggled(favorites, product)| ==
      if HasId(favorites, product.id) then |favorites| - 1 else |favorites| + 1
  {
    if HasId(favorites, product.id) {
      WithoutIdUnique(favorites, product.id);
      var k := IndexOf(favorites, product.id);
      RemoveUniqueAt(favorites, k);
    }
  }

  /** Two toggles from absent restore the list exactly; from present (ids
      unique) the product ends up last instead of where it was. */
  lemma ToggleTwice(favorites: seq<Item>, product: Item)
    ensures !HasId(favorites, product.id) ==> Toggled(Toggled(favorites, product), product) == favorites
    ensures HasId(favorites, product.id) ==>
      Toggled(Toggled(favorites, product), product) == WithoutId(favorites, product.id) + [product]
  {
    var once := favorites + [product];
    if !HasId(favorites, product.id) {
      assert once[|favorites|].id == product.id;
      assert WithoutId(once, product.id) == WithoutId(favorites, product.id) + WithoutId([product], product.id) by {
        WithoutIdAppend(favorites, [product], product.id);
      }
      WithoutAbsentId(favorites, product.id);
    } else {
      WithoutIdDrops(favorites, product.id);
    }
  }

  /** Filtering distributes over concatenation. */
  lemma {:induction false} WithoutIdAppend(a: seq<Item>, b: seq<Item>, id: int)
    ensures WithoutId(a + b, id) == WithoutId(a, id) + WithoutId(b, id)
  {
    if a != [] {
      WithoutIdAppend(a[1..], b, id);
      assert (a + b)[1..] == a[1..] + b;
    } else {
      assert a + b == b;
    }
  }

  /** toggleFavorite: reads the stored list, toggles the product, writes the
      whole list back and returns it. Read, parse and write failures reject,
      and so does a stored document that is not an array (`find` throws). */
  method ToggleFavorite(store: KeyValueStore, product: Item) returns (r: Result<seq<Item>, Failure>)
    modifies store`cells
    ensures old(GetFavorites(store)).Err? ==> r == Err(old(GetFavorites(store)).error) && store.cells == old(store.cells)
    ensures old(GetFavorites(store)) == Ok(JsonOther) ==> r == Err(NotAnArray) && store.cells == old(store.cells)
    ensures old(GetFavorites(store)).Ok? && old(GetFavorites(store)).value.JsonArray? ==>
      var updated := Toggled(old(GetFavorites(store)).value.items, product);
      && store.cells == Written(old(store.cells), store.writeFails, FavoritesKey, Stringify(updated))
      && r == if store.writeFails then Err(WriteFailed) else Ok(updated)
  {
    var read := GetFavorites(store);
    match read
    case Err(e) =>
      r := Err(e);
    case Ok(JsonOther) =>
      r := Err(NotAnArray);
    case Ok(JsonArray(favorites)) =>
      var updated := Toggled(favorites, product);
      var ok := store.SetItem(FavoritesKey, Stringify(updated));
      r := if ok then Ok(updated) else Err(WriteFailed);
  }

  /** What toggleFavorite writes is what getFavorites reads next. */
  lemma ToggleThenGet(cells: Cells, updated: seq<Item>)
    ensures ReadFavorites(Written(cells, false, FavoritesKey, Stringify(updated)), false) == Ok(JsonArray(updated))
  {
  }
}
