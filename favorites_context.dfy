/** The favorites state: the in-memory list the screens render. It is seeded
    from storage and replaced by whatever storage's toggle returns. */
module FavoritesContext {
  import opened Wrappers
  import opened Items
  import opened Storage
  import FavoritesStorage

  class FavoritesState {
    var favorites: seq<Item>
    const store: KeyValueStore

    /** The provider mounts with no favorites. */
    constructor (store: KeyValueStore)
      ensures favorites == [] && this.store == store
    {
      favorites := [];
      this.store := store;
    }

    /** The mount-time seed: the state becomes the stored list. A rejected
        read leaves the state as it was (the rejection is unhandled). */
    method Seed()
      modifies this
      ensures var read := old(FavoritesStorage.GetFavorites(store));
        favorites == if read.Ok? && read.value.JsonArray? then read.value.items else old(favorites)
    {
      var read := FavoritesStorage.GetFavorites(store);
      if read.Ok? && read.value.JsonArray? {
        favorites := read.value.items;
      }
    }

    /** toggleFavorite: the state becomes exactly what storage's toggle
        returned, and that list is returned; a rejection propagates and
        leaves the state alone. */
    method ToggleFavorite(product: Item) returns (r: Result<seq<Item>, Failure>)
      modifies this, store`cells
      ensures r.Ok? ==> favorites == r.value
      ensures r.Err? ==> favorites == old(favorites)
      ensures var read := old(FavoritesStorage.GetFavorites(store));
        read.Ok? && read.value.JsonArray? && !store.writeFails ==>
          && r == Ok(FavoritesStorage.Toggled(read.value.items, product))
          && store.cells == Written(old(store.cells), false, FavoritesStorage.FavoritesKey, Stringify(r.value))
      ensures var read := old(FavoritesStorage.GetFavorites(store));
        !(read.Ok? && read.value.JsonArray?) || store.writeFails ==> r.Err?
      ensures r.Err? ==> store.cells == old(store.cells)
      ensures old(favorites) == old(StoredFavorites()) && !store.readFails && r.Ok? ==>
        favorites == FavoritesStorage.Toggled(old(favorites), product) && favorites == StoredFavorites()
      ensures old(favorites) == old(StoredFavorites()) && !store.readFails && r.Ok? ==>
        (IsFavorite(product.id) <==> !old(IsFavorite(product.id)))
      ensures old(favorites) == old(StoredFavorites()) && UniqueIds(old(favorites)) && !store.readFails && r.Ok? ==>
        UniqueIds(favorites) && Count() == if old(IsFavorite(product.id)) then old(Count()) - 1 else old(Count()) + 1
    {
      r := FavoritesStorage.ToggleFavorite(store, product);
      if r.Ok? {
        FavoritesStorage.ToggledFlips(favorites, product);
        if UniqueIds(favorites) {
          FavoritesStorage.ToggledKeepsUnique(favorites, product);
        }
        favorites := r.value;
      }
    }

    /** The list storage holds now, as getFavorites would read it. */
    function StoredFavorites(): seq<Item>
      reads this, store
    {
      var read := FavoritesStorage.GetFavorites(store);
      if read.Ok? && read.value.JsonArray? then read.value.items else []
    }

    /** isFavorite */
    function IsFavorite(id: int): bool
      reads this
    {
      HasId(favorites, id)
    }

    /** count */
    function Count(): nat
      reads this
    {
      |favorites|
    }
  }
}
