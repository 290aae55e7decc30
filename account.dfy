/** The account screen: first-load seeding of Favorites and collections,
    removal from Favorites (by Entities.WithoutId) and the follow toggle on
    followed shops. Its add to cart is CartItems.AddToCartById. */
module Account {
  import opened Wrappers
  import opened Entities
  import opened Sequences
  import opened Storage

  /** The two products seeded into an empty Favorites list. */
  const FixtureFavorites: seq<Product> := [
    Product("1", "nameera", "Bridal Lehenga", 500, "M", "Red"),
    Product("2", "gulnaazkhan", "Blue Anarkali", 300, "S", "Blue")
  ]

  /** The two collections seeded into an empty collections list. */
  const FixtureCollections: seq<Collection> := [
    Collection("Wedding Collection", [Product("1", "nameera", "Bridal Lehenga", 500, "M", "Red")]),
    Collection("Party Wear", [Product("2", "gulnaazkhan", "Blue Anarkali", 300, "S", "Blue")])
  ]

  /** The list shown after loading: the fixture when the stored list is empty,
      the stored list otherwise. */
  function SeedIfEmpty<T>(stored: seq<T>, fixture: seq<T>): seq<T> {
    if |stored| == 0 then fixture else stored
  }

  /** Loading a second time seeds nothing more. */
  lemma SeedingIsStable<T>(stored: seq<T>, fixture: seq<T>)
    requires fixture != []
    ensures SeedIfEmpty(SeedIfEmpty(stored, fixture), fixture) == SeedIfEmpty(stored, fixture)
  {
  }

  /** `loadData`: each of Favorites and collections is seeded with its fixture,
      and the fixture written, only when the stored list is empty. */
  method LoadData(store: Store) returns (favorites: seq<Product>, collections: seq<Collection>)
    modifies store`favorites, store`collections
    ensures favorites == SeedIfEmpty(old(store.favorites), FixtureFavorites)
    ensures collections == SeedIfEmpty(old(store.collections), FixtureCollections)
    ensures store.favorites == favorites && store.collections == collections
  {
    favorites := store.favorites;
    if |favorites| == 0 {
      favorites := FixtureFavorites;
      store.favorites := favorites;
    }
    collections := store.collections;
    if |collections| == 0 {
      collections := FixtureCollections;
      store.collections := collections;
    }
  }

  /** `removeFromFavorites(itemId)`: the loaded Favorites without the items
      with that id are shown and written under 'favorites'. */
  method RemoveFromFavorites(store: Store, itemId: string) returns (favorites: seq<Product>)
    modifies store`favorites
    ensures favorites == WithoutId(old(store.favorites), itemId)
    ensures store.favorites == favorites
  {
    favorites := WithoutId(store.favorites, itemId);
    store.favorites := favorites;
  }

  /** The seeded Favorites hold exactly the ids "1" and "2", once each. */
  lemma FixtureFavoritesShape()
    ensures |FixtureFavorites| == 2 && UniqueIds(FixtureFavorites)
    ensures FixtureFavorites[0].id == "1" && FixtureFavorites[1].id == "2"
  {
  }

  /** A shop in the followed list. */
  datatype Shop = Shop(id: string, name: string, username: string, followers: string)

  datatype FollowedAccount = FollowedAccount(shop: Shop, isFollowing: bool)

  const FollowedShops: seq<Shop> := [
    Shop("1", "Gulnaaz Khan Fashion", "gulnaazkhan", "6.4k"),
    Shop("2", "Nameera by Fareya", "nameera", "143k"),
    Shop("3", "Gulnaaz Khan Fashion", "gulnaazkhan2", "6.4k"),
    Shop("4", "Nameera by Fareya", "nameera2", "143k"),
    Shop("5", "Gulnaaz Khan Fashion", "gulnaazkhan3", "6.4k"),
    Shop("6", "Nameera by Fareya", "nameera3", "143k"),
    Shop("7", "Gulnaaz Khan Fashion", "gulnaazkhan4", "6.4k")
  ]

  /** The initial `following` state: every shop, each marked as followed. */
  function InitialFollowing(shops: seq<Shop>): (r: seq<FollowedAccount>)
    ensures |r| == |shops|
    ensures forall i | 0 <= i < |shops| :: r[i].shop == shops[i] && r[i].isFollowing
  {
    if shops == [] then [] else [FollowedAccount(shops[0], true)] + InitialFollowing(shops[1..])
  }
  /** The screen's `following` state before any toggle. */
  const InitialFollowingState: seq<FollowedAccount> := InitialFollowing(FollowedShops)


  /** `toggleFollow(accountId)`: `isFollowing` flips exactly on the accounts
      with that id. */
  function ToggleFollow(following: seq<FollowedAccount>, accountId: string): (r: seq<FollowedAccount>)
    ensures |r| == |following|
    ensures forall i | 0 <= i < |following| :: r[i].shop == following[i].shop
    ensures forall i | 0 <= i < |following| && following[i].shop.id == accountId ::
      r[i].isFollowing == !following[i].isFollowing
    ensures forall i | 0 <= i < |following| && following[i].shop.id != accountId :: r[i] == following[i]
  {
    if following == [] then []
    else
      var a := following[0];
      [if a.shop.id == accountId then a.(isFollowing := !a.isFollowing) else a]
        + ToggleFollow(following[1..], accountId)
  }

  /** Toggling the same account twice restores the list. */
  lemma ToggleFollowTwice(following: seq<FollowedAccount>, accountId: string)
    ensures ToggleFollow(ToggleFollow(following, accountId), accountId) == following
  {
    var r := ToggleFollow(ToggleFollow(following, accountId), accountId);
    assert forall i | 0 <= i < |following| :: r[i] == following[i];
  }
}
