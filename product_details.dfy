/** The product page: add to cart in a chosen size, save to Favorites, save to
    an existing named collection, create a collection holding the product, and
    submit a review. */
module ProductDetails {
  import opened Wrappers
  import opened Text
  import opened Entities
  import opened Storage
  import opened CartItems

  /** `addToCart`: without a selected size (`null` or empty) nothing is done and
      the stored cart is untouched; otherwise the line with the product's id
      and that size is incremented, or a line in that size is pushed. */
  method AddToCart(store: Store, product: Product, selectedSize: Option<string>) returns (added: bool)
    modifies store`cartItems
    ensures added <==> selectedSize.Some? && selectedSize.value != ""
    ensures !added ==> store.cartItems == old(store.cartItems)
    ensures added ==> store.cartItems == AddBySize(old(store.cartItems), product, selectedSize.value)
  {
    if selectedSize.None? || selectedSize.value == "" {
      return false;
    }
    AddToStoredCart(store, ByIdAndSize(product.id, selectedSize.value),
                    CartLine(product.(size := selectedSize.value), Some(1)));
    added := true;
  }

  /** `favorites.find(favItem => favItem.id === id)`, as a linear scan. */
  method IndexOfId(items: seq<Product>, id: string) returns (i: nat)
    ensures i <= |items|
    ensures i < |items| ==> items[i].id == id
    ensures i == |items| <==> !HasId(items, id)
  {
    i := 0;
    while i < |items| && items[i].id != id
      invariant i <= |items|
      invariant forall j | 0 <= j < i :: items[j].id != id
    {
      i := i + 1;
    }
  }

  /** `saveToFavorites`: when the product's id is already in Favorites it
      returns before writing; otherwise it pushes the product and writes the
      list back. */
  method SaveToFavorites(store: Store, product: Product) returns (saved: bool)
    modifies store`favorites
    ensures saved <==> !HasId(old(store.favorites), product.id)
    ensures !saved ==> store.favorites == old(store.favorites)
    ensures store.favorites == AppendIfAbsent(old(store.favorites), product)
  {
    var favorites := store.favorites;
    var i := IndexOfId(favorites, product.id);
    if i < |favorites| {
      return false;
    }
    favorites := favorites + [product];
    store.favorites := favorites;
    saved := true;
  }

  /** `saveToCollection(name)`: every collection called `name` gets the product
      appended unless it already holds its id; all others are unchanged. */
  function SaveToCollection(collections: seq<Collection>, name: string, p: Product): (r: seq<Collection>)
    ensures |r| == |collections|
    ensures forall i | 0 <= i < |collections| :: r[i].name == collections[i].name
    ensures forall i | 0 <= i < |collections| && collections[i].name != name :: r[i] == collections[i]
    ensures forall i | 0 <= i < |collections| && collections[i].name == name ::
      r[i].items == AppendIfAbsent(collections[i].items, p)
  {
    if collections == [] then []
    else
      var c := collections[0];
      [if c.name == name then c.(items := AppendIfAbsent(c.items, p)) else c]
        + SaveToCollection(collections[1..], name, p)
  }

  /** A name no collection has leaves the collections as they were. */
  lemma SaveToUnknownCollection(collections: seq<Collection>, name: string, p: Product)
    requires forall i | 0 <= i < |collections| :: collections[i].name != name
    ensures SaveToCollection(collections, name, p) == collections
  {
  }

  /** Saving keeps each collection free of duplicate ids, and afterwards every
      collection with that name holds the product's id. */
  lemma SaveToCollectionKeepsIdsUnique(collections: seq<Collection>, name: string, p: Product)
    requires forall i | 0 <= i < |collections| :: UniqueIds(collections[i].items)
    ensures var r := SaveToCollection(collections, name, p);
      forall i | 0 <= i < |r| :: UniqueIds(r[i].items) && (r[i].name == name ==> HasId(r[i].items, p.id))
  {
    var r := SaveToCollection(collections, name, p);
    forall i | 0 <= i < |r| ensures UniqueIds(r[i].items) && (r[i].name == name ==> HasId(r[i].items, p.id)) {
      if collections[i].name == name {
        AppendIfAbsentKeepsIdsUnique(collections[i].items, p);
      }
    }
  }

  /** `saveToCollection(collectionName)` on the store: the result is written
      under 'collections'. */
  method SaveToStoredCollection(store: Store, name: string, p: Product)
    modifies store`collections
    ensures store.collections == SaveToCollection(old(store.collections), name, p)
  {
    store.collections := SaveToCollection(store.collections, name, p);
  }

  datatype CollectionError = BlankCollectionName

  /** `createAndSaveToCollection`: a blank name is refused; otherwise a new
      collection holding only the product is appended, whatever names exist. */
  function CreateAndSaveToCollection(collections: seq<Collection>, name: string, p: Product)
    : (r: Result<seq<Collection>, CollectionError>)
    ensures r.Err? <==> IsBlank(name)
    ensures r.Ok? ==> |r.value| == |collections| + 1 && r.value[..|collections|] == collections
    ensures r.Ok? ==> r.value[|collections|] == Collection(name, [p])
  {
    BlankIffTrimmedEmpty(name);
    if Trim(name) == "" then Err(BlankCollectionName)
    else Ok(collections + [Collection(name, [p])])
  }

  /** `createAndSaveToCollection` on the store: a refusal writes nothing; an
      accepted list is written under 'collections'. */
  method CreateAndSaveToStoredCollection(store: Store, name: string, p: Product)
    returns (r: Result<seq<Collection>, CollectionError>)
    modifies store`collections
    ensures r == CreateAndSaveToCollection(old(store.collections), name, p)
    ensures r.Err? ==> store.collections == old(store.collections)
    ensures r.Ok? ==> store.collections == r.value
  {
    r := CreateAndSaveToCollection(store.collections, name, p);
    if r.Ok? {
      store.collections := r.value;
    }
  }

  datatype ReviewError = NoRating | NoReviewText

  /** `submitReview`: a zero rating is refused first, then blank text;
      otherwise the review by "Customer" is appended to the product's list. */
  function SubmitReview(reviews: seq<Review>, rating: int, text: string): (r: Result<seq<Review>, ReviewError>)
    ensures r == Err(NoRating) <==> rating == 0
    ensures r == Err(NoReviewText) <==> rating != 0 && IsBlank(text)
    ensures r.Ok? ==> |r.value| == |reviews| + 1 && r.value[..|reviews|] == reviews
    ensures r.Ok? ==> r.value[|reviews|] == Review("Customer", rating, text)
  {
    BlankIffTrimmedEmpty(text);
    if rating == 0 then Err(NoRating)
    else if Trim(text) == "" then Err(NoReviewText)
    else Ok(reviews + [Review("Customer", rating, text)])
  }

  /** The review list written under the product's key: unchanged on refusal. */
  method SubmitReviewToStore(store: Store, productId: string, rating: int, text: string)
    returns (r: Result<seq<Review>, ReviewError>)
    modifies store`reviews
    ensures r == SubmitReview(old(store.ReviewsOf(productId)), rating, text)
    ensures r.Err? ==> store.reviews == old(store.reviews)
    ensures r.Ok? ==> store.reviews == old(store.reviews)[productId := r.value]
  {
    r := SubmitReview(store.ReviewsOf(productId), rating, text);
    if r.Ok? {
      store.reviews := store.reviews[productId := r.value];
    }
  }
}
