/** The collection page: add to cart (see CartItems.AddToCartById) and removal
    of an item from the shown collection. */
module CollectionDetails {
  import opened Entities
  import opened Sequences
  import opened Storage

  /** `removeFromCollection(itemId)` on the stored collections: the items with
      that id leave every collection named like the shown one; other
      collections are untouched. */
  function RemoveFromCollection(collections: seq<Collection>, name: string, itemId: string): (r: seq<Collection>)
    ensures |r| == |collections|
    ensures forall i | 0 <= i < |collections| && collections[i].name != name :: r[i] == collections[i]
    ensures forall i | 0 <= i < |collections| && collections[i].name == name ::
      r[i] == collections[i].(items := WithoutId(collections[i].items, itemId))
  {
    if collections == [] then []
    else
      var c := collections[0];
      [if c.name == name then c.(items := WithoutId(c.items, itemId)) else c]
        + RemoveFromCollection(collections[1..], name, itemId)
  }

  /** After removal the targeted collections hold no item with the id and keep
      their other items, in their order. */
  lemma RemovedFromTarget(collections: seq<Collection>, name: string, itemId: string, i: nat)
    requires i < |collections| && collections[i].name == name
    ensures var c := RemoveFromCollection(collections, name, itemId)[i];
      c.name == name && !HasId(c.items, itemId) && IsSubsequence(c.items, collections[i].items)
      && (forall p :: p in c.items <==> p in collections[i].items && p.id != itemId)
      && forall p :: multiset(c.items)[p] == if p.id != itemId then multiset(collections[i].items)[p] else 0
  {
  }

  /** The collection handed to `setParams`, filtered from the shown copy. */
  function ShownAfterRemove(shown: Collection, itemId: string): Collection {
    shown.(items := WithoutId(shown.items, itemId))
  }

  /** When the shown collection equals the stored one, the shown copy after
      removal equals the stored collection after removal. */
  lemma ShownAgreesWithStored(collections: seq<Collection>, shown: Collection, itemId: string, i: nat)
    requires i < |collections| && collections[i] == shown
    ensures RemoveFromCollection(collections, shown.name, itemId)[i] == ShownAfterRemove(shown, itemId)
  {
  }

  /** `removeFromCollection(itemId)` end to end: the stored collections are
      read, the removal is written back under 'collections', and the shown
      collection without the item is returned for `setParams`. */
  method RemoveFromStoredCollection(store: Store, shown: Collection, itemId: string) returns (shownAfter: Collection)
    modifies store`collections
    ensures store.collections == RemoveFromCollection(old(store.collections), shown.name, itemId)
    ensures shownAfter == ShownAfterRemove(shown, itemId)
  {
    var collections := store.collections;
    store.collections := RemoveFromCollection(collections, shown.name, itemId);
    shownAfter := ShownAfterRemove(shown, itemId);
  }
}
