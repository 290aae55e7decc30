/** The records the screens keep under the store's keys: catalog products and
    their snapshots, cart lines, named collections, reviews and the user
    credential record. Prices are whole currency amounts. */
module Entities {
  import opened Wrappers
  import opened Sequences

  /** A catalog product, or a snapshot of one copied into favorites,
      collections or the cart. */
  datatype Product = Product(id: string, username: string, caption: string, price: int, size: string, color: string)

  /** A stored cart line: the product snapshot (whose `size` is the chosen size
      when the line was added from the product page) and its quantity, which a
      line written by another revision of the app may lack. */
  datatype CartLine = CartLine(item: Product, quantity: Option<int>)

  /** A user-created named collection of product snapshots. */
  datatype Collection = Collection(name: string, items: seq<Product>)

  /** A product review; its time-based id and date are not modelled. */
  datatype Review = Review(reviewerName: string, rating: int, text: string)

  /** The single credential record written by sign-up. */
  datatype User = User(name: string, email: string, password: string, address: string, gender: string)

  /** Some entry of `items` has this id (`items.find(i => i.id === id)` succeeds). */
  predicate HasId(items: seq<Product>, id: string) {
    exists i | 0 <= i < |items| :: items[i].id == id
  }

  /** No two entries share an id. */
  ghost predicate UniqueIds(items: seq<Product>) {
    forall i, j | 0 <= i < j < |items| :: items[i].id != items[j].id
  }

  /** The de-duplicated append of favorites and collections: the product goes at
      the end unless an entry with its id is already there. */
  function AppendIfAbsent(items: seq<Product>, p: Product): seq<Product> {
    if HasId(items, p.id) then items else items + [p]
  }

  /** The de-duplicated append keeps ids unique and always leaves the product's id present. */
  lemma AppendIfAbsentKeepsIdsUnique(items: seq<Product>, p: Product)
    requires UniqueIds(items)
    ensures UniqueIds(AppendIfAbsent(items, p))
    ensures HasId(AppendIfAbsent(items, p), p.id)
  {
    if !HasId(items, p.id) {
      var r := items + [p];
      assert r[|items|].id == p.id;
      forall i, j | 0 <= i < j < |r| ensures r[i].id != r[j].id {
        if j == |items| {
          assert r[i] == items[i];
        }
      }
    }
  }

  /** Saving the same product a second time changes nothing. */
  lemma AppendIfAbsentIdempotent(items: seq<Product>, p: Product)
    ensures AppendIfAbsent(AppendIfAbsent(items, p), p) == AppendIfAbsent(items, p)
  {
    if !HasId(items, p.id) {
      assert (items + [p])[|items|].id == p.id;
    }
  }

  /** `items.filter(item => item.id !== id)`: the account screen's removal from
      Favorites, and the per-collection step of the collection page's removal. */
  function WithoutId(items: seq<Product>, id: string): (r: seq<Product>)
    ensures !HasId(r, id)
    ensures forall p :: p in r <==> p in items && p.id != id
    ensures IsSubsequence(r, items)
    ensures forall p :: multiset(r)[p] == if p.id != id then multiset(items)[p] else 0
  {
    if items == [] then []
    else
      assert items == [items[0]] + items[1..];
      if items[0].id != id then [items[0]] + WithoutId(items[1..], id) else WithoutId(items[1..], id)
  }
}
