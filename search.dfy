/** The search screen: the filter chain over the catalog, the seller toggle,
    the filter reset and the mock similar-product search. The geographic
    radius test is the parameter `withinRadius`. */
module Search {
  import opened Wrappers
  import opened Text
  import opened Sequences
  import opened Entities

  /** The four catalog posts of the search screen (coordinates are not modelled). */
  const Posts: seq<Product> := [
    Product("1", "nameera", "Bridal Lehenga", 500, "M", "Red"),
    Product("2", "gulnaazkhan", "Blue Anarkali", 300, "S", "Blue"),
    Product("3", "nameera", "Red Bridal Dress", 600, "L", "Red"),
    Product("4", "gulnaazkhan", "White Gown", 400, "XS", "White")
  ]

  datatype Location = Location(latitude: real, longitude: real)

  /** The filter state of the screen. */
  datatype Filters = Filters(query: string, maxPrice: int, size: string, color: string,
                             location: Option<Location>, radius: int, sellers: seq<string>)

  /** "Post lies within `radius` of the location", left abstract. */
  type RadiusTest = (Location, int, Product) -> bool

  // The individual filters of the chain.
  function CaptionIncludes(query: string): Product -> bool {
    (post: Product) => Includes(ToLower(post.caption), ToLower(query))
  }

  function PriceInRange(maxPrice: int): Product -> bool {
    (post: Product) => 1 <= post.price <= maxPrice
  }

  function SizeIs(size: string): Product -> bool {
    (post: Product) => post.size == size
  }

  function ColorIs(color: string): Product -> bool {
    (post: Product) => post.color == color
  }

  function SoldBy(sellers: seq<string>): Product -> bool {
    (post: Product) => post.username in sellers
  }

  function Near(withinRadius: RadiusTest, location: Location, radius: int): Product -> bool {
    (post: Product) => withinRadius(location, radius, post)
  }

  /** `applyFilters`, as the chain of reassignments the screen performs. */
  function ApplyFilters(posts: seq<Product>, f: Filters, withinRadius: RadiusTest): seq<Product> {
    var byCaption := if f.query != "" then Filter(posts, CaptionIncludes(f.query)) else posts;
    var byPrice := Filter(byCaption, PriceInRange(f.maxPrice));
    var bySize := if f.size != "" then Filter(byPrice, SizeIs(f.size)) else byPrice;
    var byColor := if f.color != "" then Filter(bySize, ColorIs(f.color)) else bySize;
    var bySeller := if |f.sellers| > 0 then Filter(byColor, SoldBy(f.sellers)) else byColor;
    if f.location.Some? then Filter(bySeller, Near(withinRadius, f.location.value, f.radius)) else bySeller
  }

  /** A post passes when it meets every active filter; the price filter is
      always active, the others only when set. */
  predicate Passes(f: Filters, withinRadius: RadiusTest, post: Product) {
    && (f.query != "" ==> Includes(ToLower(post.caption), ToLower(f.query)))
    && 1 <= post.price <= f.maxPrice
    && (f.size != "" ==> post.size == f.size)
    && (f.color != "" ==> post.color == f.color)
    && (|f.sellers| > 0 ==> post.username in f.sellers)
    && (f.location.Some? ==> withinRadius(f.location.value, f.radius, post))
  }

  function PassesAll(f: Filters, withinRadius: RadiusTest): Product -> bool {
    (post: Product) => Passes(f, withinRadius, post)
  }

  // The conjunctions of the first k stages of the chain.
  function UpToCaption(f: Filters): Product -> bool {
    (post: Product) => f.query != "" ==> CaptionIncludes(f.query)(post)
  }

  function UpToPrice(f: Filters): Product -> bool {
    (post: Product) => UpToCaption(f)(post) && PriceInRange(f.maxPrice)(post)
  }

  function UpToSize(f: Filters): Product -> bool {
    (post: Product) => UpToPrice(f)(post) && (f.size != "" ==> SizeIs(f.size)(post))
  }

  function UpToColor(f: Filters): Product -> bool {
    (post: Product) => UpToSize(f)(post) && (f.color != "" ==> ColorIs(f.color)(post))
  }

  function UpToSeller(f: Filters): Product -> bool {
    (post: Product) => UpToColor(f)(post) && (|f.sellers| > 0 ==> SoldBy(f.sellers)(post))
  }

  /** The first three stages of the chain filter by their conjunction. */
  lemma FirstStages(posts: seq<Product>, f: Filters)
    ensures Filter(if f.query != "" then Filter(posts, CaptionIncludes(f.query)) else posts, PriceInRange(f.maxPrice))
         == Filter(posts, UpToPrice(f))
  {
    var all := (post: Product) => true;
    FilterKeepsAll(posts, all);
    FilterStage(posts, all, CaptionIncludes(f.query), f.query != "", UpToCaption(f));
    FilterStage(posts, UpToCaption(f), PriceInRange(f.maxPrice), true, UpToPrice(f));
  }

  /** The remaining stages, applied to the posts that passed the first ones. */
  lemma LaterStages(posts: seq<Product>, f: Filters, withinRadius: RadiusTest)
    ensures var byPrice := Filter(posts, UpToPrice(f));
      var bySize := if f.size != "" then Filter(byPrice, SizeIs(f.size)) else byPrice;
      var byColor := if f.color != "" then Filter(bySize, ColorIs(f.color)) else bySize;
      var bySeller := if |f.sellers| > 0 then Filter(byColor, SoldBy(f.sellers)) else byColor;
      (if f.location.Some? then Filter(bySeller, Near(withinRadius, f.location.value, f.radius)) else bySeller)
      == Filter(posts, PassesAll(f, withinRadius))
  {
    var loc := if f.location.Some? then f.location.value else Location(0.0, 0.0);
    FilterStage(posts, UpToPrice(f), SizeIs(f.size), f.size != "", UpToSize(f));
    FilterStage(posts, UpToSize(f), ColorIs(f.color), f.color != "", UpToColor(f));
    FilterStage(posts, UpToColor(f), SoldBy(f.sellers), |f.sellers| > 0, UpToSeller(f));
    forall post: Product
      ensures PassesAll(f, withinRadius)(post)
           == (UpToSeller(f)(post) && (f.location.Some? ==> Near(withinRadius, loc, f.radius)(post)))
    {
      assert CaptionIncludes(f.query)(post) == Includes(ToLower(post.caption), ToLower(f.query));
      assert UpToCaption(f)(post) == (f.query != "" ==> CaptionIncludes(f.query)(post));
      assert UpToSeller(f)(post) == (UpToCaption(f)(post) && PriceInRange(f.maxPrice)(post)
        && (f.size != "" ==> post.size == f.size) && (f.color != "" ==> post.color == f.color)
        && (|f.sellers| > 0 ==> post.username in f.sellers));
    }
    FilterStage(posts, UpToSeller(f), Near(withinRadius, loc, f.radius), f.location.Some?, PassesAll(f, withinRadius));
  }

  /** The chain is one filter by the conjunction of the active predicates: the
      result is the catalog's passing posts, in catalog order. */
  lemma ApplyFiltersIsConjunction(posts: seq<Product>, f: Filters, withinRadius: RadiusTest)
    ensures ApplyFilters(posts, f, withinRadius) == Filter(posts, PassesAll(f, withinRadius))
    ensures IsSubsequence(ApplyFilters(posts, f, withinRadius), posts)
    ensures forall post :: post in ApplyFilters(posts, f, withinRadius) <==> post in posts && Passes(f, withinRadius, post)
  {
    FirstStages(posts, f);
    LaterStages(posts, f, withinRadius);
    FilterIsSubsequence(posts, PassesAll(f, withinRadius));
  }

  /** `toggleSeller(username)`: removed when present, appended otherwise. */
  function ToggleSeller(sellers: seq<string>, username: string): (r: seq<string>)
    ensures username in r <==> username !in sellers
    ensures forall u | u != username :: u in r <==> u in sellers
    ensures NoDuplicates(sellers) ==> NoDuplicates(r)
  {
    if username in sellers then
      FilterKeepsDistinct(sellers, Other(username));
      Filter(sellers, Other(username))
    else
      assert NoDuplicates(sellers) ==> NoDuplicates(sellers + [username]) by {
        var r := sellers + [username];
        assert forall i | 0 <= i < |sellers| :: r[i] == sellers[i];
      }
      sellers + [username]
  }

  function Other(username: string): string -> bool {
    (u: string) => u != username
  }

  /** Toggling twice restores which sellers are selected, and restores the
      list itself when the seller was not selected. */
  lemma ToggleSellerTwice(sellers: seq<string>, username: string)
    ensures forall u :: u in ToggleSeller(ToggleSeller(sellers, username), username) <==> u in sellers
    ensures username !in sellers ==> ToggleSeller(ToggleSeller(sellers, username), username) == sellers
  {
    if username !in sellers {
      FilterAppend(sellers, [username], Other(username));
      FilterKeepsAll(sellers, Other(username));
      assert Filter([username], Other(username)) == [];
    }
  }

  /** The screen's state: the filters and the posts shown. */
  datatype SearchState = SearchState(filters: Filters, results: seq<Product>)

  /** `resetFilters`: maximum price 1000, radius 50, no size, colour, sellers or
      location, and the whole catalog shown; the search text is kept. */
  function ResetFilters(s: SearchState, posts: seq<Product>): (r: SearchState)
    ensures r.filters.maxPrice == 1000 && r.filters.radius == 50
    ensures r.filters.size == "" && r.filters.color == "" && r.filters.sellers == [] && r.filters.location == None
    ensures r.filters.query == s.filters.query
    ensures r.results == posts
  {
    SearchState(Filters(s.filters.query, 1000, "", "", None, 50, []), posts)
  }

  /** After a reset with no search text, applying the filters shows the same
      posts as the reset, provided every price lies in 1..1000. */
  lemma ResetAgreesWithApply(s: SearchState, posts: seq<Product>, withinRadius: RadiusTest)
    requires s.filters.query == ""
    requires forall i | 0 <= i < |posts| :: 1 <= posts[i].price <= 1000
    ensures var r := ResetFilters(s, posts); ApplyFilters(posts, r.filters, withinRadius) == r.results
  {
    var r := ResetFilters(s, posts);
    ApplyFiltersIsConjunction(posts, r.filters, withinRadius);
    FilterKeepsAll(posts, PassesAll(r.filters, withinRadius));
  }

  /** The catalog's prices all lie within the reset price range. */
  lemma CatalogWithinResetRange()
    ensures forall i | 0 <= i < |Posts| :: 1 <= Posts[i].price <= 1000
  {
  }

  /** The mock recognition result of `searchSimilarProducts`: red dresses. */
  predicate SimilarToRedDress(post: Product) {
    ToLower(post.color) == ToLower("Red") && Includes(ToLower(post.caption), ToLower("Dress"))
  }

  /** `searchSimilarProducts`: the posts shown become the catalog posts whose
      colour is "red" and whose caption includes "dress", both ignoring case,
      in catalog order, each kept as often as in the catalog; the search text
      becomes "Similar to Red Dress" and the other filters are kept. */
  function SearchSimilarProducts(s: SearchState, posts: seq<Product>): (r: SearchState)
    ensures r.filters == s.filters.(query := "Similar to Red Dress")
    ensures IsSubsequence(r.results, posts)
    ensures forall post :: post in r.results <==> post in posts && SimilarToRedDress(post)
    ensures forall post :: multiset(r.results)[post] == if SimilarToRedDress(post) then multiset(posts)[post] else 0
  {
    FilterIsSubsequence(posts, SimilarToRedDress);
    FilterCounts(posts, SimilarToRedDress);
    SearchState(s.filters.(query := "Similar to Red Dress"), Filter(posts, SimilarToRedDress))
  }
}
