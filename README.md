# Sharaya shopping prototype: verified model of the list and record logic

Sharaya is a React Native shopping prototype. Almost all of it is screens. Under
the screens there is a small layer of list and record logic, and that layer is
the model here:

- the stored cart's add operation, keyed on (id, size) on the product page and on
  id alone on the account and collection pages;
- Favorites and named collections: de-duplicated appends, creation and removal
  by id;
- the cart screen's selection toggle, totals and checkout guard;
- the search screen's filter chain, seller toggle, reset and mock image search;
- the checkout screen's final total, address update and order validation;
- the home feed's post-to-collection map;
- log-in and sign-up.

The device key-value store is the class `Storage.Store`. It has one field per
key (`cartItems`, `favorites`, `collections`, `reviews_<id>`, `user`). A key that
was never written reads as the empty value, as `value ? JSON.parse(value) : []`
does. Code that loads a list, changes it in place and writes it back is a method
that modifies exactly one field of the store. Each such method's postcondition
ties the new field to a pure function of the old one. The linear `find` scans are
`while` loops (`CartItems.FindLine`, `ProductDetails.IndexOfId`). The screens
that only compute a new value (`map`, `filter`, spread) are functions. Lemmas
state the invariants, inverses and reference definitions about those functions.

Modules: `Wrappers` (Option, Result), `Text` (`trim`, `toLowerCase`,
`includes`), `Sequences` (`filter`, subsequence), `Entities` (stored records),
`Storage`, `CartItems`, and one module per screen: `ProductDetails`, `Account`,
`CollectionDetails`, `Cart`, `Search`, `Checkout`, `Home`, `LogIn`, `SignUp`.

Collections are created without a name check (screens/ProductDetails.js:172,
screens/Home.js:120), so two collections may share a name, and no modelled
screen decrements a quantity.

The functions that compute a new Favorites or collections list are what the
screens write under that key; the methods `Account.RemoveFromFavorites`,
`CollectionDetails.RemoveFromStoredCollection`,
`ProductDetails.SaveToStoredCollection` and
`ProductDetails.CreateAndSaveToStoredCollection` perform those writes on the
store.

## Model

| member | source | states |
|---|---|---|
| `ProductDetails.AddToCart` | screens/ProductDetails.js:91-117 | with no size selected (null or empty) nothing is added and the stored cart is unchanged; otherwise the stored cart becomes the (id, size)-keyed merge of the old cart |
| `CartItems.FirstMatch` | screens/ProductDetails.js:101-103 | the index `find` stops at: a matching line with no match before it, or the cart length when no line matches |
| `CartItems.FindLine` | screens/Account.js:126 | the linear scan returns the first matching index, or the cart length when none matches |
| `CartItems.AddToStoredCart` | screens/ProductDetails.js:98-110 | the cart written back is the old cart with the first matching line incremented, or with the new line pushed |
| `CartItems.AddLineToMatch` | screens/ProductDetails.js:104-105 | when a line matches, the cart length is unchanged, the first matching line keeps its product, its quantity becomes (quantity, or 1 when missing or 0) + 1, and every other line is unchanged |
| `CartItems.AddLineWithoutMatch` | screens/ProductDetails.js:106-107 | when no line matches, exactly the new line is appended at the end and earlier lines are unchanged |
| `CartItems.AddBySizeTwoSizes` | screens/ProductDetails.js:101-107 | the same product added in two different sizes to a cart without it gives two separate quantity-1 lines, each carrying its size |
| `CartItems.AddBySizeKeepsOneLinePerIdAndSize` | screens/ProductDetails.js:101-107 | adding keeps at most one line per (id, size) pair |
| `CartItems.AddToCartById` | screens/Account.js:121-139 | the stored cart becomes the id-keyed merge of the old cart (the account and collection pages share this code) |
| `CartItems.AddByIdKeepsOneLinePerId` | screens/CollectionDetails.js:17-22 | id-keyed adding keeps at most one line per product id |
| `CartItems.AddByIdTwice` | screens/CollectionDetails.js:17-22 | adding a product that is not in the cart twice gives one new line with quantity 2, not two lines |
| `CartItems.AddLineKeepsQuantitiesPositive` | screens/CollectionDetails.js:19-21 | if every line's quantity is at least 1 (or missing, which reads as 1), that still holds after an add that pushes quantity-1 lines |
| `ProductDetails.IndexOfId` | screens/ProductDetails.js:124 | the scan returns an index holding the id, or the list length exactly when no entry has the id |
| `ProductDetails.SaveToFavorites` | screens/ProductDetails.js:119-139 | saves exactly when the id is absent; when it is present the stored list is unchanged; otherwise the product is appended |
| `Entities.AppendIfAbsentKeepsIdsUnique` | screens/ProductDetails.js:124-131 | the de-duplicated append keeps ids unique and leaves the product's id present |
| `Entities.AppendIfAbsentIdempotent` | screens/ProductDetails.js:124-129 | saving the same product again changes nothing |
| `ProductDetails.SaveToCollection` | screens/ProductDetails.js:141-153 | same number of collections, same names; collections with another name are unchanged; each collection with the name gets the de-duplicated append |
| `ProductDetails.SaveToUnknownCollection` | screens/ProductDetails.js:143-152 | a name no collection has leaves the collections unchanged |
| `ProductDetails.SaveToCollectionKeepsIdsUnique` | screens/ProductDetails.js:144-150 | every collection keeps unique ids, and each collection with the name then holds the product's id |
| `ProductDetails.SaveToStoredCollection` | screens/ProductDetails.js:141-163 | the list written under 'collections' is the save on the old list |
| `ProductDetails.CreateAndSaveToCollection` | screens/ProductDetails.js:165-173 | refused exactly when the name is blank (only whitespace); otherwise a new collection {name, [product]} is appended after the unchanged old ones, with no check that the name is unique |
| `ProductDetails.CreateAndSaveToStoredCollection` | screens/ProductDetails.js:165-184 | a blank name writes nothing; an accepted list is written under 'collections' |
| `Text.BlankIffTrimmedEmpty` | screens/ProductDetails.js:166 | `trim()` yields the empty string exactly when every character is whitespace |
| `ProductDetails.SubmitReview` | screens/ProductDetails.js:186-205 | a zero rating is refused first, then blank text; an accepted review by "Customer" is appended after the unchanged existing reviews |
| `ProductDetails.SubmitReviewToStore` | screens/ProductDetails.js:204-207 | a refusal leaves the stored reviews unchanged; an accepted review list is written under that product's key only |
| `Account.LoadData` | screens/Account.js:26-105 | an empty stored Favorites list is replaced and written with the two-item fixture, and an empty collections list with the two-collection fixture; non-empty lists are shown and kept as read |
| `Account.SeedingIsStable` | screens/Account.js:33-57 | loading again after seeding seeds nothing more |
| `Account.FixtureFavoritesShape` | screens/Account.js:34-55 | the seeded Favorites are exactly two items, with ids "1" and "2", unique |
| `Entities.WithoutId` | screens/Account.js:110 | removal by id leaves no entry with that id, keeps every copy of every other entry, and keeps them in their original order |
| `Account.RemoveFromFavorites` | screens/Account.js:108-118 | the Favorites shown and written under 'favorites' are the loaded list without the entries with the id |
| `Account.InitialFollowing` | screens/Account.js:9-22 | the initial list (`InitialFollowingState`, on the seven fixture shops) has every shop, in order, each with `isFollowing` true |
| `Account.ToggleFollow` | screens/Account.js:142-149 | `isFollowing` flips on the accounts with the id; every other account is unchanged and no shop record changes |
| `Account.ToggleFollowTwice` | screens/Account.js:145 | toggling the same id twice restores the list |
| `CollectionDetails.RemoveFromCollection` | screens/CollectionDetails.js:39-47 | collections with another name are unchanged; a collection with the shown name keeps its name and loses the items with the id |
| `CollectionDetails.RemovedFromTarget` | screens/CollectionDetails.js:43 | the target collection then has no item with the id and keeps every copy of its other items, in their order |
| `CollectionDetails.ShownAgreesWithStored` | screens/CollectionDetails.js:50-58 | when the shown collection equals the stored one, the copy passed to `setParams` equals the stored collection after the same removal |
| `CollectionDetails.RemoveFromStoredCollection` | screens/CollectionDetails.js:33-58 | the stored collections are replaced by the removal on the shown collection's name, and the shown collection without the item is returned for `setParams` |
| `Cart.ToggleItemSelection` | screens/Cart.js:41-47 | `selected` flips on the lines with the id; their other fields and every other line are unchanged |
| `Cart.ToggleItemSelectionTwice` | screens/Cart.js:44 | toggling the same id twice restores the cart |
| `Cart.TotalPriceCountsSelectedOnly` | screens/Cart.js:50-59 | the total equals a reference sum in which each selected line adds price × quantity + delivery fee and each unselected line adds nothing |
| `Cart.TotalPriceNoneSelected` | screens/Cart.js:51-58 | with no line selected the total is 0 |
| `Cart.TotalPriceSplit` | screens/Cart.js:51-58 | the total over two concatenated lists of lines is the sum of their totals |
| `Cart.SelectedItems` | screens/Cart.js:62 | the selected lines form an order-preserving subsequence of the cart that holds every copy of each selected line and no unselected line |
| `Cart.Checkout` | screens/Cart.js:133-138 | checkout is refused exactly when no line is selected; otherwise the selected lines and the total are passed on |
| `Cart.FixtureCartTotal` | screens/Cart.js:8-59 | the screen opens with both fixture lines selected, shows a total of 820 and passes both lines on at checkout |
| `Search.ApplyFiltersIsConjunction` | screens/Search.js:92-130 | the filter chain equals one filter by the conjunction of the active predicates: caption substring ignoring case when the query is non-empty, 1 ≤ price ≤ maxPrice always, size, colour and seller membership when set, radius when a location is set; the result is an order-preserving subsequence of the catalog |
| `Text.IncludesIffOccurs` | screens/Search.js:97 | `includes` holds exactly when the substring occurs at some offset |
| `Search.ToggleSeller` | screens/Search.js:146-152 | the username's membership flips, no other seller's membership changes, and a list without duplicates stays without duplicates |
| `Search.ToggleSellerTwice` | screens/Search.js:146-152 | toggling twice restores membership, and restores the list itself when the seller was not selected |
| `Search.ResetFilters` | screens/Search.js:134-144 | maxPrice 1000, radius 50, no size, colour, sellers or location, the full catalog shown, and the search text kept |
| `Search.ResetAgreesWithApply` | screens/Search.js:101-104 | with no search text and all prices within 1..1000, applying the reset filters shows exactly what the reset shows |
| `Search.CatalogWithinResetRange` | screens/Search.js:12-17 | every catalog price lies within 1..1000 |
| `Search.SearchSimilarProducts` | screens/Search.js:200-210 | the posts shown are exactly the catalog posts whose colour is "red" and whose caption includes "dress", both ignoring case, in catalog order with every copy kept; the search text becomes "Similar to Red Dress" and the other filters are kept |
| `Checkout.FinalTotalAsWritten` | screens/Checkout.js:27-34 | with a pickup point the total is the passed-in base; without one it is the base plus every line's delivery fee |
| `Checkout.AsWrittenChargesFeesTwice` | screens/Checkout.js:29-33 | for what the cart passes on, the as-written total is the merchandise plus each fee once with a pickup point and twice without |
| `Checkout.AsWrittenCounterexample` | screens/Checkout.js:27-34 | one selected $500 line with a $10 fee: the cart total is 510 and the as-written checkout total is 520 |
| `Checkout.FinalTotalChargesFeesOnce` | screens/Checkout.js:27-34 | the corrected total is the merchandise plus each delivery fee once, or no fee with a pickup point |
| `Checkout.HandleInputChange` | screens/Checkout.js:23-25 | exactly the named address field takes the value; every other field is unchanged |
| `Checkout.AddressLine2IsOptional` | screens/Checkout.js:40-48 | the second address line never affects address validation |
| `Checkout.PlaceOrder` | screens/Checkout.js:36-68 | a missing required address field is reported first, even when payment is also missing; then a missing payment method; a placed order records the items, the as-written final total, the address, the payment method, the pickup flag and status "Pending" |
| `Checkout.PlaceOrderCorrected` | screens/Checkout.js:38-68 | the same validation; a placed order records the corrected total, which charges each delivery fee once |
| `Checkout.PlacedOrdersDifferByFees` | screens/Checkout.js:27-36 | the as-written and corrected orders succeed and fail together, and the as-written one records exactly one more charge of the delivery fees |
| `Home.InitialHomeIsConsistent` | screens/Home.js:76-78 | the initial collections are exactly Favorites, Wedding and Casual, and every saved post is mapped to a listed collection |
| `Home.SaveToCollection` | screens/Home.js:105-109 | the post's entry becomes the chosen name, replacing any earlier one; the list and every other post's entry are unchanged |
| `Home.SaveToListedCollectionIsConsistent` | screens/Home.js:105-109 | saving to a listed name keeps every saved post mapped to a listed collection |
| `Home.CreateNewCollection` | screens/Home.js:115-122 | an empty name is refused; otherwise the name is appended, duplicates allowed, and the post is mapped to it |
| `Home.CreateNewCollectionIsConsistent` | screens/Home.js:115-122 | the state kept after creating a collection (the old state on refusal) still maps every saved post to a listed collection |
| `LogIn.CheckCredentials` | screens/LogIn.js:12-25 | "no user found" exactly when no record is stored; success exactly when both the stored email and password equal the entered ones |
| `LogIn.HalfMatchIsInvalid` | screens/LogIn.js:20-25 | a right email with a wrong password, or the reverse, is refused as invalid |
| `LogIn.HandleLogIn` | screens/LogIn.js:9-30 | the handler only reads the store and returns the credential check on the stored record |
| `SignUp.SignUpRecord` | screens/SignUp.js:16-20 | refused exactly when name, email or password is empty (address and gender may be empty); otherwise the record holds exactly the five entered values |
| `SignUp.HandleSignUp` | screens/SignUp.js:14-22 | a refused form leaves the stored user unchanged; an accepted one replaces it with the record |
| `SignUp.SignUpThenLogIn` | screens/SignUp.js:20-22 | after sign-up stores a record, log-in with the same email and password succeeds |

## Left out

- Asynchrony and failures of the key-value store, and the JSON round-trip: the store is an in-memory object, so the `catch` branches and their alerts are not modelled.
- Interleaving of overlapping read-modify-write sequences: each operation runs alone.
- The haversine distance of `calculateDistance` (floating-point trigonometry): the radius test is the parameter `withinRadius`.
- `parseFloat` and `toFixed(2)`: prices, fees, totals, `maxPrice` and the radius are integers. The home feed's "Tk 2,499.00" prices would not parse and are not modelled.
- The `applyFilters` call inside the search box's `onChangeText`, which sees the old query (React state scheduling).
- Rendering, styles, modals, alerts, navigation, image indices, the size and colour dropdown flags that `resetFilters` also clears, and `setSelectedSize(null)` after an add.
- Location, camera and gallery permissions, the image picker and sharing.
- `Date.now()` review ids, review and order dates.
- Image, profile, likes, comments and coordinate fields of product snapshots.
- The cart screen works on its own fixture lines, not on the stored cart; the model keeps the two line types apart, as the code does.
- The product page saves to collections, and the account page removes from Favorites, through the copy each loaded at mount; the model takes that copy to be the stored list.
- The home feed's case of no selected post (`selectedPost` null) is not modelled: the post id is a parameter.
- Text.LowerChar: does not model Unicode case mapping beyond the ASCII letters, because the catalog's text is ASCII.
- Text.IsWhitespace: does not model every Unicode space character that `trim` removes, only the common ones listed in its comment.

## Findings

| source | as written | input that shows it | evidently intended | confidence | as-written member | corrected member |
|---|---|---|---|---|---|---|
| screens/Checkout.js:27-34 | the base total passed from the cart already includes each selected line's delivery fee (screens/Cart.js:56), and checkout adds every line's fee again unless a pickup point is used | one selected line, price $500, quantity 1, fee $10, no pickup point: cart shows $510, checkout shows $520 | each delivery fee charged once, and none with a pickup point | medium; not executed | `Checkout.AsWrittenCounterexample` | `Checkout.FinalTotalChargesFeesOnce` |

The as-written total is what `Checkout.PlaceOrder` records, as the handler does. `Checkout.PlaceOrderCorrected` records the corrected total.
