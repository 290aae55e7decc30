/** The stored cart's add operation, shared by the product page (which matches
    a line on id and size) and by the account and collection screens (which
    match on id alone): find the first matching line; if there is one,
    increment its quantity in place, reading a missing quantity as 1;
    otherwise push a new line with quantity 1. */
module CartItems {
  import opened Wrappers
  import opened Entities
  import opened Storage

  /** How a screen recognises an existing line for the product being added. */
  datatype Key = ById(id: string) | ByIdAndSize(id: string, size: string)

  predicate Matches(key: Key, line: CartLine) {
    match key
    case ById(id) => line.item.id == id
    case ByIdAndSize(id, size) => line.item.id == id && line.item.size == size
  }

  /** `quantity || 1`: a missing or zero quantity reads as 1. */
  function QuantityOrOne(q: Option<int>): int {
    if q.Some? && q.value != 0 then q.value else 1
  }

  /** The line after `existingItem.quantity = (existingItem.quantity || 1) + 1`. */
  function Bumped(line: CartLine): CartLine {
    line.(quantity := Some(QuantityOrOne(line.quantity) + 1))
  }

  /** The index `cartItems.find` stops at: the first matching line, or |cart|
      when none matches. */
  function FirstMatch(cart: seq<CartLine>, key: Key): (i: nat)
    ensures i <= |cart|
    ensures i < |cart| ==> Matches(key, cart[i])
    ensures forall j | 0 <= j < i :: !Matches(key, cart[j])
  {
    if cart == [] then 0
    else if Matches(key, cart[0]) then 0
    else 1 + FirstMatch(cart[1..], key)
  }

  /** The cart after adding with `key`; `newLine` is the line pushed when no
      line matches. */
  function AddLine(cart: seq<CartLine>, key: Key, newLine: CartLine): seq<CartLine> {
    var i := FirstMatch(cart, key);
    if i < |cart| then cart[i := Bumped(cart[i])] else cart + [newLine]
  }

  /** Adding with a key that matches a line: the length is unchanged, the first
      matching line keeps its product and has its quantity incremented, and
      every other line is unchanged. */
  lemma AddLineToMatch(cart: seq<CartLine>, key: Key, newLine: CartLine, i: nat)
    requires i < |cart| && Matches(key, cart[i])
    requires forall j | 0 <= j < i :: !Matches(key, cart[j])
    ensures var r := AddLine(cart, key, newLine);
      |r| == |cart| && r[i].item == cart[i].item
      && r[i].quantity == Some(QuantityOrOne(cart[i].quantity) + 1)
      && forall j | 0 <= j < |cart| && j != i :: r[j] == cart[j]
  {
    FirstMatchIsUnique(cart, key, i);
  }

  /** Adding with a key no line matches appends exactly `newLine` at the end. */
  lemma AddLineWithoutMatch(cart: seq<CartLine>, key: Key, newLine: CartLine)
    requires forall j | 0 <= j < |cart| :: !Matches(key, cart[j])
    ensures AddLine(cart, key, newLine) == cart + [newLine]
  {
  }

  /** The first-match characterisation determines the index. */
  lemma FirstMatchIsUnique(cart: seq<CartLine>, key: Key, i: nat)
    requires i <= |cart|
    requires i < |cart| ==> Matches(key, cart[i])
    requires forall j | 0 <= j < i :: !Matches(key, cart[j])
    ensures i == FirstMatch(cart, key)
  {
  }

  /** Every line has quantity at least 1, or no quantity at all (read as 1). */
  ghost predicate QuantitiesPositive(cart: seq<CartLine>) {
    forall i | 0 <= i < |cart| :: cart[i].quantity.None? || cart[i].quantity.value >= 1
  }

  /** Adding preserves positive quantities when the pushed line has one. */
  lemma AddLineKeepsQuantitiesPositive(cart: seq<CartLine>, key: Key, newLine: CartLine)
    requires QuantitiesPositive(cart)
    requires newLine.quantity == Some(1)
    ensures QuantitiesPositive(AddLine(cart, key, newLine))
  {
  }

  // ---- keyed on id: the account and collection screens ----

  /** `cartItems.push({ ...item, quantity: 1 })` when no line has the id. */
  function AddById(cart: seq<CartLine>, item: Product): seq<CartLine> {
    AddLine(cart, ById(item.id), CartLine(item, Some(1)))
  }

  /** At most one line per product id. */
  ghost predicate OneLinePerId(cart: seq<CartLine>) {
    forall i, j | 0 <= i < j < |cart| :: cart[i].item.id != cart[j].item.id
  }

  lemma AddByIdKeepsOneLinePerId(cart: seq<CartLine>, item: Product)
    requires OneLinePerId(cart)
    ensures OneLinePerId(AddById(cart, item))
  {
    var r := AddById(cart, item);
    var i := FirstMatch(cart, ById(item.id));
    if i == |cart| {
      forall a, b | 0 <= a < b < |r| ensures r[a].item.id != r[b].item.id {
        if b == |cart| {
          assert !Matches(ById(item.id), cart[a]);
        }
      }
    }
  }

  /** Adding a product whose id is not in the cart twice gives one new line with
      quantity 2, not two lines. */
  lemma {:induction false} AddByIdTwice(cart: seq<CartLine>, item: Product)
    requires forall j | 0 <= j < |cart| :: cart[j].item.id != item.id
    ensures AddById(AddById(cart, item), item) == cart + [CartLine(item, Some(2))]
  {
    var once := AddById(cart, item);
    AddLineWithoutMatch(cart, ById(item.id), CartLine(item, Some(1)));
    assert once == cart + [CartLine(item, Some(1))];
    AddLineToMatch(once, ById(item.id), CartLine(item, Some(1)), |cart|);
    var twice := AddById(once, item);
    assert twice[|cart|] == CartLine(item, Some(2));
    assert twice == cart + [CartLine(item, Some(2))];
  }

  // ---- keyed on id and size: the product page ----

  /** `cartItems.push({ ...product, quantity: 1, size })` when no line has both
      the product's id and this size. */
  function AddBySize(cart: seq<CartLine>, p: Product, size: string): seq<CartLine> {
    AddLine(cart, ByIdAndSize(p.id, size), CartLine(p.(size := size), Some(1)))
  }

  /** At most one line per (id, size) pair. */
  ghost predicate OneLinePerIdAndSize(cart: seq<CartLine>) {
    forall i, j | 0 <= i < j < |cart| ::
      cart[i].item.id != cart[j].item.id || cart[i].item.size != cart[j].item.size
  }

  lemma AddBySizeKeepsOneLinePerIdAndSize(cart: seq<CartLine>, p: Product, size: string)
    requires OneLinePerIdAndSize(cart)
    ensures OneLinePerIdAndSize(AddBySize(cart, p, size))
  {
    var r := AddBySize(cart, p, size);
    var i := FirstMatch(cart, ByIdAndSize(p.id, size));
    if i == |cart| {
      forall a, b | 0 <= a < b < |r|
        ensures r[a].item.id != r[b].item.id || r[a].item.size != r[b].item.size
      {
        if b == |cart| {
          assert !Matches(ByIdAndSize(p.id, size), cart[a]);
        }
      }
    }
  }

  /** The same product added in two different sizes to a cart that does not
      hold it yet gives two separate lines, each with quantity 1. */
  lemma {:induction false} AddBySizeTwoSizes(cart: seq<CartLine>, p: Product, s1: string, s2: string)
    requires s1 != s2
    requires forall j | 0 <= j < |cart| :: cart[j].item.id != p.id
    ensures AddBySize(AddBySize(cart, p, s1), p, s2)
         == cart + [CartLine(p.(size := s1), Some(1)), CartLine(p.(size := s2), Some(1))]
  {
    var once := AddBySize(cart, p, s1);
    AddLineWithoutMatch(cart, ByIdAndSize(p.id, s1), CartLine(p.(size := s1), Some(1)));
    assert once == cart + [CartLine(p.(size := s1), Some(1))];
    forall j | 0 <= j < |once| ensures !Matches(ByIdAndSize(p.id, s2), once[j]) {
      if j < |cart| { assert once[j] == cart[j]; }
    }
    AddLineWithoutMatch(once, ByIdAndSize(p.id, s2), CartLine(p.(size := s2), Some(1)));
  }

  // ---- the in-place code ----

  /** `cartItems.find(matches)`, as the linear scan it performs. */
  method FindLine(cart: seq<CartLine>, key: Key) returns (i: nat)
    ensures i <= |cart|
    ensures i < |cart| ==> Matches(key, cart[i])
    ensures forall j | 0 <= j < i :: !Matches(key, cart[j])
  {
    i := 0;
    while i < |cart| && !Matches(key, cart[i])
      invariant i <= |cart|
      invariant forall j | 0 <= j < i :: !Matches(key, cart[j])
    {
      i := i + 1;
    }
  }

  /** Load the stored cart, update the matching line in place or push `newLine`,
      and write the cart back. */
  method AddToStoredCart(store: Store, key: Key, newLine: CartLine)
    modifies store`cartItems
    ensures store.cartItems == AddLine(old(store.cartItems), key, newLine)
  {
    var cartItems := store.cartItems;
    var i := FindLine(cartItems, key);
    FirstMatchIsUnique(cartItems, key, i);
    if i < |cartItems| {
      cartItems := cartItems[i := Bumped(cartItems[i])];
    } else {
      cartItems := cartItems + [newLine];
    }
    store.cartItems := cartItems;
  }

  /** `addToCart(item)` of the account and collection screens. */
  method AddToCartById(store: Store, item: Product)
    modifies store`cartItems
    ensures store.cartItems == AddById(old(store.cartItems), item)
  {
    AddToStoredCart(store, ById(item.id), CartLine(item, Some(1)));
  }
}
