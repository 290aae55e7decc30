/** The cart screen. It works on its own fixture lines, which carry a
    selection flag and a delivery fee, rather than on the stored cart. */
module Cart {
  import opened Wrappers
  import opened Sequences

  datatype Line = Line(id: string, seller: string, caption: string, price: int,
                       quantity: int, deliveryFee: int, selected: bool)

  const FixtureLines: seq<Line> := [
    Line("1", "Nameera by Farooq", "Bridal Lehenga", 500, 1, 10, true),
    Line("2", "Gulnaaz Khan Fashion", "Blue Anarkali", 300, 1, 10, true)
  ]

  /** `toggleItemSelection(itemId)`: `selected` flips on the lines with that id;
      nothing else changes. */
  function ToggleItemSelection(lines: seq<Line>, itemId: string): (r: seq<Line>)
    ensures |r| == |lines|
    ensures forall i | 0 <= i < |lines| && lines[i].id == itemId ::
      r[i].selected == !lines[i].selected && r[i] == lines[i].(selected := r[i].selected)
    ensures forall i | 0 <= i < |lines| && lines[i].id != itemId :: r[i] == lines[i]
  {
    if lines == [] then []
    else
      var l := lines[0];
      [if l.id == itemId then l.(selected := !l.selected) else l] + ToggleItemSelection(lines[1..], itemId)
  }

  /** Toggling the same id twice restores the cart. */
  lemma ToggleItemSelectionTwice(lines: seq<Line>, itemId: string)
    ensures ToggleItemSelection(ToggleItemSelection(lines, itemId), itemId) == lines
  {
    var r := ToggleItemSelection(ToggleItemSelection(lines, itemId), itemId);
    assert forall i | 0 <= i < |lines| :: r[i] == lines[i];
  }

  predicate IsSelected(l: Line) {
    l.selected
  }

  /** `cartItems.filter(item => item.selected)`: passed on to checkout. */
  function SelectedItems(lines: seq<Line>): (r: seq<Line>)
    ensures IsSubsequence(r, lines)
    ensures forall l :: l in r <==> l in lines && l.selected
    ensures forall l :: multiset(r)[l] == if l.selected then multiset(lines)[l] else 0
  {
    FilterIsSubsequence(lines, IsSelected);
    FilterCounts(lines, IsSelected);
    Filter(lines, IsSelected)
  }

  /** What one line adds to the running total. */
  function LineCost(l: Line): int {
    l.price * l.quantity + l.deliveryFee
  }

  /** The `reduce` over lines, starting from 0. */
  function SumCost(lines: seq<Line>): int {
    if lines == [] then 0 else LineCost(lines[0]) + SumCost(lines[1..])
  }

  /** `calculateTotalPrice`: filter the selected lines, then sum their cost. */
  function TotalPrice(lines: seq<Line>): int {
    SumCost(SelectedItems(lines))
  }

  /** A reference definition: every line counts its cost when selected and
      nothing when not. */
  function CostOfSelected(lines: seq<Line>): int {
    if lines == [] then 0
    else (if lines[0].selected then LineCost(lines[0]) else 0) + CostOfSelected(lines[1..])
  }

  lemma {:induction false} TotalPriceCountsSelectedOnly(lines: seq<Line>)
    ensures TotalPrice(lines) == CostOfSelected(lines)
  {
    if lines != [] {
      TotalPriceCountsSelectedOnly(lines[1..]);
      if lines[0].selected {
        var s := SelectedItems(lines);
        assert s[0] == lines[0] && s[1..] == SelectedItems(lines[1..]);
      }
    }
  }

  /** With no line selected the total is 0. */
  lemma {:induction false} TotalPriceNoneSelected(lines: seq<Line>)
    requires forall i | 0 <= i < |lines| :: !lines[i].selected
    ensures TotalPrice(lines) == 0
  {
    TotalPriceCountsSelectedOnly(lines);
    NoneSelectedCostsNothing(lines);
  }

  lemma {:induction false} NoneSelectedCostsNothing(lines: seq<Line>)
    requires forall i | 0 <= i < |lines| :: !lines[i].selected
    ensures CostOfSelected(lines) == 0
  {
    if lines != [] {
      assert forall i | 0 <= i < |lines[1..]| :: lines[1..][i] == lines[i + 1];
      NoneSelectedCostsNothing(lines[1..]);
    }
  }

  lemma {:induction false} SumCostAppend(a: seq<Line>, b: seq<Line>)
    ensures SumCost(a + b) == SumCost(a) + SumCost(b)
  {
    if a == [] {
      assert a + b == b;
    } else {
      assert (a + b)[0] == a[0] && (a + b)[1..] == a[1..] + b;
      SumCostAppend(a[1..], b);
    }
  }

  /** The total over a cart split in two is the sum of the two totals. */
  lemma TotalPriceSplit(a: seq<Line>, b: seq<Line>)
    ensures TotalPrice(a + b) == TotalPrice(a) + TotalPrice(b)
  {
    FilterAppend(a, b, IsSelected);
    SumCostAppend(SelectedItems(a), SelectedItems(b));
  }

  datatype CheckoutRequest = CheckoutRequest(cartItems: seq<Line>, totalPrice: int)

  datatype CartError = NothingSelected

  /** The checkout button: refused when no line is selected, otherwise the
      selected lines and the total go to the checkout screen. */
  function Checkout(lines: seq<Line>): (r: Result<CheckoutRequest, CartError>)
    ensures r.Err? <==> forall i | 0 <= i < |lines| :: !lines[i].selected
    ensures r.Ok? ==> r.value.cartItems == SelectedItems(lines) && r.value.totalPrice == TotalPrice(lines)
  {
    var selectedItems := SelectedItems(lines);
    if |selectedItems| == 0 then
      assert forall i | 0 <= i < |lines| :: lines[i] !in selectedItems;
      Err(NothingSelected)
    else
      assert selectedItems[0] in lines;
      Ok(CheckoutRequest(selectedItems, TotalPrice(lines)))
  }

  /** The screen opens with both fixture lines selected: the total shown is
      500 + 10 + 300 + 10, and checkout passes both lines on. */
  lemma FixtureCartTotal()
    ensures TotalPrice(FixtureLines) == 820
    ensures Checkout(FixtureLines) == Ok(CheckoutRequest(FixtureLines, 820))
  {
    FilterKeepsAll(FixtureLines, IsSelected);
  }
}
