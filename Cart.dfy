/** The cart lines of the checkout screen and the values derived from them
    (`src/pages/CartCheckoutScreen.tsx`). Money is in integer cents; the tax is the
    exact rational value, with no display rounding. */
module Cart {
  import opened Optional
  import opened Seqs
  import opened OrderSummaryItem

  datatype CartLine = CartLine(
    id: string,
    name: string,
    imageUrl: string,
    priceCents: int,
    quantity: int,
    variantInfo: Option<string>)

  /** The two lines the screen starts with: a 12.99 burger and two 4.00 fries. */
  const InitialCart: seq<CartLine> := [
    CartLine("d1", "Classic Beef Burger", "burger.jpg", 1299, 1, Some("Medium rare, extra pickles")),
    CartLine("d4", "Fries", "fries.jpg", 400, 2, None)
  ]

  /** The cart invariant: no line is kept with a quantity below 1. */
  predicate AllPositive(lines: seq<CartLine>) {
    forall i :: 0 <= i < |lines| ==> lines[i].quantity > 0
  }

  predicate HasLine(lines: seq<CartLine>, id: string) {
    exists i :: 0 <= i < |lines| && lines[i].id == id
  }

  /** The `map` step: every line with the id gets the new quantity. */
  function SetQuantity(lines: seq<CartLine>, id: string, q: int): (r: seq<CartLine>)
    ensures |r| == |lines|
    ensures forall i :: 0 <= i < |lines| ==>
      r[i] == if lines[i].id == id then lines[i].(quantity := q) else lines[i]
  {
    seq(|lines|, i requires 0 <= i < |lines| => if lines[i].id == id then lines[i].(quantity := q) else lines[i])
  }

  function IsPositive(): CartLine -> bool {
    (l: CartLine) => l.quantity > 0
  }

  function LineIdIsNot(id: string): CartLine -> bool {
    (l: CartLine) => l.id != id
  }

  function LineIdIs(id: string): CartLine -> bool {
    (l: CartLine) => l.id == id
  }

  /** `handleQuantityChange`: `map` to the new quantity, then `filter` out every line
      whose quantity is not positive. */
  function ChangeQuantity(lines: seq<CartLine>, id: string, q: int): (r: seq<CartLine>)
    ensures AllPositive(r)
    ensures IsSubsequence(r, SetQuantity(lines, id, q))
    ensures forall i :: 0 <= i < |r| ==> r[i].id == id ==> r[i].quantity == q
    ensures q <= 0 ==> !HasLine(r, id)
  {
    Filter(SetQuantity(lines, id, q), IsPositive())
  }

  /** `handleRemoveItem`: drop exactly the lines with the id; every other line stays,
      in order (`RemoveLineKeepsCounts`: as many times as the cart holds it). */
  function RemoveLine(lines: seq<CartLine>, id: string): (r: seq<CartLine>)
    ensures IsSubsequence(r, lines)
    ensures !HasLine(r, id)
    ensures forall i :: 0 <= i < |lines| && lines[i].id != id ==> lines[i] in r
    ensures forall i :: 0 <= i < |r| ==> r[i] in lines
  {
    Filter(lines, LineIdIsNot(id))
  }

  /** A removal keeps every other line exactly as often as the cart holds it. */
  lemma RemoveLineKeepsCounts(lines: seq<CartLine>, id: string)
    ensures forall i :: 0 <= i < |lines| && lines[i].id != id ==>
      multiset(RemoveLine(lines, id))[lines[i]] == multiset(lines)[lines[i]]
  {
    FilterCounts(lines, LineIdIsNot(id));
  }

  /** The whole effect of a quantity change on a cart that keeps its invariant:
      a positive quantity rewrites only the quantity of the matching lines and keeps
      every line in place; a quantity of zero or less is exactly `handleRemoveItem`. */
  lemma ChangeQuantityCases(lines: seq<CartLine>, id: string, q: int)
    requires AllPositive(lines)
    ensures q > 0 ==> ChangeQuantity(lines, id, q) == SetQuantity(lines, id, q)
    ensures q <= 0 ==> ChangeQuantity(lines, id, q) == RemoveLine(lines, id)
  {
    var updated := SetQuantity(lines, id, q);
    if q > 0 {
      FilterKeepsAll(updated, IsPositive());
    } else {
      FilterMapped(lines, id, q);
    }
  }

  lemma {:induction false} FilterMapped(lines: seq<CartLine>, id: string, q: int)
    requires AllPositive(lines) && q <= 0
    ensures Filter(SetQuantity(lines, id, q), IsPositive()) == Filter(lines, LineIdIsNot(id))
    decreases |lines|
  {
    if lines != [] {
      assert SetQuantity(lines, id, q)[1..] == SetQuantity(lines[1..], id, q);
      FilterMapped(lines[1..], id, q);
    }
  }

  /** A quantity change for an id no line has leaves a valid cart as it was. */
  lemma ChangeUnknownIsNoop(lines: seq<CartLine>, id: string, q: int)
    requires AllPositive(lines) && !HasLine(lines, id)
    ensures ChangeQuantity(lines, id, q) == lines
  {
    assert SetQuantity(lines, id, q) == lines;
    FilterKeepsAll(lines, IsPositive());
  }

  /** Removing an id no line has leaves the cart as it was. */
  lemma RemoveUnknownIsNoop(lines: seq<CartLine>, id: string)
    requires !HasLine(lines, id)
    ensures RemoveLine(lines, id) == lines
  {
    FilterKeepsAll(lines, LineIdIsNot(id));
  }

  /** What a line's control does to the cart it belongs to. */
  function Dispatch(lines: seq<CartLine>, e: ItemEvent): seq<CartLine> {
    match e
    case QuantityChange(id, n) => ChangeQuantity(lines, id, n)
    case Remove(id) => RemoveLine(lines, id)
  }

  /** Replays the callbacks fired by the cart's controls, oldest first. */
  function DispatchAll(lines: seq<CartLine>, events: seq<ItemEvent>): seq<CartLine>
    decreases |events|
  {
    if events == [] then lines else DispatchAll(Dispatch(lines, events[0]), events[1..])
  }

  /** From any cart that keeps the invariant, and so from the initial cart, every
      sequence of quantity changes and removals keeps every quantity at least 1. */
  lemma {:induction false} DispatchAllKeepsPositive(lines: seq<CartLine>, events: seq<ItemEvent>)
    requires AllPositive(lines)
    ensures AllPositive(DispatchAll(lines, events))
    decreases |events|
  {
    if events != [] {
      var next := Dispatch(lines, events[0]);
      assert AllPositive(next) by {
        match events[0]
        case QuantityChange(id, n) =>
        case Remove(id) =>
          assert forall i :: 0 <= i < |next| ==> next[i] in lines;
      }
      DispatchAllKeepsPositive(next, events[1..]);
    }
  }

  /** The "-" control is the same as asking for one less: on a line of quantity 1
      the removal it fires is what a quantity change to 0 would do. */
  lemma DecrementIsOneLess(lines: seq<CartLine>, id: string, quantity: int)
    requires AllPositive(lines)
    ensures Dispatch(lines, Decrement(id, quantity)) == ChangeQuantity(lines, id, quantity - 1)
  {
    match Decrement(id, quantity)
    case Remove(_) =>
      ChangeQuantityCases(lines, id, quantity - 1);
    case QuantityChange(_, _) =>
  }

  /** The amount of one line, the line total it displays. */
  function LineAmount(): CartLine -> int {
    (l: CartLine) => LineTotal(l.priceCents, l.quantity)
  }

  /** The subtotal: the line amounts added up from the left, starting at 0. */
  function Subtotal(lines: seq<CartLine>): int {
    SumLeft(0, lines, LineAmount())
  }

  const TaxRate: real := 0.08
  const DeliveryFeeCents: int := 500

  /** Eight per cent of the subtotal, exactly. */
  function Tax(lines: seq<CartLine>): real {
    Subtotal(lines) as real * TaxRate
  }

  /** The subtotal plus the tax plus the flat delivery fee. */
  function Total(lines: seq<CartLine>): real {
    Subtotal(lines) as real + Tax(lines) + DeliveryFeeCents as real
  }

  /** The subtotal is the sum of the line totals the lines display. */
  lemma {:induction false} SubtotalIsSumOfLineTotals(lines: seq<CartLine>)
    ensures Subtotal(lines) == LineTotalsSum(lines)
  {
    SumLeftIsSum(0, lines, LineAmount());
    SumIsLineTotalsSum(lines);
  }

  function LineTotalsSum(lines: seq<CartLine>): int
    decreases |lines|
  {
    if lines == [] then 0 else LineTotal(lines[0].priceCents, lines[0].quantity) + LineTotalsSum(lines[1..])
  }

  lemma {:induction false} SumIsLineTotalsSum(lines: seq<CartLine>)
    ensures Sum(lines, LineAmount()) == LineTotalsSum(lines)
    decreases |lines|
  {
    if lines != [] {
      SumIsLineTotalsSum(lines[1..]);
    }
  }

  /** The empty cart costs nothing before the fee, and the total is then the fee. */
  lemma EmptyCartTotals()
    ensures Subtotal([]) == 0 && Tax([]) == 0.0 && Total([]) == 5_00 as real
  {
  }

  /** With no negative price the subtotal, tax and total are not negative, and the
      total is never below the delivery fee. */
  lemma TotalsNonNegative(lines: seq<CartLine>)
    requires forall i :: 0 <= i < |lines| ==> lines[i].priceCents >= 0
    requires AllPositive(lines)
    ensures Subtotal(lines) >= 0 && Tax(lines) >= 0.0
    ensures Total(lines) >= DeliveryFeeCents as real
  {
    SumLeftIsSum(0, lines, LineAmount());
    forall i | 0 <= i < |lines| ensures LineAmount()(lines[i]) >= 0 {
      var l := lines[i];
      assert l.priceCents * l.quantity >= 0;
    }
    SumNonNegative(lines, LineAmount());
  }

  /** The total is 108% of the subtotal plus the flat delivery fee. */
  lemma TotalIsSubtotalWithTaxAndFee(lines: seq<CartLine>)
    ensures Total(lines) == Subtotal(lines) as real * 1.08 + 5.0 * 100.0
  {
  }

  /** Removal takes exactly the removed lines' amounts off the subtotal. */
  lemma RemoveLineSubtotal(lines: seq<CartLine>, id: string)
    ensures Subtotal(lines) == Subtotal(RemoveLine(lines, id)) + Subtotal(Filter(lines, LineIdIs(id)))
  {
    SumLeftIsSum(0, lines, LineAmount());
    SumLeftIsSum(0, RemoveLine(lines, id), LineAmount());
    SumLeftIsSum(0, Filter(lines, LineIdIs(id)), LineAmount());
    SumFilterSplit(lines, LineAmount(), LineIdIsNot(id), LineIdIs(id));
  }

  /** The initial cart: subtotal 20.99, tax 1.6792, fee 5.00, total 27.6692 (in cents). */
  lemma InitialCartTotals()
    ensures AllPositive(InitialCart)
    ensures Subtotal(InitialCart) == 2099
    ensures Tax(InitialCart) == 167.92
    ensures Total(InitialCart) == 2766.92
  {
    assert Subtotal(InitialCart) == 2099;
  }
}
