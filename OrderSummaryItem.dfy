/** One cart line's controls (`src/components/checkout/OrderSummaryItem.tsx`). The
    component holds no state: each control decides which of the two callbacks it
    receives to fire, from the line's id and current quantity. */
module OrderSummaryItem {
  import opened Optional

  /** A callback invocation: the quantity-change callback with an id and a new
      quantity, or the remove callback with an id. */
  datatype ItemEvent = QuantityChange(id: string, quantity: int) | Remove(id: string)

  /** The "+" button. */
  function Increment(id: string, quantity: int): (e: ItemEvent)
    ensures e.id == id
    ensures e.QuantityChange? && e.quantity > quantity
    ensures e.quantity - quantity == 1
  {
    QuantityChange(id, quantity + 1)
  }

  /** The "-" button: one less while more than one is left, otherwise removal.
      It never asks for a quantity below 1. */
  function Decrement(id: string, quantity: int): (e: ItemEvent)
    ensures e.id == id
    ensures e.Remove? <==> quantity <= 1
    ensures e.QuantityChange? ==> e.quantity >= 1 && e.quantity == quantity - 1
  {
    if quantity > 1 then QuantityChange(id, quantity - 1) else Remove(id)
  }

  /** The number field, given the decimal parse of its text, `None` when that is not
      a number: it fires only
      for a number that is not negative, and zero is passed on. */
  function QuantityInput(id: string, parsed: Option<int>): (e: Option<ItemEvent>)
    ensures e.Some? <==> parsed.Some? && parsed.value >= 0
    ensures e.Some? ==> e.value.QuantityChange? && e.value.id == id && e.value.quantity == parsed.value
  {
    if parsed.Some? && parsed.value >= 0 then Some(QuantityChange(id, parsed.value)) else None
  }

  /** The "x" button removes the line whatever its quantity. */
  function RemoveClick(id: string): (e: ItemEvent)
    ensures e.Remove? && e.id == id
  {
    Remove(id)
  }

  /** The amount shown at the right of the line, in cents: the price times the
      quantity. It is 0 for no items and never negative for a price and quantity
      that are not negative. */
  function LineTotal(priceCents: int, quantity: int): (r: int)
    ensures quantity == 0 ==> r == 0
    ensures priceCents >= 0 && quantity >= 0 ==> r >= 0
  {
    priceCents * quantity
  }

  /** Each "+" press adds exactly one price to the amount shown, and each "-" press
      that does not remove the line takes exactly one price off. */
  lemma StepChangesLineTotalByPrice(id: string, priceCents: int, quantity: int)
    ensures LineTotal(priceCents, Increment(id, quantity).quantity) == LineTotal(priceCents, quantity) + priceCents
    ensures Decrement(id, quantity).QuantityChange? ==>
      LineTotal(priceCents, Decrement(id, quantity).quantity) == LineTotal(priceCents, quantity) - priceCents
  {
    assert priceCents * (quantity + 1) == priceCents * quantity + priceCents;
    assert priceCents * (quantity - 1) == priceCents * quantity - priceCents;
  }
}
