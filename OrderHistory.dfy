/** The order history table (`src/components/profile/OrderHistoryTable.tsx`): a badge
    per status, an item count per order, a shortened id, and a message instead of
    the table when there are no orders. */
module OrderHistoryTable {
  import opened Seqs
  import opened Text

  datatype Status = Pending | Processing | Shipped | Delivered | Cancelled

  datatype BadgeVariant = DefaultBadge | SecondaryBadge | OutlineBadge | SuccessBadge | DestructiveBadge

  datatype OrderItem = OrderItem(id: string, productName: string, quantity: int, priceCents: int)

  datatype Order = Order(id: string, orderDate: string, status: Status, totalAmountCents: int, items: seq<OrderItem>)

  /** `getStatusBadgeVariant`. The `switch`'s `default` case cannot be reached: the
      five cases cover the status type. */
  function StatusBadgeVariant(s: Status): BadgeVariant {
    match s
    case Delivered => SuccessBadge
    case Pending => DefaultBadge
    case Processing => SecondaryBadge
    case Shipped => OutlineBadge
    case Cancelled => DestructiveBadge
  }

  /** Reads a status back from its badge. */
  function StatusOfBadge(b: BadgeVariant): Status {
    match b
    case SuccessBadge => Delivered
    case DefaultBadge => Pending
    case SecondaryBadge => Processing
    case OutlineBadge => Shipped
    case DestructiveBadge => Cancelled
  }

  /** Each status has its own badge and every badge belongs to a status: the mapping
      is a bijection. */
  lemma BadgeIsBijection(s: Status, b: BadgeVariant)
    ensures StatusOfBadge(StatusBadgeVariant(s)) == s
    ensures StatusBadgeVariant(StatusOfBadge(b)) == b
  {
    match s
    case Delivered =>
    case Pending =>
    case Processing =>
    case Shipped =>
    case Cancelled =>
  }

  lemma BadgeInjective(s: Status, t: Status)
    ensures StatusBadgeVariant(s) == StatusBadgeVariant(t) <==> s == t
  {
    BadgeIsBijection(s, DefaultBadge);
    BadgeIsBijection(t, DefaultBadge);
  }

  function ItemQuantity(): OrderItem -> int {
    (i: OrderItem) => i.quantity
  }

  /** The Items column: the quantities of the order's items added up from the left,
      starting at 0. */
  function ItemCount(o: Order): int {
    SumLeft(0, o.items, ItemQuantity())
  }

  function QuantitiesSum(items: seq<OrderItem>): int
    decreases |items|
  {
    if items == [] then 0 else items[0].quantity + QuantitiesSum(items[1..])
  }

  /** The item count is the sum of the items' quantities: 0 for no items, and the
      counts of two item lists add up. */
  lemma {:induction false} ItemCountIsQuantitiesSum(o: Order)
    ensures ItemCount(o) == QuantitiesSum(o.items)
    ensures o.items == [] ==> ItemCount(o) == 0
  {
    SumLeftIsSum(0, o.items, ItemQuantity());
    SumIsQuantitiesSum(o.items);
  }

  lemma {:induction false} SumIsQuantitiesSum(items: seq<OrderItem>)
    ensures Sum(items, ItemQuantity()) == QuantitiesSum(items)
    decreases |items|
  {
    if items != [] {
      SumIsQuantitiesSum(items[1..]);
    }
  }

  lemma ItemCountAppend(o: Order, more: seq<OrderItem>)
    ensures ItemCount(o.(items := o.items + more)) == ItemCount(o) + ItemCount(o.(items := more))
  {
    SumLeftIsSum(0, o.items + more, ItemQuantity());
    SumLeftIsSum(0, o.items, ItemQuantity());
    SumLeftIsSum(0, more, ItemQuantity());
    SumAppend(o.items, more, ItemQuantity());
  }

  /** The Order ID cell: a hash sign, the id cut to its first eight
      characters. */
  function IdCell(id: string): (r: string)
    ensures |r| == 4 + (if |id| < 8 then |id| else 8)
    ensures r[0] == '#' && r[|r| - 3..] == "..."
    ensures StartsWith(id, r[1..|r| - 3])
  {
    "#" + Take(id, 8) + "..."
  }

  datatype Row = Row(idCell: string, orderDate: string, status: Status, badge: BadgeVariant, totalAmountCents: int, itemCount: int)

  /** Either the "You have no past orders." message or one row per order. */
  datatype HistoryView = NoPastOrders | Table(rows: seq<Row>)

  function RowOf(o: Order): Row {
    Row(IdCell(o.id), o.orderDate, o.status, StatusBadgeVariant(o.status), o.totalAmountCents, ItemCount(o))
  }

  function Render(orders: seq<Order>): (v: HistoryView)
    ensures v.NoPastOrders? <==> orders == []
    ensures v.Table? ==> |v.rows| == |orders| && forall i :: 0 <= i < |orders| ==> v.rows[i] == RowOf(orders[i])
  {
    if |orders| == 0 then NoPastOrders
    else Table(seq(|orders|, i requires 0 <= i < |orders| => RowOf(orders[i])))
  }

  /** The profile's two placeholder orders. */
  const PlaceholderOrders: seq<Order> := [
    Order("ord123xyz", "2023-10-26", Delivered, 3550,
      [OrderItem("p1", "Pizza", 1, 2000), OrderItem("d1", "Coke", 2, 275)]),
    Order("ord456abc", "2023-10-28", Processing, 2200,
      [OrderItem("b1", "Burger", 2, 1100)])
  ]

  /** The placeholder orders render as two rows: "#ord123xy..." with 3 items and a
      success badge, then "#ord456ab..." with 2 items and a secondary badge. */
  lemma PlaceholderRows()
    ensures Render(PlaceholderOrders).Table?
    ensures Render(PlaceholderOrders).rows[0].idCell == "#ord123xy..."
    ensures Render(PlaceholderOrders).rows[0].itemCount == 3
    ensures Render(PlaceholderOrders).rows[0].badge == SuccessBadge
    ensures Render(PlaceholderOrders).rows[1].idCell == "#ord456ab..."
    ensures Render(PlaceholderOrders).rows[1].itemCount == 2
    ensures Render(PlaceholderOrders).rows[1].badge == SecondaryBadge
  {
    assert Take("ord123xyz", 8) == "ord123xy";
    assert Take("ord456abc", 8) == "ord456ab";
  }
}
