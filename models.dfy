/**
 * The tables of swiggy/models.py that the cart and order handlers use:
 * menu prices, cart lines, orders and order lines, with the declared
 * order statuses and the defaults of the fields.
 */
module Models {

  type UserId = nat
  type ItemId = nat
  /** An order's id: its position in the order table. */
  type OrderId = nat

  /**
   * A `DecimalField(decimal_places=2)` held exactly as a whole number of
   * hundredths (paise): 10.00 is 1000 and 5.50 is 550. The field is signed.
   */
  type Money = int

  /** `CartItem.quantity` defaults to 1 when a line is created without a quantity. */
  const DEFAULT_QUANTITY: nat := 1

  const PENDING: string := "PENDING"
  const ACCEPTED: string := "ACCEPTED"
  const PREPARING: string := "PREPARING"
  const OUT_FOR_DELIVERY: string := "OUT_FOR_DELIVERY"
  const DELIVERED: string := "DELIVERED"

  /** The values `Order.STATUS_CHOICES` declares, in declaration order. */
  const STATUS_CHOICES: seq<string> := [PENDING, ACCEPTED, PREPARING, OUT_FOR_DELIVERY, DELIVERED]

  /** `Order.status` defaults to PENDING. */
  const DEFAULT_STATUS: string := PENDING

  /** A row of the Order table; `total` is `total_amount`. */
  datatype Order = Order(user: UserId, total: Money, status: string)

  /** A row of the OrderItem table: the price is a copy taken when the row is written. */
  datatype OrderLine = OrderLine(order: OrderId, item: ItemId, quantity: nat, price: Money)

  /** `CartItem.subtotal`: the item's price times the line's quantity. */
  function Subtotal(price: Money, quantity: nat): (r: Money)
    ensures quantity == 0 ==> r == 0
    ensures price >= 0 ==> r >= 0
  {
    price * quantity
  }

  /** Raising a line's quantity by `more` raises its subtotal by `more` times the price. */
  lemma SubtotalAdditive(price: Money, quantity: nat, more: int)
    requires quantity + more >= 0
    ensures Subtotal(price, quantity + more) == Subtotal(price, quantity) + price * more
  {
  }

  /** The amount an order line contributes to its order's total. */
  function LineAmount(l: OrderLine): Money {
    Subtotal(l.price, l.quantity)
  }

  /**
   * The sum of the amounts of the lines of `lines` that belong to order `o`:
   * what the order's `total_amount` must equal. Lines at non-negative
   * prices never sum below 0.
   */
  function LinesTotal(lines: seq<OrderLine>, o: OrderId): (r: Money)
    ensures (forall l | l in lines :: l.price >= 0) ==> r >= 0
  {
    if lines == [] then 0
    else
      var last := lines[|lines| - 1];
      LinesTotal(lines[..|lines| - 1], o) + (if last.order == o then LineAmount(last) else 0)
  }

  /** How many lines of `lines` belong to order `o`. */
  function LineCount(lines: seq<OrderLine>, o: OrderId): (n: nat)
    ensures n <= |lines|
  {
    if lines == [] then 0
    else LineCount(lines[..|lines| - 1], o) + (if lines[|lines| - 1].order == o then 1 else 0)
  }

  /** Appending a line changes only the total and the count of the order it belongs to. */
  lemma {:induction false} AppendLine(lines: seq<OrderLine>, l: OrderLine, o: OrderId)
    ensures LinesTotal(lines + [l], o) == LinesTotal(lines, o) + (if l.order == o then LineAmount(l) else 0)
    ensures LineCount(lines + [l], o) == LineCount(lines, o) + (if l.order == o then 1 else 0)
  {
  }

  /** Totals and counts of two stretches of the order-line table add up. */
  lemma {:induction false} ConcatLines(a: seq<OrderLine>, b: seq<OrderLine>, o: OrderId)
    ensures LinesTotal(a + b, o) == LinesTotal(a, o) + LinesTotal(b, o)
    ensures LineCount(a + b, o) == LineCount(a, o) + LineCount(b, o)
  {
    if b != [] {
      var init, last := b[..|b| - 1], b[|b| - 1];
      assert a + b == (a + init) + [last];
      AppendLine(a + init, last, o);
      ConcatLines(a, init, o);
    } else {
      assert a + b == a;
    }
  }

  /** An order's total and line count depend only on its own lines. */
  lemma {:induction false} LinesOfOtherOrders(lines: seq<OrderLine>, o: OrderId)
    requires forall l | l in lines :: l.order != o
    ensures LinesTotal(lines, o) == 0 && LineCount(lines, o) == 0
  {
    if lines != [] {
      LinesOfOtherOrders(lines[..|lines| - 1], o);
    }
  }
}
