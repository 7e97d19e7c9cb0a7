/**
 * The cart and order handlers of swiggy/views.py over one store of tables.
 * Each handler is one sequential method; the code uses no transaction, and
 * concurrency between requests is not part of this model.
 */
module Views {
  import opened Wrappers
  import opened Models
  import opened Responses
  import opened Workflow
  import opened CartLogic

  /** One entry of the `items` list `view_cart` replies with. */
  datatype CartRow = CartRow(item: ItemId, price: Money, quantity: nat, subtotal: Money)

  /** The row `view_cart` shows for `u`'s line of item `i`, priced at the item's current price. */
  function RowFor(cart: Lines, prices: map<ItemId, Money>, u: UserId, i: ItemId): (row: CartRow)
    requires (u, i) in cart && i in prices
    ensures row.item == i && row.quantity == cart[(u, i)] && row.price == prices[i]
    ensures row.subtotal == Subtotal(row.price, row.quantity)
  {
    CartRow(i, prices[i], cart[(u, i)], Subtotal(prices[i], cart[(u, i)]))
  }

  /** The OrderItem row `place_order` writes for `u`'s line of item `i` into order `o`. */
  function LineFor(cart: Lines, prices: map<ItemId, Money>, u: UserId, o: OrderId, i: ItemId): (l: OrderLine)
    requires (u, i) in cart && i in prices
    ensures l.order == o && l.item == i && l.quantity == cart[(u, i)] && l.price == prices[i]
  {
    OrderLine(o, i, cart[(u, i)], prices[i])
  }

  /** The items the rows `rows` show. */
  function RowItems(rows: seq<CartRow>): (r: set<ItemId>)
    ensures forall row | row in rows :: row.item in r
  {
    if rows == [] then {} else RowItems(rows[..|rows| - 1]) + {rows[|rows| - 1].item}
  }

  /** The items the order lines `lines` refer to. */
  function LineItems(lines: seq<OrderLine>): (r: set<ItemId>)
    ensures forall l | l in lines :: l.item in r
  {
    if lines == [] then {} else LineItems(lines[..|lines| - 1]) + {lines[|lines| - 1].item}
  }

  /**
   * The quantity `add_to_cart` uses when the request gives none. It is the
   * handler's own literal; because the handler always passes its quantity
   * to `get_or_create`, the field default `DEFAULT_QUANTITY` never applies,
   * and the two only happen to agree.
   */
  const REQUEST_DEFAULT_QUANTITY: int := 1

  /** The quantity a request asks for: `request.data.get("quantity", 1)`. */
  function RequestedQuantity(quantity: Option<int>): (q: int)
    ensures quantity.None? ==> q == REQUEST_DEFAULT_QUANTITY
    ensures quantity.Some? ==> q == quantity.value
  {
    quantity.GetOr(REQUEST_DEFAULT_QUANTITY)
  }

  /**
   * Every order line names an existing order, and every order has at least
   * one line and a total equal to the sum of its own lines' captured
   * price × quantity.
   */
  ghost predicate OrdersConsistent(orders: seq<Order>, lines: seq<OrderLine>) {
    && (forall l | l in lines :: l.order < |orders|)
    && (forall o | 0 <= o < |orders| :: LineCount(lines, o) >= 1)
    && (forall o | 0 <= o < |orders| :: orders[o].total == LinesTotal(lines, o))
  }

  /**
   * Appending a new order together with a non-empty batch of its own lines
   * whose amounts sum to its total keeps the order tables consistent.
   */
  lemma AppendOrder(orders: seq<Order>, before: seq<OrderLine>, order: Order, added: seq<OrderLine>)
    requires OrdersConsistent(orders, before)
    requires forall l | l in added :: l.order == |orders|
    requires LineCount(added, |orders|) >= 1 && LinesTotal(added, |orders|) == order.total
    ensures OrdersConsistent(orders + [order], before + added)
  {
    var id := |orders|;
    forall o | o != id
      ensures LinesTotal(before + added, o) == LinesTotal(before, o)
      ensures LineCount(before + added, o) == LineCount(before, o)
    {
      ConcatLines(before, added, o);
      LinesOfOtherOrders(added, o);
    }
    ConcatLines(before, added, id);
    LinesOfOtherOrders(before, id);
    forall l | l in before + added ensures l.order < id + 1 {
      if l !in before {
        assert l in added;
      }
    }
  }

  /** `done` and `remaining` split `items` between them. */
  ghost predicate Partition(items: set<ItemId>, done: set<ItemId>, remaining: set<ItemId>) {
    remaining !! done && remaining + done == items
  }

  /**
   * Partway through the loop of `place_order`: `added` holds one line of
   * order `id` for each item of `written`, and `remaining` holds the items
   * still to visit.
   */
  ghost predicate Written(c: Lines, p: map<ItemId, Money>, u: UserId, id: OrderId, items: set<ItemId>,
                          added: seq<OrderLine>, written: set<ItemId>, remaining: set<ItemId>)
  {
    && (forall i | i in items :: (u, i) in c && i in p)
    && Partition(items, written, remaining)
    && |added| == |written|
    && (forall l | l in added :: l.item in written && l == LineFor(c, p, u, id, l.item))
    && LineItems(added) == written
  }

  /** Writing the line of one more item keeps `Written`. */
  lemma WriteStep(c: Lines, p: map<ItemId, Money>, u: UserId, id: OrderId, items: set<ItemId>,
                  added: seq<OrderLine>, written: set<ItemId>, remaining: set<ItemId>, i: ItemId)
    requires Written(c, p, u, id, items, added, written, remaining)
    requires i in remaining
    ensures Written(c, p, u, id, items, added + [LineFor(c, p, u, id, i)], written + {i}, remaining - {i})
  {
  }

  /**
   * Partway through the loop of `view_cart`: `rows` holds one row for each
   * item of `shown`.
   */
  ghost predicate Shown(c: Lines, p: map<ItemId, Money>, u: UserId, items: set<ItemId>,
                        rows: seq<CartRow>, shown: set<ItemId>, remaining: set<ItemId>)
  {
    && (forall i | i in items :: (u, i) in c && i in p)
    && Partition(items, shown, remaining)
    && |rows| == |shown|
    && (forall row | row in rows :: row.item in shown && row == RowFor(c, p, u, row.item))
    && RowItems(rows) == shown
  }

  /** Showing the row of one more item keeps `Shown`. */
  lemma ShowStep(c: Lines, p: map<ItemId, Money>, u: UserId, items: set<ItemId>,
                 rows: seq<CartRow>, shown: set<ItemId>, remaining: set<ItemId>, i: ItemId)
    requires Shown(c, p, u, items, rows, shown, remaining)
    requires i in remaining
    ensures Shown(c, p, u, items, rows + [RowFor(c, p, u, i)], shown + {i}, remaining - {i})
  {
  }

  /** When no item remains, `Shown` says the rows are exactly one per item. */
  lemma ShownDone(c: Lines, p: map<ItemId, Money>, u: UserId, items: set<ItemId>, rows: seq<CartRow>, shown: set<ItemId>)
    requires Shown(c, p, u, items, rows, shown, {})
    ensures |rows| == |items| && RowItems(rows) == items
    ensures forall row | row in rows :: row.item in items && row == RowFor(c, p, u, row.item)
  {
  }

  /** When no item remains, `Written` says the lines are exactly one per item. */
  lemma WrittenDone(c: Lines, p: map<ItemId, Money>, u: UserId, id: OrderId, items: set<ItemId>,
                    added: seq<OrderLine>, written: set<ItemId>)
    requires Written(c, p, u, id, items, added, written, {})
    ensures |added| == |items| && LineItems(added) == items
    ensures forall l | l in added :: l.item in items && l == LineFor(c, p, u, id, l.item)
  {
  }

  /** `rows` show `u`'s cart: exactly one row for each cart line, priced now. */
  ghost predicate OneRowPerCartLine(cart: Lines, prices: map<ItemId, Money>, u: UserId, rows: seq<CartRow>)
    requires Priced(cart, prices)
  {
    && |rows| == |UserItems(cart, u)|
    && RowItems(rows) == UserItems(cart, u)
    && (forall row | row in rows :: row.item in UserItems(cart, u) && row == RowFor(cart, prices, u, row.item))
  }

  /** The `items` list of `view_cart`: one row per cart line of `u`, in whatever order the lines are visited. */
  method RowsFor(cart: Lines, prices: map<ItemId, Money>, u: UserId) returns (rows: seq<CartRow>)
    requires Priced(cart, prices)
    ensures OneRowPerCartLine(cart, prices, u, rows)
  {
    var items := UserItems(cart, u);
    var remaining := items;
    ghost var shown: set<ItemId> := {};
    rows := [];
    while remaining != {}
      invariant Shown(cart, prices, u, items, rows, shown, remaining)
      decreases remaining
    {
      var i :| i in remaining;
      ShowStep(cart, prices, u, items, rows, shown, remaining, i);
      rows := rows + [RowFor(cart, prices, u, i)];
      remaining, shown := remaining - {i}, shown + {i};
    }
    ShownDone(cart, prices, u, items, rows, shown);
  }

  /**
   * `lines` are the order lines of order `id` for `u`'s cart: exactly one
   * for each cart line, carrying its item, its quantity and the item's
   * price.
   */
  ghost predicate OneLinePerCartLine(cart: Lines, prices: map<ItemId, Money>, u: UserId, id: OrderId,
                                     lines: seq<OrderLine>)
    requires Priced(cart, prices)
  {
    && |lines| == |UserItems(cart, u)|
    && LineItems(lines) == UserItems(cart, u)
    && (forall l | l in lines :: l.item in UserItems(cart, u) && l == LineFor(cart, prices, u, id, l.item))
  }

  /** A list of items never has more distinct items than entries. */
  lemma {:induction false} LineItemsBound(lines: seq<OrderLine>)
    ensures |LineItems(lines)| <= |lines|
  {
    if lines != [] {
      LineItemsBound(lines[..|lines| - 1]);
    }
  }

  /**
   * Whatever order the cart lines are visited in, lines of order `id` that
   * are exactly one per item of `items` carry that order's whole amount
   * and add up to the sum of the items' subtotals.
   */
  lemma {:induction false} OneLinePerItemTotal(c: Lines, p: map<ItemId, Money>, u: UserId, id: OrderId,
                                               items: set<ItemId>, lines: seq<OrderLine>)
    requires forall i | i in items :: (u, i) in c && i in p
    requires |lines| == |items| && LineItems(lines) == items
    requires forall l | l in lines :: l.item in items && l == LineFor(c, p, u, id, l.item)
    ensures LineCount(lines, id) == |lines|
    ensures LinesTotal(lines, id) == SumOver(c, p, u, items)
    decreases lines
  {
    if lines != [] {
      var init, last := lines[..|lines| - 1], lines[|lines| - 1];
      LineItemsBound(init);
      assert LineItems(init) + {last.item} == items;
      assert LineItems(init) != items;
      var rest := items - {last.item};
      assert LineItems(init) == rest;
      OneLinePerItemTotal(c, p, u, id, rest, init);
      SumOverPick(c, p, u, items, last.item);
    }
  }

  /**
   * The loop of `place_order`: one line of order `id` for each of `u`'s
   * cart lines, in whatever order the lines are visited, carrying the
   * line's item and quantity and the item's current price; their amounts
   * add up to the cart's total.
   */
  method OrderLinesFor(cart: Lines, prices: map<ItemId, Money>, u: UserId, id: OrderId) returns (lines: seq<OrderLine>)
    requires Priced(cart, prices)
    ensures OneLinePerCartLine(cart, prices, u, id, lines)
    ensures LineCount(lines, id) == |lines|
    ensures LinesTotal(lines, id) == CartTotal(cart, prices, u)
  {
    var items := UserItems(cart, u);
    var remaining := items;
    ghost var written: set<ItemId> := {};
    lines := [];
    while remaining != {}
      invariant Written(cart, prices, u, id, items, lines, written, remaining)
      decreases remaining
    {
      var i :| i in remaining;
      WriteStep(cart, prices, u, id, items, lines, written, remaining, i);
      lines := lines + [LineFor(cart, prices, u, id, i)];
      remaining, written := remaining - {i}, written + {i};
    }
    WrittenDone(cart, prices, u, id, items, lines, written);
    OneLinePerItemTotal(cart, prices, u, id, items, lines);
  }

  class Store {
    /** The price of each menu item. */
    var prices: map<ItemId, Money>
    /** The cart table. */
    var cart: Lines
    /** The order table; an order's id is its index. */
    var orders: seq<Order>
    /** The order-line table, in the order its rows were written. */
    var orderLines: seq<OrderLine>

    /** Cart lines name priced items, and the order tables are consistent. */
    ghost predicate Valid()
      reads this
    {
      Priced(cart, prices) && OrdersConsistent(orders, orderLines)
    }

    /** A store with the given menu prices and no cart lines or orders. */
    constructor (prices: map<ItemId, Money>)
      ensures Valid()
      ensures this.prices == prices && cart == map[] && orders == [] && orderLines == []
    {
      this.prices := prices;
      cart := map[];
      orders := [];
      orderLines := [];
    }

    /**
     * A change of a menu item's price made outside the cart and order
     * handlers: item `i` now costs `price`. Cart subtotals follow the new
     * price; orders and order lines keep theirs.
     */
    method ChangePrice(i: ItemId, price: Money)
      requires Valid()
      modifies this`prices
      ensures Valid()
      ensures prices == old(prices)[i := price]
    {
      prices := prices[i := price];
    }

    /** `add_to_cart`: get-or-create the (user, item) line, then add the requested quantity. */
    method AddToCart(u: UserId, item: ItemId, quantity: Option<int>) returns (r: Result<(), Error>)
      requires Valid()
      modifies this`cart
      ensures Valid()
      ensures var spec := AddLine(old(cart), prices, u, item, RequestedQuantity(quantity));
              && r.Success? == spec.Success?
              && (r.Failure? ==> r.error == spec.error && cart == old(cart))
              && (r.Success? ==> cart == spec.value)
    {
      var qty := RequestedQuantity(quantity);
      if item !in prices {
        return Failure(NotFound);
      }
      if (u, item) !in cart {
        if qty < 0 {
          return Failure(IntegrityError);
        }
        cart := cart[(u, item) := qty];
      } else {
        var q := cart[(u, item)] + qty;
        if q < 0 {
          return Failure(IntegrityError);
        }
        cart := cart[(u, item) := q];
      }
      r := Success(());
    }

    /** `remove_from_cart`: delete the (user, item) line, or reply not found and change nothing. */
    method RemoveFromCart(u: UserId, item: ItemId) returns (r: Result<(), Error>)
      requires Valid()
      modifies this`cart
      ensures Valid()
      ensures var spec := RemoveLine(old(cart), u, item);
              && r.Success? == spec.Success?
              && (r.Failure? ==> r.error == NotFound && cart == old(cart))
              && (r.Success? ==> cart == spec.value)
    {
      if (u, item) !in cart {
        return Failure(NotFound);
      }
      cart := cart - {(u, item)};
      r := Success(());
    }

    /** `sum([c.subtotal for c in cart_items])` over `u`'s lines. */
    method Total(u: UserId) returns (total: Money)
      requires Valid()
      ensures total == CartTotal(cart, prices, u)
    {
      var remaining := UserItems(cart, u);
      total := 0;
      while remaining != {}
        invariant remaining <= UserItems(cart, u)
        invariant total + SumOver(cart, prices, u, remaining) == CartTotal(cart, prices, u)
        decreases remaining
      {
        var i :| i in remaining;
        SumOverPick(cart, prices, u, remaining, i);
        total := total + Subtotal(prices[i], cart[(u, i)]);
        remaining := remaining - {i};
      }
    }

    /** `view_cart`: one row per line of `u`, priced now, and the total of their subtotals. */
    method ViewCart(u: UserId) returns (rows: seq<CartRow>, total: Money)
      requires Valid()
      ensures total == CartTotal(cart, prices, u)
      ensures OneRowPerCartLine(cart, prices, u, rows)
    {
      total := Total(u);
      rows := RowsFor(cart, prices, u);
    }

    /**
     * `place_order`: refuse an empty cart; otherwise freeze the cart's
     * total into a new order, write one order line per cart line with the
     * item's current price, and delete the user's cart lines.
     */
    method PlaceOrder(u: UserId) returns (r: Result<(OrderId, Money), Error>)
      requires Valid()
      modifies this`cart, this`orders, this`orderLines
      ensures Valid()
      ensures UserItems(old(cart), u) == {} ==>
                r == Failure(EmptyCart) && cart == old(cart) && orders == old(orders) && orderLines == old(orderLines)
      ensures UserItems(old(cart), u) != {} ==>
                var id, total := |old(orders)|, CartTotal(old(cart), prices, u);
                && r == Success((id, total))
                && orders == old(orders) + [Order(u, total, PLACED)]
                && cart == WithoutUser(old(cart), u)
                && |old(orderLines)| <= |orderLines| && orderLines[..|old(orderLines)|] == old(orderLines)
                && OneLinePerCartLine(old(cart), prices, u, id, orderLines[|old(orderLines)|..])
    {
      var items := UserItems(cart, u);
      if items == {} {
        return Failure(EmptyCart);
      }
      var total := Total(u);
      var id := |orders|;
      orders := orders + [Order(u, total, PLACED)];
      var lines := OrderLinesFor(cart, prices, u, id);
      AppendOrder(old(orders), orderLines, Order(u, total, PLACED), lines);
      assert (orderLines + lines)[..|orderLines|] == orderLines && (orderLines + lines)[|orderLines|..] == lines;
      orderLines := orderLines + lines;
      cart := WithoutUser(cart, u);
      WithoutUserPriced(old(cart), prices, u);
      r := Success((id, total));
    }

    /**
     * `update_order_status`: move order `id` to `requested` when that is
     * the one status the workflow allows next, and reply with the previous
     * and the new status; otherwise reply with the error and change nothing.
     */
    method UpdateStatus(id: OrderId, requested: Option<string>) returns (r: Result<(string, string), Error>)
      requires Valid()
      modifies this`orders
      ensures Valid()
      ensures id >= |old(orders)| ==> r == Failure(NotFound) && orders == old(orders)
      ensures id < |old(orders)| ==>
                var current := old(orders)[id].status;
                match Transition(current, requested)
                case Failure(e) => r == Failure(e) && orders == old(orders)
                case Success(next) =>
                  && r == Success((current, next))
                  && orders == old(orders)[id := old(orders)[id].(status := next)]
    {
      if id >= |orders| {
        return Failure(NotFound);
      }
      var current := orders[id].status;
      match Transition(current, requested)
      case Failure(e) =>
        r := Failure(e);
      case Success(next) =>
        orders := orders[id := orders[id].(status := next)];
        r := Success((current, next));
    }
  }
}
