/**
 * The cart table as the handlers of swiggy/views.py see it: one line per
 * (user, item) with a quantity. The subtotal of a line is always computed
 * from the item's current price.
 */
module CartLogic {
  import opened Wrappers
  import opened Models
  import opened Responses

  /** The CartItem rows: the quantity of each (user, item) line. */
  type Lines = map<(UserId, ItemId), nat>

  /** Every cart line refers to an item that has a price. */
  ghost predicate Priced(cart: Lines, prices: map<ItemId, Money>) {
    forall k | k in cart :: k.1 in prices
  }

  /** The items of the lines `CartItem.objects.filter(user=u)` selects. */
  function UserItems(cart: Lines, u: UserId): (r: set<ItemId>)
    ensures forall i :: i in r <==> (u, i) in cart
  {
    set k | k in cart && k.0 == u :: k.1
  }

  /** The cart with every line of `u` deleted and every other line kept. */
  function WithoutUser(cart: Lines, u: UserId): (r: Lines)
    ensures forall k :: k in r <==> k in cart && k.0 != u
    ensures forall k | k in r :: r[k] == cart[k]
  {
    map k | k in cart && k.0 != u :: cart[k]
  }

  /** Deleting a user's lines keeps every remaining line priced. */
  lemma WithoutUserPriced(cart: Lines, prices: map<ItemId, Money>, u: UserId)
    requires Priced(cart, prices)
    ensures Priced(WithoutUser(cart, u), prices)
  {
  }

  /**
   * The sum of `price × quantity` over the lines of `u` for the items in
   * `items`, visited in an arbitrary order. Non-negative prices give a
   * non-negative sum.
   */
  ghost function SumOver(cart: Lines, prices: map<ItemId, Money>, u: UserId, items: set<ItemId>): (r: Money)
    requires forall i | i in items :: (u, i) in cart && i in prices
    ensures (forall i | i in items :: prices[i] >= 0) ==> r >= 0
    decreases items
  {
    if items == {} then 0
    else
      var i :| i in items;
      Subtotal(prices[i], cart[(u, i)]) + SumOver(cart, prices, u, items - {i})
  }

  /**
   * The `view_cart` and `place_order` total: the sum of the subtotals of all
   * of `u`'s lines. A cart of items at non-negative prices never totals
   * below 0.
   */
  ghost function CartTotal(cart: Lines, prices: map<ItemId, Money>, u: UserId): (r: Money)
    requires Priced(cart, prices)
    ensures (forall i | i in UserItems(cart, u) :: prices[i] >= 0) ==> r >= 0
  {
    SumOver(cart, prices, u, UserItems(cart, u))
  }

  /** The sum does not depend on the order in which lines are visited: any item can be taken first. */
  lemma {:induction false} SumOverPick(cart: Lines, prices: map<ItemId, Money>, u: UserId, items: set<ItemId>, i: ItemId)
    requires forall j | j in items :: (u, j) in cart && j in prices
    requires i in items
    ensures SumOver(cart, prices, u, items) ==
              Subtotal(prices[i], cart[(u, i)]) + SumOver(cart, prices, u, items - {i})
    decreases items
  {
    var j :| j in items && SumOver(cart, prices, u, items) ==
               Subtotal(prices[j], cart[(u, j)]) + SumOver(cart, prices, u, items - {j});
    if j != i {
      SumOverPick(cart, prices, u, items - {j}, i);
      SumOverPick(cart, prices, u, items - {i}, j);
      assert items - {j} - {i} == items - {i} - {j};
    }
  }

  /** Two carts and price lists that agree on the lines summed give the same sum. */
  lemma {:induction false} SumOverAgree(c1: Lines, p1: map<ItemId, Money>, c2: Lines, p2: map<ItemId, Money>,
                                        u: UserId, items: set<ItemId>)
    requires forall i | i in items :: (u, i) in c1 && i in p1 && (u, i) in c2 && i in p2
    requires forall i | i in items :: c1[(u, i)] == c2[(u, i)] && p1[i] == p2[i]
    ensures SumOver(c1, p1, u, items) == SumOver(c2, p2, u, items)
    decreases items
  {
    if items != {} {
      var i :| i in items;
      SumOverPick(c1, p1, u, items, i);
      SumOverPick(c2, p2, u, items, i);
      SumOverAgree(c1, p1, c2, p2, u, items - {i});
    }
  }

  /** An empty cart totals 0. */
  lemma EmptyCartTotal(cart: Lines, prices: map<ItemId, Money>, u: UserId)
    requires Priced(cart, prices)
    requires UserItems(cart, u) == {}
    ensures CartTotal(cart, prices, u) == 0
  {
  }

  /**
   * `add_to_cart` on the cart table: get-or-create the (u, i) line with
   * `qty`, or add `qty` to the existing one. The item must exist, and the
   * database refuses a line whose quantity would fall below 0.
   */
  function AddLine(cart: Lines, prices: map<ItemId, Money>, u: UserId, i: ItemId, qty: int): (r: Result<Lines, Error>)
    ensures i !in prices ==> r == Failure(NotFound)
    ensures i in prices && (u, i) !in cart ==>
              r == (if qty < 0 then Failure(IntegrityError) else Success(cart[(u, i) := qty]))
    ensures i in prices && (u, i) in cart ==>
              r == (if cart[(u, i)] + qty < 0 then Failure(IntegrityError)
                    else Success(cart[(u, i) := cart[(u, i)] + qty]))
    ensures r.Success? ==> r.value.Keys == cart.Keys + {(u, i)}
    ensures r.Success? ==> forall k | k in cart && k != (u, i) :: r.value[k] == cart[k]
  {
    if i !in prices then Failure(NotFound)
    else
      var start := if (u, i) in cart then cart[(u, i)] else 0;
      if start + qty < 0 then Failure(IntegrityError)
      else Success(cart[(u, i) := start + qty])
  }

  /** `remove_from_cart` on the cart table: delete the (u, i) line, which must exist. */
  function RemoveLine(cart: Lines, u: UserId, i: ItemId): (r: Result<Lines, Error>)
    ensures r.Failure? <==> (u, i) !in cart
    ensures r.Failure? ==> r.error == NotFound
    ensures r.Success? ==> r.value.Keys == cart.Keys - {(u, i)}
    ensures r.Success? ==> forall k | k in r.value :: r.value[k] == cart[k]
  {
    if (u, i) !in cart then Failure(NotFound) else Success(cart - {(u, i)})
  }

  /** Two adds of q1 and q2 that both succeed leave the same cart as one add of q1 + q2. */
  lemma AddTwiceAccumulates(cart: Lines, prices: map<ItemId, Money>, u: UserId, i: ItemId, q1: int, q2: int)
    requires AddLine(cart, prices, u, i, q1).Success?
    requires AddLine(AddLine(cart, prices, u, i, q1).value, prices, u, i, q2).Success?
    ensures AddLine(cart, prices, u, i, q1 + q2) == AddLine(AddLine(cart, prices, u, i, q1).value, prices, u, i, q2)
  {
    var c1 := AddLine(cart, prices, u, i, q1).value;
    var c2 := AddLine(c1, prices, u, i, q2).value;
    assert c2 == cart[(u, i) := c2[(u, i)]];
  }

  /** Adding `qty` of an item raises the user's total by price × qty and leaves every other user's total as it was. */
  lemma AddLineTotal(cart: Lines, prices: map<ItemId, Money>, u: UserId, i: ItemId, qty: int, v: UserId)
    requires Priced(cart, prices)
    requires AddLine(cart, prices, u, i, qty).Success?
    ensures Priced(AddLine(cart, prices, u, i, qty).value, prices)
    ensures CartTotal(AddLine(cart, prices, u, i, qty).value, prices, v) ==
              CartTotal(cart, prices, v) + (if v == u then prices[i] * qty else 0)
  {
    var after := AddLine(cart, prices, u, i, qty).value;
    var before := UserItems(cart, v);
    if v != u {
      assert UserItems(after, v) == before;
      SumOverAgree(after, prices, cart, prices, v, before);
    } else {
      var rest := before - {i};
      assert UserItems(after, u) - {i} == rest;
      SumOverPick(after, prices, u, UserItems(after, u), i);
      SumOverAgree(after, prices, cart, prices, u, rest);
      if i in before {
        SumOverPick(cart, prices, u, before, i);
        SubtotalAdditive(prices[i], cart[(u, i)], qty);
      } else {
        assert rest == before;
      }
    }
  }

  /** Removing a line lowers its user's total by that line's subtotal and leaves every other user's total as it was. */
  lemma RemoveLineTotal(cart: Lines, prices: map<ItemId, Money>, u: UserId, i: ItemId, v: UserId)
    requires Priced(cart, prices)
    requires RemoveLine(cart, u, i).Success?
    ensures Priced(RemoveLine(cart, u, i).value, prices)
    ensures CartTotal(RemoveLine(cart, u, i).value, prices, v) ==
              CartTotal(cart, prices, v) - (if v == u then Subtotal(prices[i], cart[(u, i)]) else 0)
  {
    var after := RemoveLine(cart, u, i).value;
    var before := UserItems(cart, v);
    if v != u {
      assert UserItems(after, v) == before;
      SumOverAgree(after, prices, cart, prices, v, before);
    } else {
      assert UserItems(after, u) == before - {i};
      SumOverPick(cart, prices, u, before, i);
      SumOverAgree(after, prices, cart, prices, u, before - {i});
    }
  }

  /**
   * Cart subtotals follow the live price: changing item `i`'s price moves
   * `u`'s total by the price difference times `u`'s quantity of `i`.
   */
  lemma PriceChangeTotal(cart: Lines, prices: map<ItemId, Money>, i: ItemId, price: Money, u: UserId)
    requires Priced(cart, prices)
    ensures Priced(cart, prices[i := price])
    ensures CartTotal(cart, prices[i := price], u) ==
              CartTotal(cart, prices, u) + (if (u, i) in cart then (price - prices[i]) * cart[(u, i)] else 0)
  {
    var items := UserItems(cart, u);
    var changed := prices[i := price];
    if i in items {
      SumOverPick(cart, changed, u, items, i);
      SumOverPick(cart, prices, u, items, i);
      SumOverAgree(cart, changed, cart, prices, u, items - {i});
    } else {
      SumOverAgree(cart, changed, cart, prices, u, items);
    }
  }

  /** Deleting `u`'s lines empties `u`'s cart and leaves every other user's total as it was. */
  lemma WithoutUserTotal(cart: Lines, prices: map<ItemId, Money>, u: UserId, v: UserId)
    requires Priced(cart, prices)
    ensures Priced(WithoutUser(cart, u), prices)
    ensures UserItems(WithoutUser(cart, u), u) == {}
    ensures CartTotal(WithoutUser(cart, u), prices, v) == (if v == u then 0 else CartTotal(cart, prices, v))
  {
    var after := WithoutUser(cart, u);
    if v != u {
      assert UserItems(after, v) == UserItems(cart, v);
      SumOverAgree(after, prices, cart, prices, v, UserItems(cart, v));
    }
  }
}
