/**
 * A worked checkout: 10.00 × 2 of one item and 5.50 × 1 of another make a
 * cart of 25.50, which checkout freezes into an order of 25.50 with two
 * lines and an empty cart; a later price change leaves the order alone, and
 * the order, stored as PLACED, cannot be advanced.
 */
module Scenarios {
  import opened Wrappers
  import opened Models
  import opened Responses
  import opened Workflow
  import opened CartLogic
  import opened Views

  const CUSTOMER: UserId := 7
  const DOSA: ItemId := 1
  const LASSI: ItemId := 2

  /** The customer's cart of the worked example, with 10.00 × 2 and 5.50 × 1. */
  ghost predicate ExampleCart(store: Store)
    reads store
  {
    && store.Valid()
    && store.prices == map[DOSA := 1000, LASSI := 550]
    && store.cart == map[(CUSTOMER, DOSA) := 2, (CUSTOMER, LASSI) := 1]
  }

  /** The example cart totals 2 × 10.00 + 1 × 5.50 = 25.50, whichever line is summed first. */
  lemma {:induction false} ExampleCartTotal(cart: Lines, prices: map<ItemId, Money>)
    requires prices == map[DOSA := 1000, LASSI := 550]
    requires cart == map[(CUSTOMER, DOSA) := 2, (CUSTOMER, LASSI) := 1]
    ensures Priced(cart, prices) && UserItems(cart, CUSTOMER) == {DOSA, LASSI}
    ensures CartTotal(cart, prices, CUSTOMER) == 2550
  {
    var items := UserItems(cart, CUSTOMER);
    assert items == {DOSA, LASSI};
    SumOverPick(cart, prices, CUSTOMER, items, DOSA);
    assert items - {DOSA} == {LASSI};
    SumOverPick(cart, prices, CUSTOMER, {LASSI}, LASSI);
  }

  method FillCartScenario() returns (store: Store)
    ensures ExampleCart(store) && store.orders == [] && store.orderLines == []
  {
    store := new Store(map[DOSA := 1000, LASSI := 550]);
    var added := store.AddToCart(CUSTOMER, DOSA, Some(2));
    assert added.Success?;
    added := store.AddToCart(CUSTOMER, LASSI, None);
    assert added.Success?;
    var missing := store.AddToCart(CUSTOMER, 99, Some(1));
    assert missing == Failure(NotFound);
  }

  method TotalScenario(store: Store)
    requires ExampleCart(store)
  {
    ExampleCartTotal(store.cart, store.prices);
    var total := store.Total(CUSTOMER);
    assert total == 2550;
  }

  method CheckoutScenario(store: Store)
    requires ExampleCart(store) && store.orders == [] && store.orderLines == []
    modifies store
    ensures store.Valid() && |store.orders| == 1 && store.orders[0].status == PLACED
  {
    ExampleCartTotal(store.cart, store.prices);
    assert |UserItems(store.cart, CUSTOMER)| == 2;
    var placed := store.PlaceOrder(CUSTOMER);
    assert placed == Success((0, 2550));
    assert UserItems(store.cart, CUSTOMER) == {};
    assert |store.orderLines| == 2;
    assert store.orders[0].total == 2550 == LinesTotal(store.orderLines, 0);

    var again := store.PlaceOrder(CUSTOMER);
    assert again == Failure(EmptyCart);
  }

  method AfterCheckoutScenario(store: Store)
    requires store.Valid() && |store.orders| == 1 && store.orders[0].status == PLACED
    modifies store
  {
    var total := store.orders[0].total;
    store.ChangePrice(DOSA, 1200);
    assert store.orders[0].total == total == LinesTotal(store.orderLines, 0);

    var update := store.UpdateStatus(0, Some(ACCEPTED));
    assert update == Failure(InvalidCurrentStatus);
    var unknown := store.UpdateStatus(5, Some(ACCEPTED));
    assert unknown == Failure(NotFound);
  }
}
