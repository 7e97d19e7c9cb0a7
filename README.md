# Food-ordering cart and order core, modelled in Dafny

This project models the cart and order core of the Django food-ordering
backend: the handlers `add_to_cart`, `remove_from_cart`, `view_cart`,
`place_order` and `update_order_status` of `swiggy/views.py`, and the model
fields they rely on in `swiggy/models.py` (`CartItem.quantity` with its
default and its `subtotal` property, `Order` with its status choices and
default, `OrderItem` with its captured price).

Modules, one per concern:

- `Wrappers` (wrappers.dfy): `Option` and `Result`.
- `Responses` (responses.dfy): the error replies of the handlers and their HTTP codes.
- `Models` (models.dfy): money, quantities, the status constants, `Order` and
  `OrderLine` rows, `subtotal`, and the sum of an order's lines.
- `Workflow` (workflow.dfy): the `WORKFLOW` table of `update_order_status` and
  the decision that handler takes.
- `CartLogic` (cart.dfy): the cart table as a map from (user, item) to
  quantity, the cart total as a specification function, and the cart updates
  as functions with their effect on totals.
- `Views` (views.dfy): a `Store` class holding the four tables (menu prices,
  cart lines, orders, order lines) whose methods are the handlers. Each
  handler is proved against the `CartLogic` and `Workflow` functions, and the
  class invariant `Valid` states that every cart line names a priced item and
  that every order's total equals the sum of its own order lines.
- `Scenarios` (scenarios.dfy): a worked session (fill a cart, view it, place
  the order, change a price, try to advance the order).

Representation choices:

- Money is an `int` count of hundredths (the fields have two decimal places).
  Prices may be negative, as a `DecimalField` is.
- Item, user and order ids are `nat`. An order's id is its index in the order
  table.
- A cart is a flat map from (user, item) to quantity, as the handlers use it:
  at most one line per user and item.
- The quantity of a line is a `nat` (`PositiveIntegerField` admits 0). A
  request's `quantity` is an unchecked integer, 1 when absent. A result
  below 0 is refused by the database constraint: the model replies
  `IntegrityError` (HTTP 500) and changes nothing.
- Statuses are strings. `place_order` stores `"PLACED"`, which is neither a
  declared choice nor a key of `WORKFLOW`. The model keeps this, and
  `Workflow.PlacedIsStuck` shows that such an order can never be advanced.
- `add_to_cart` looks the item up as a `FoodItem`, a model that
  `swiggy/models.py` does not define, and reads `CartItem` fields (`user`,
  `item`) that the model declares differently (`cart`, `menu_item`). The
  model follows the handlers: an item exists when the menu has a price for
  it, and cart lines are keyed by user and item.
- The handlers visit the cart's rows in whatever order the query returns.
  The model visits them in an arbitrary order, and every property is proved
  for all orders.

## Model

| member | source | states |
|---|---|---|
| Models.Subtotal | swiggy/models.py:62-64 | A line of quantity 0 costs nothing, and a non-negative price gives a non-negative subtotal |
| Models.SubtotalAdditive | swiggy/views.py:106-108 | Adding `more` to a line's quantity raises its subtotal by exactly price × `more` |
| Models.LinesTotal | swiggy/models.py:79-83 | The amount of order `o` in the order-line table, the sum its `total_amount` must equal; lines at non-negative prices never sum below 0 |
| Models.LineCount | swiggy/models.py:79-83 | An order never has more lines than the order-line table has rows |
| Models.AppendLine | swiggy/views.py:156-162 | Writing one order line adds its price × quantity to its own order's total and count, and nothing to any other order's |
| Models.ConcatLines | swiggy/views.py:156-162 | The lines of an order in two stretches of the table add up to the lines in their concatenation, in amount and in number |
| Models.LinesOfOtherOrders | swiggy/views.py:156-162 | Rows that all belong to other orders contribute no amount and no line to order `o` |
| Responses.HttpStatus | swiggy/views.py:99-199 | Not-found replies are exactly the 404s, refused quantities exactly the 500s, and the empty-cart and workflow errors are 400 |
| Workflow.Next | swiggy/views.py:180-185 | A status has a successor exactly when it is one of the declared choices other than DELIVERED |
| Workflow.Transition | swiggy/views.py:187-199 | The update succeeds if and only if the current status has a successor and the request names exactly it; an unknown status is "Invalid current status", a wrong request is "Invalid status update" with the allowed next status |
| Workflow.Rank | swiggy/models.py:67-73 | Every declared status has a position in the chain of choices |
| Workflow.NextIsChainStep | swiggy/views.py:180-185 | The table allows `s` to `t` if and only if `t` directly follows `s` in the declared choices |
| Workflow.TransitionMovesForward | swiggy/views.py:193-203 | A successful update moves a declared status exactly one position forward, so no status is revisited |
| Workflow.DeliveredIsTerminal | swiggy/views.py:189-191 | Every update of a delivered order is refused as "Invalid current status" |
| Workflow.PlacedIsStuck | swiggy/views.py:150-154 | The status `place_order` writes is not a declared choice, and every update of such an order is refused |
| Workflow.DefaultStatusReachesDelivered | swiggy/models.py:76 | From the default status PENDING four accepted requests reach DELIVERED, and skipping a step is refused with the allowed next status |
| CartLogic.UserItems | swiggy/views.py:124 | The items of a user's cart lines are exactly the items keyed with that user |
| CartLogic.WithoutUser | swiggy/views.py:164 | Deleting a user's cart lines keeps exactly the other users' lines, with their quantities |
| CartLogic.WithoutUserPriced | swiggy/views.py:164 | Deleting a user's lines keeps every remaining line on a priced item |
| CartLogic.SumOver | swiggy/views.py:126 | The sum of `price × quantity` over a set of the user's lines, visited in any order; non-negative prices give a non-negative sum |
| CartLogic.CartTotal | swiggy/views.py:126 | The total `view_cart` shows and `place_order` freezes (the same sum at line 148): the sum of subtotals over all of the user's lines, never below 0 when the cart's items have non-negative prices |
| CartLogic.SumOverPick | swiggy/views.py:126 | The sum of subtotals over a set of items is any one item's subtotal plus the sum over the rest, whichever item is picked |
| CartLogic.SumOverAgree | swiggy/views.py:126 | Two carts and price lists that agree on a set of items' lines give the same sum over them |
| CartLogic.EmptyCartTotal | swiggy/views.py:126 | A user without cart lines has total 0 |
| CartLogic.AddLine | swiggy/views.py:96-108 | An unknown item is not found; otherwise the line is created with the quantity or raised by it, refused when it would fall below 0, and no other line changes |
| CartLogic.RemoveLine | swiggy/views.py:115-117 | Removal fails as not found exactly when the user has no line for the item; otherwise only that line goes |
| CartLogic.AddTwiceAccumulates | swiggy/views.py:101-108 | Adding q1 then q2 of an item gives the same cart as adding q1 + q2 at once |
| CartLogic.AddLineTotal | swiggy/views.py:101-108 | An accepted add raises the user's total by price × quantity and leaves every other user's total unchanged |
| CartLogic.RemoveLineTotal | swiggy/views.py:116-117 | Removing a line lowers its user's total by that line's subtotal and leaves every other user's total unchanged |
| CartLogic.PriceChangeTotal | swiggy/models.py:62-64 | Repricing an item moves a cart's total by the price difference times that item's quantity in the cart, and by nothing when the cart does not hold it |
| CartLogic.WithoutUserTotal | swiggy/views.py:164 | After the user's lines are deleted their total is 0 and every other user's total is unchanged |
| Views.RowFor | swiggy/views.py:128-133 | A cart row shows the line's item, its quantity, the item's current price and its subtotal |
| Views.LineFor | swiggy/views.py:157-162 | An order line carries its order, the cart line's item and quantity and the item's price at checkout |
| Views.RowItems | swiggy/views.py:128-133 | Every row's item is among the items the rows show |
| Views.LineItems | swiggy/views.py:156-162 | Every order line's item is among the items the lines name |
| Views.RequestedQuantity | swiggy/views.py:97 | A request without a quantity asks for the handler's literal 1; otherwise for the quantity given |
| Views.AppendOrder | swiggy/views.py:150-162 | Appending an order with its lines keeps the order tables consistent when the lines are all its own and add up to its total |
| Views.WriteStep | swiggy/views.py:156-162 | Writing the line of one more cart line keeps the lines written so far one per visited item |
| Views.WrittenDone | swiggy/views.py:156-162 | Once every cart line is visited, the written lines are exactly one per cart line of the user |
| Views.ShowStep | swiggy/views.py:128-133 | Showing one more cart line keeps the rows one per visited item |
| Views.ShownDone | swiggy/views.py:128-133 | Once every cart line is visited, the rows are exactly one per cart line of the user |
| Views.LineItemsBound | swiggy/views.py:156-162 | A list of order lines names no more distinct items than it has rows |
| Views.OneLinePerItemTotal | swiggy/views.py:148-162 | Lines that are exactly one per cart line, in any order, all belong to the order and add up to the cart's total |
| Views.RowsFor | swiggy/views.py:128-133 | The `items` list has exactly one row per cart line of the user, each priced at the item's current price |
| Views.OrderLinesFor | swiggy/views.py:156-162 | The order lines are exactly one per cart line, all of the new order, and their amounts add up to the cart's total |
| Views.Store.constructor | swiggy/models.py:36-83 | A store starts with the given prices and empty cart, order and order-line tables, and satisfies the invariant |
| Views.Store.ChangePrice | swiggy/models.py:43 | A change of a menu price, made outside the modelled handlers, changes only the price table and keeps the invariant: placed orders keep their totals and lines |
| Views.Store.AddToCart | swiggy/views.py:95-110 | The cart becomes exactly what `AddLine` gives, or stays unchanged with its error, and the invariant holds |
| Views.Store.RemoveFromCart | swiggy/views.py:114-119 | The cart becomes exactly what `RemoveLine` gives, or stays unchanged with not found |
| Views.Store.Total | swiggy/views.py:126 | The loop's sum equals the cart total of the user's lines |
| Views.Store.ViewCart | swiggy/views.py:123-138 | The reply's total is the cart total, and its rows are exactly one per cart line of the user |
| Views.Store.PlaceOrder | swiggy/views.py:142-170 | An empty cart is refused and nothing changes; otherwise one new order with the cart total and status PLACED, one order line per cart line at the current price, earlier rows untouched, the user's cart emptied, other carts kept, and the order tables stay consistent |
| Views.Store.UpdateStatus | swiggy/views.py:174-210 | A missing order is not found; otherwise the order's status changes exactly as `Transition` decides, the reply carries the previous and new status, and no other order changes |

## Left out

- Restaurant and menu listing, search, filters and menu creation, update and
  deletion are outside this core. `Views.Store.ChangePrice` is an abstract
  change of a menu price, made by whatever writes the `MenuItem` table, so
  that the effect of a new price on carts and on placed orders can be
  stated. It does not model `update_menu` (swiggy/views.py:70-77): that
  handler passes `instances=` to a plain `ModelSerializer`
  (swiggy/serializers.py:10-13), which refuses the unknown keyword, so as
  written it answers 404 or fails before saving and never changes a price.
- Users, roles, authentication, ratings and payment are not modelled. The
  requesting user is a parameter of each handler.
- Serializers, URL routing and the JSON bodies are not modelled. Replies are
  `Result` values, and the HTTP code of each error is `Responses.HttpStatus`.
- The `float(...)` conversion of prices and totals in `view_cart` is not
  modelled. Rows and totals are exact hundredths.
- `max_digits=10` on the money fields and `max_length=30` on the status are
  not enforced. The model's numbers and strings are unbounded.
- Views.Store.AddToCart: a `quantity` that `int()` cannot parse raises before
  any change; that path is not modelled, because the request's quantity is
  already an integer here. A missing `item_id` is not modelled either, since
  item ids are numbers.
- Item names, images, availability, food type and timestamps (`created_at`)
  are not modelled. Rows and order lines carry item ids.
- Django's auto-increment ids are not modelled. Orders are numbered from 0 by
  their position in the order table.
- Views.Store.PlaceOrder: the order lines are built as a list and appended to
  the order-line table in one step, where the handler inserts them one at a
  time. Without a transaction no other request can observe the difference
  in this sequential model.
- Concurrency is not modelled: two simultaneous `get_or_create` calls, or a
  cart changed between `place_order`'s total and its loop, cannot happen in
  this model. Each handler runs alone.
- Views.Store.RemoveFromCart: the line is found by user and item id, as the
  handler's query asks, not by the line's own id.
