/**
 * What the order service's read endpoints (`get_orders`, `get_order`) show
 * after a checkout: the new order reads back with the receipt's id, status
 * and total and with one item per cart line, and every other order and
 * every other user's list reads back as before.
 */
module OrderQueries {
  import opened Wrappers
  import opened InventoryService
  import opened PaymentService
  import opened OrderService
  import opened CheckoutProperties

  /** How `get_order` shows one order-item row. */
  function View(row: OrderItem): (v: ItemView)
    ensures v.productId == row.productId && v.qty == row.qty
    ensures v.price == row.price && v.lineTotal == row.lineTotal
  {
    ItemView(row.productId, row.qty, row.price, row.lineTotal)
  }

  /** The item views a checkout of `lines` at snapshot `prices` should read back as, one per line. */
  function LineViews(prices: PriceList, lines: seq<Line>): (r: seq<ItemView>)
    requires AllPriced(prices, lines)
    ensures |r| == |lines|
    ensures forall j :: 0 <= j < |lines| ==>
              r[j] == ItemView(lines[j].productId, lines[j].qty, prices[lines[j].productId],
                               prices[lines[j].productId] * lines[j].qty)
  {
    seq(|lines|, j requires 0 <= j < |lines| =>
          ItemView(lines[j].productId, lines[j].qty, prices[lines[j].productId],
                   prices[lines[j].productId] * lines[j].qty))
  }

  /** Item lookup distributes over appending rows to the items table. */
  lemma {:induction false} ItemsOfAppend(a: seq<OrderItem>, b: seq<OrderItem>, id: OrderId)
    ensures ItemsOf(a + b, id) == ItemsOf(a, id) + ItemsOf(b, id)
    decreases |b|
  {
    if b == [] {
      assert a + b == a;
    } else {
      var n := |b| - 1;
      assert (a + b)[..|a + b| - 1] == a + b[..n];
      ItemsOfAppend(a, b[..n], id);
    }
  }

  /** A table with no row for order `id` shows no items for it. */
  lemma ItemsOfAbsent(items: seq<OrderItem>, id: OrderId)
    requires forall j :: 0 <= j < |items| ==> items[j].orderId != id
    ensures ItemsOf(items, id) == []
  {
  }

  /** Rows that all belong to order `id` read back as their views, in order. */
  lemma {:induction false} ItemsOfOwnRows(rows: seq<OrderItem>, id: OrderId)
    requires forall j :: 0 <= j < |rows| ==> rows[j].orderId == id
    ensures ItemsOf(rows, id) == seq(|rows|, j requires 0 <= j < |rows| => View(rows[j]))
    decreases |rows|
  {
    if rows != [] {
      var n := |rows| - 1;
      ItemsOfOwnRows(rows[..n], id);
    }
  }

  /** The rows a paid checkout writes read back as one view per line. */
  lemma LineItemsReadBack(orderId: OrderId, prices: PriceList, lines: seq<Line>)
    requires AllPriced(prices, lines)
    ensures ItemsOf(LineItems(orderId, prices, lines), orderId) == LineViews(prices, lines)
  {
    ItemsOfOwnRows(LineItems(orderId, prices, lines), orderId);
  }

  /** An order appended under an id no stored order has is the one found under that id. */
  lemma {:induction false} FindAppended(orders: seq<Order>, o: Order)
    requires forall j :: 0 <= j < |orders| ==> orders[j].id != o.id
    ensures FindOrder(orders + [o], o.id) == Some(o)
    decreases |orders|
  {
    if orders != [] {
      assert (orders + [o])[1..] == orders[1..] + [o];
      FindAppended(orders[1..], o);
    }
  }

  /** Appending an order does not change what is found under an id that was already stored. */
  lemma {:induction false} FindBeforeAppended(orders: seq<Order>, o: Order, id: OrderId)
    requires exists j :: 0 <= j < |orders| && orders[j].id == id
    ensures FindOrder(orders + [o], id) == FindOrder(orders, id)
    decreases |orders|
  {
    if orders[0].id != id {
      var j :| 0 <= j < |orders| && orders[j].id == id;
      assert orders[1..][j - 1] == orders[j];
      assert (orders + [o])[1..] == orders[1..] + [o];
      FindBeforeAppended(orders[1..], o, id);
    }
  }

  /** `get_orders` on a table with one more order: the user's list grows by it exactly when it is theirs. */
  lemma OrdersOfAppend(orders: seq<Order>, o: Order, userId: string)
    ensures OrdersOf(orders + [o], userId) == OrdersOf(orders, userId) + (if o.userId == userId then [o] else [])
  {
    assert (orders + [o])[..|orders|] == orders;
  }

  /**
   * Storing order `o` under the next id, with rows that all belong to it:
   * `get_order` finds `o` with exactly those rows.
   */
  lemma NewOrderReadsBack(orders: seq<Order>, items: seq<OrderItem>, o: Order, added: seq<OrderItem>)
    requires WellFormed(orders, items)
    requires o.id == |orders| + 1
    ensures GetOrder(orders + [o], items + added, o.id)
            == Success(OrderView(o.id, o.userId, o.status, o.total, o.createdAt, ItemsOf(added, o.id)))
  {
    FindAppended(orders, o);
    ItemsOfAppend(items, added, o.id);
    ItemsOfAbsent(items, o.id);
    assert ItemsOf(items + added, o.id) == [] + ItemsOf(added, o.id) == ItemsOf(added, o.id);
  }

  /** Storing a new order and its rows does not change how an order stored before reads back. */
  lemma OldOrderReadsBack(orders: seq<Order>, items: seq<OrderItem>, o: Order, added: seq<OrderItem>, id: OrderId)
    requires WellFormed(orders, items)
    requires 1 <= id <= |orders|
    requires forall j :: 0 <= j < |added| ==> added[j].orderId == o.id
    requires o.id == |orders| + 1
    ensures GetOrder(orders + [o], items + added, id) == GetOrder(orders, items, id)
  {
    assert orders[id - 1].id == id;
    FindBeforeAppended(orders, o, id);
    ItemsOfAppend(items, added, id);
    ItemsOfAbsent(added, id);
    assert ItemsOf(items + added, id) == ItemsOf(items, id) + [] == ItemsOf(items, id);
  }

  /**
   * What a checkout does to the orders and order-items tables: a receipt
   * means one order appended under the next id, followed by rows that all
   * belong to it; an error leaves both tables as they were.
   */
  lemma CheckoutAppends(catalog: Option<PriceList>, userId: string, lines: seq<Line>, lost: set<nat>,
                        reply: PayReply, now: string,
                        t: Table, orders: seq<Order>, items: seq<OrderItem>)
    ensures var e := CheckoutSpec(catalog, userId, lines, lost, reply, now, t, orders, items);
            if e.result.Success? then
              && e.result.value.orderId == |orders| + 1
              && e.orders == orders + [Order(|orders| + 1, userId, e.result.value.total, e.result.value.status, now)]
              && |items| <= |e.items| && e.items[..|items|] == items
              && forall j :: |items| <= j < |e.items| ==> e.items[j].orderId == |orders| + 1
            else
              e.orders == orders && e.items == items
  {
    var e := CheckoutSpec(catalog, userId, lines, lost, reply, now, t, orders, items);
    if e.items != items {
      var added := LineItems(|orders| + 1, catalog.value, lines);
      assert e.items == items + added;
      assert forall j :: |items| <= j < |e.items| ==> e.items[j] == added[j - |items|];
    }
  }

  /** A checkout keeps the order ids consecutive and every item attached to a stored order. */
  lemma CheckoutKeepsWellFormed(catalog: Option<PriceList>, userId: string, lines: seq<Line>, lost: set<nat>,
                                reply: PayReply, now: string,
                                t: Table, orders: seq<Order>, items: seq<OrderItem>)
    requires WellFormed(orders, items)
    ensures var e := CheckoutSpec(catalog, userId, lines, lost, reply, now, t, orders, items);
            WellFormed(e.orders, e.items)
  {
    CheckoutAppends(catalog, userId, lines, lost, reply, now, t, orders, items);
    var e := CheckoutSpec(catalog, userId, lines, lost, reply, now, t, orders, items);
    assert forall j :: 0 <= j < |items| ==> e.items[j] == e.items[..|items|][j];
  }

  /**
   * `get_orders` after a checkout: the user's list gains the new order at the
   * end when the checkout returned a receipt (paid or failed alike), and no
   * other list changes.
   */
  lemma OrdersListedAfterCheckout(catalog: Option<PriceList>, userId: string, lines: seq<Line>, lost: set<nat>,
                                  reply: PayReply, now: string,
                                  t: Table, orders: seq<Order>, items: seq<OrderItem>, who: string)
    ensures var e := CheckoutSpec(catalog, userId, lines, lost, reply, now, t, orders, items);
            if e.result.Success? && who == userId then
              OrdersOf(e.orders, who)
              == OrdersOf(orders, who) + [Order(|orders| + 1, userId, e.result.value.total, e.result.value.status, now)]
            else
              OrdersOf(e.orders, who) == OrdersOf(orders, who)
  {
    CheckoutAppends(catalog, userId, lines, lost, reply, now, t, orders, items);
    var e := CheckoutSpec(catalog, userId, lines, lost, reply, now, t, orders, items);
    if e.result.Success? {
      OrdersOfAppend(orders, Order(|orders| + 1, userId, e.result.value.total, e.result.value.status, now), who);
    }
  }

  /**
   * `get_order` on a paid checkout's id: the order reads back as `PAID` with
   * the receipt's total and creation time, and its items are the cart lines
   * at the snapshot prices, in cart order.
   */
  lemma PaidOrderReadsBack(prices: PriceList, userId: string, lines: seq<Line>, lost: set<nat>,
                           reply: PayReply, now: string,
                           t: Table, orders: seq<Order>, items: seq<OrderItem>)
    requires WellFormed(orders, items)
    requires var e := CheckoutSpec(Some(prices), userId, lines, lost, reply, now, t, orders, items);
             e.result.Success? && e.result.value.status == Paid
    ensures AllPriced(prices, lines)
    ensures var e := CheckoutSpec(Some(prices), userId, lines, lost, reply, now, t, orders, items);
            var id := e.result.value.orderId;
            GetOrder(e.orders, e.items, id)
            == Success(OrderView(id, userId, Paid, Total(prices, lines), now, LineViews(prices, lines)))
  {
    PaidCheckoutWritesItems(prices, userId, lines, lost, reply, now, t, orders, items);
    var id := |orders| + 1;
    NewOrderReadsBack(orders, items, Order(id, userId, Total(prices, lines), Paid, now), LineItems(id, prices, lines));
    LineItemsReadBack(id, prices, lines);
  }

  /** `get_order` on a declined checkout's id: a `FAILED` order with the total and no items. */
  lemma FailedOrderReadsBack(prices: PriceList, userId: string, lines: seq<Line>, lost: set<nat>,
                             reply: PayReply, now: string,
                             t: Table, orders: seq<Order>, items: seq<OrderItem>)
    requires WellFormed(orders, items)
    requires var e := CheckoutSpec(Some(prices), userId, lines, lost, reply, now, t, orders, items);
             e.result.Success? && e.result.value.status == Failed
    ensures AllPriced(prices, lines)
    ensures var e := CheckoutSpec(Some(prices), userId, lines, lost, reply, now, t, orders, items);
            var id := e.result.value.orderId;
            GetOrder(e.orders, e.items, id) == Success(OrderView(id, userId, Failed, Total(prices, lines), now, []))
  {
    DeclinedPaymentReleasesEverything(prices, userId, lines, lost, reply, now, t, orders, items);
    var e := CheckoutSpec(Some(prices), userId, lines, lost, reply, now, t, orders, items);
    assert e.items == items + [];
    NewOrderReadsBack(orders, items, Order(|orders| + 1, userId, Total(prices, lines), Failed, now), []);
  }

  /** `get_order` on any order stored before a checkout reads back exactly as it did before it. */
  lemma EarlierOrdersUnchanged(catalog: Option<PriceList>, userId: string, lines: seq<Line>, lost: set<nat>,
                               reply: PayReply, now: string,
                               t: Table, orders: seq<Order>, items: seq<OrderItem>, id: OrderId)
    requires WellFormed(orders, items)
    requires 1 <= id <= |orders|
    ensures var e := CheckoutSpec(catalog, userId, lines, lost, reply, now, t, orders, items);
            GetOrder(e.orders, e.items, id) == GetOrder(orders, items, id)
  {
    CheckoutAppends(catalog, userId, lines, lost, reply, now, t, orders, items);
    var e := CheckoutSpec(catalog, userId, lines, lost, reply, now, t, orders, items);
    if e.result.Success? {
      var added := e.items[|items|..];
      assert e.items == items + added;
      OldOrderReadsBack(orders, items, e.orders[|orders|], added, id);
    }
  }
}
