/**
 * The order service: the checkout pipeline that drives the inventory and
 * payment services, the order store it writes, and the two order queries.
 *
 * `CheckoutSpec` states, as a function of the inputs and of the state
 * before, everything a checkout does: its reply, the calls it issues to the
 * other services in order, the products table afterwards, and the order and
 * order-item rows afterwards. `OrderStore.Checkout` is the step-by-step
 * pipeline and is proved to do exactly that; the properties of
 * `CheckoutSpec` are proved in module `CheckoutProperties`.
 */
module OrderService {
  import opened Wrappers
  import opened InventoryService
  import opened PaymentService

  type OrderId = int

  /** The catalog snapshot the checkout fetches: product id to price. */
  type PriceList = map<ProductId, int>

  /** One requested line of a checkout: a product and a quantity (not validated). */
  datatype Line = Line(productId: ProductId, qty: int)

  /** The only two statuses the order service ever writes. */
  datatype Status = Paid | Failed

  /** A row of the orders table. */
  datatype Order = Order(id: OrderId, userId: string, total: int, status: Status, createdAt: string)

  /** A row of the order-items table. */
  datatype OrderItem = OrderItem(orderId: OrderId, productId: ProductId, qty: int, price: int, lineTotal: int)

  /** A call the checkout issues to another service. */
  datatype Call =
    | ReserveCall(productId: ProductId, qty: int)
    | ReleaseCall(productId: ProductId, qty: int)
    | PayCall(userId: string, amount: int)

  /** The HTTP errors a checkout raises. */
  datatype CheckoutError =
    | InventoryUnavailable
    | ProductNotFound(productId: ProductId)
    | InsufficientStock(productId: ProductId)
    | PaymentUnavailable

  /** The status code each error is raised with. */
  function HttpStatus(e: CheckoutError): (code: int)
    ensures code == 502 <==> e.InventoryUnavailable? || e.PaymentUnavailable?
    ensures code == 404 <==> e.ProductNotFound?
    ensures code == 400 <==> e.InsufficientStock?
  {
    match e
    case InventoryUnavailable => 502
    case ProductNotFound(_) => 404
    case InsufficientStock(_) => 400
    case PaymentUnavailable => 502
  }

  /** The body of a checkout that got as far as storing an order. */
  datatype Receipt = Receipt(orderId: OrderId, status: Status, total: int)

  // ---------------------------------------------------------------------
  // Pricing
  // ---------------------------------------------------------------------

  /** Every requested product is in the catalog snapshot. */
  predicate AllPriced(prices: PriceList, lines: seq<Line>)
  {
    forall j :: 0 <= j < |lines| ==> lines[j].productId in prices
  }

  /** The first requested product that the catalog snapshot lacks, if any. */
  function FirstUnknown(prices: PriceList, lines: seq<Line>): (r: Option<ProductId>)
    ensures r.None? <==> AllPriced(prices, lines)
    ensures r.Some? ==> exists k :: 0 <= k < |lines| && lines[k].productId == r.value
                          && r.value !in prices && AllPriced(prices, lines[..k])
  {
    if lines == [] then None
    else if lines[0].productId !in prices then (assert AllPriced(prices, lines[..0]); Some(lines[0].productId))
    else
      var r := FirstUnknown(prices, lines[1..]);
      if r.Some? then
        var k :| 0 <= k < |lines[1..]| && lines[1..][k].productId == r.value
                 && r.value !in prices && AllPriced(prices, lines[1..][..k]);
        assert lines[..k + 1] == [lines[0]] + lines[1..][..k];
        r
      else r
  }

  /** `price * qty`, the amount one line contributes. */
  function LineTotal(price: int, qty: int): int
  {
    price * qty
  }

  /** The total the checkout computes: the sum over lines of catalog price times quantity. */
  function Total(prices: PriceList, lines: seq<Line>): int
    requires AllPriced(prices, lines)
  {
    if lines == [] then 0
    else
      var last := lines[|lines| - 1];
      Total(prices, lines[..|lines| - 1]) + LineTotal(prices[last.productId], last.qty)
  }

  // ---------------------------------------------------------------------
  // Calls and stock
  // ---------------------------------------------------------------------

  /** The reserve calls for `lines`, one per line, in order. */
  function ReserveCalls(lines: seq<Line>): (r: seq<Call>)
    ensures |r| == |lines|
    ensures forall j :: 0 <= j < |lines| ==> r[j] == ReserveCall(lines[j].productId, lines[j].qty)
  {
    seq(|lines|, j requires 0 <= j < |lines| => ReserveCall(lines[j].productId, lines[j].qty))
  }

  /** The release calls for `lines`, one per line, in order. */
  function ReleaseCalls(lines: seq<Line>): (r: seq<Call>)
    ensures |r| == |lines|
    ensures forall j :: 0 <= j < |lines| ==> r[j] == ReleaseCall(lines[j].productId, lines[j].qty)
  {
    seq(|lines|, j requires 0 <= j < |lines| => ReleaseCall(lines[j].productId, lines[j].qty))
  }

  /** The table after every line of `lines` has been withdrawn, first line first. */
  function ReserveAll(t: Table, lines: seq<Line>): Table
  {
    if lines == [] then t
    else ReserveAll(Withdraw(t, lines[0].productId, lines[0].qty), lines[1..])
  }

  /** The table after every line of `lines` has been released, first line first. */
  function ReleaseAll(t: Table, lines: seq<Line>): Table
  {
    if lines == [] then t
    else ReleaseAll(Deposit(t, lines[0].productId, lines[0].qty), lines[1..])
  }

  /** The quantity of `pid` that `lines` ask for, over all lines naming it. */
  function Demand(lines: seq<Line>, pid: ProductId): int
  {
    if lines == [] then 0
    else (if lines[0].productId == pid then lines[0].qty else 0) + Demand(lines[1..], pid)
  }

  /** How the reservation loop ended: every line granted, or stopped at line `at`. */
  datatype PassEnd = AllReserved | Refused(at: nat) | Lost(at: nat)

  /** The reservation loop's effect: the table, the reserve calls issued, how it ended. */
  datatype Pass = Pass(table: Table, calls: seq<Call>, end: PassEnd)

  /**
   * The reservation loop from line `from` on. A reserve call whose reply is
   * lost (`from in lost`: the request raised or the body was not JSON) stops
   * the loop; so does a call that names a product the live table lacks, which
   * makes the inventory handler crash with a non-JSON error body. A refused
   * reservation stops it too. A granted one withdraws the stock and goes on.
   */
  function ReservePass(t: Table, lines: seq<Line>, lost: set<nat>, from: nat): (r: Pass)
    requires from <= |lines|
    ensures r.end.AllReserved? || from <= r.end.at < |lines|
    decreases |lines| - from
  {
    if from == |lines| then Pass(t, [], AllReserved)
    else
      var l := lines[from];
      var call := ReserveCall(l.productId, l.qty);
      if from in lost || l.productId !in t then Pass(t, [call], Lost(from))
      else if Reserve(t, l.productId, l.qty).0.OutOfStock? then Pass(t, [call], Refused(from))
      else
        var rest := ReservePass(Reserve(t, l.productId, l.qty).1, lines, lost, from + 1);
        Pass(rest.table, [call] + rest.calls, rest.end)
  }

  // ---------------------------------------------------------------------
  // Payment and the order rows
  // ---------------------------------------------------------------------

  /** `PAID` exactly when the reply's status, `"failed"` when missing, is `"success"`. */
  function StatusOf(reply: PayReply): (s: Status)
    requires reply.Replied?
    ensures s == Paid <==> reply.status == Some("success")
  {
    if reply.status.GetOr("failed") == "success" then Paid else Failed
  }

  /** The order-item rows a paid checkout writes: one per line, with the snapshot price. */
  function LineItems(orderId: OrderId, prices: PriceList, lines: seq<Line>): (r: seq<OrderItem>)
    requires AllPriced(prices, lines)
    ensures |r| == |lines|
    ensures forall j :: 0 <= j < |lines| ==>
              r[j] == OrderItem(orderId, lines[j].productId, lines[j].qty,
                                prices[lines[j].productId], LineTotal(prices[lines[j].productId], lines[j].qty))
  {
    seq(|lines|, j requires 0 <= j < |lines| =>
          OrderItem(orderId, lines[j].productId, lines[j].qty,
                    prices[lines[j].productId], LineTotal(prices[lines[j].productId], lines[j].qty)))
  }

  /** Everything a checkout does: its reply, its calls, and the state it leaves. */
  datatype Effect = Effect(result: Result<Receipt, CheckoutError>, calls: seq<Call>,
                           table: Table, orders: seq<Order>, items: seq<OrderItem>)

  /**
   * The checkout pipeline. `catalog` is the fetched snapshot (`None` when the
   * fetch failed), `lost` the lines whose reserve reply is lost, `reply` the
   * payment reply, `now` the creation time; `t`, `orders` and `items` are the
   * products, orders and order-items tables before the call. A new order
   * takes the next auto-increment id, `|orders| + 1`.
   */
  function CheckoutSpec(catalog: Option<PriceList>, userId: string, lines: seq<Line>, lost: set<nat>,
                        reply: PayReply, now: string,
                        t: Table, orders: seq<Order>, items: seq<OrderItem>): Effect
  {
    if catalog.None? then Effect(Failure(InventoryUnavailable), [], t, orders, items)
    else
      var prices := catalog.value;
      match FirstUnknown(prices, lines)
      case Some(pid) => Effect(Failure(ProductNotFound(pid)), [], t, orders, items)
      case None =>
        var total := Total(prices, lines);
        var pass := ReservePass(t, lines, lost, 0);
        match pass.end
        case Lost(_) => Effect(Failure(InventoryUnavailable), pass.calls, pass.table, orders, items)
        case Refused(k) =>
          Effect(Failure(InsufficientStock(lines[k].productId)),
                 pass.calls + ReleaseCalls(lines[..k]), ReleaseAll(pass.table, lines[..k]), orders, items)
        case AllReserved =>
          var charged := pass.calls + [PayCall(userId, total)];
          if reply.Unreachable? then
            Effect(Failure(PaymentUnavailable), charged + ReleaseCalls(lines), ReleaseAll(pass.table, lines),
                   orders, items)
          else
            var order := Order(|orders| + 1, userId, total, StatusOf(reply), now);
            if order.status == Failed then
              Effect(Success(Receipt(order.id, Failed, total)), charged + ReleaseCalls(lines),
                     ReleaseAll(pass.table, lines), orders + [order], items)
            else
              Effect(Success(Receipt(order.id, Paid, total)), charged, pass.table,
                     orders + [order], items + LineItems(order.id, prices, lines))
  }

  // ---------------------------------------------------------------------
  // Queries
  // ---------------------------------------------------------------------

  /** `get_orders`: the orders of `userId`, in store order. */
  function OrdersOf(orders: seq<Order>, userId: string): (r: seq<Order>)
    ensures forall o :: o in r <==> o in orders && o.userId == userId
    ensures |r| <= |orders|
  {
    if orders == [] then []
    else
      var last := orders[|orders| - 1];
      OrdersOf(orders[..|orders| - 1], userId) + (if last.userId == userId then [last] else [])
  }

  /** `orders[j]` has id `id` and no order before it does. */
  predicate FirstWithId(orders: seq<Order>, id: OrderId, j: int)
    requires 0 <= j < |orders|
  {
    orders[j].id == id && forall i :: 0 <= i < j ==> orders[i].id != id
  }

  /** The first order with id `id`, if any. */
  function FindOrder(orders: seq<Order>, id: OrderId): (r: Option<Order>)
    ensures r.None? <==> forall j :: 0 <= j < |orders| ==> orders[j].id != id
    ensures r.Some? ==> r.value in orders && r.value.id == id
    ensures r.Some? ==> exists j :: 0 <= j < |orders| && orders[j] == r.value && FirstWithId(orders, id, j)
  {
    if orders == [] then None
    else if orders[0].id == id then Some(orders[0])
    else FindOrder(orders[1..], id)
  }

  /** One item of the `get_order` body. */
  datatype ItemView = ItemView(productId: ProductId, qty: int, price: int, lineTotal: int)

  /** The `get_order` body. */
  datatype OrderView = OrderView(id: OrderId, userId: string, status: Status, total: int,
                                 createdAt: string, items: seq<ItemView>)

  /** The items of order `id`, in store order, as `get_order` shows them. */
  function ItemsOf(items: seq<OrderItem>, id: OrderId): (r: seq<ItemView>)
    ensures |r| <= |items|
    ensures forall v :: v in r <==>
              exists j :: 0 <= j < |items| && items[j].orderId == id
                          && v == ItemView(items[j].productId, items[j].qty, items[j].price, items[j].lineTotal)
  {
    if items == [] then []
    else
      var last := items[|items| - 1];
      var rest := ItemsOf(items[..|items| - 1], id);
      var r := rest + (if last.orderId == id then [ItemView(last.productId, last.qty, last.price, last.lineTotal)] else []);
      assert forall j :: 0 <= j < |items| - 1 ==> items[..|items| - 1][j] == items[j];
      r
  }

  /** `v` shows order `o`'s own fields and its items in `items`. */
  predicate OrderShown(o: Order, items: seq<OrderItem>, v: OrderView)
  {
    v == OrderView(o.id, o.userId, o.status, o.total, o.createdAt, ItemsOf(items, o.id))
  }

  /** `get_order`: 404 when no order has id `id`, otherwise the order with its items. */
  function GetOrder(orders: seq<Order>, items: seq<OrderItem>, id: OrderId): (r: Result<OrderView, int>)
    ensures r.Failure? <==> forall j :: 0 <= j < |orders| ==> orders[j].id != id
    ensures r.Failure? ==> r.error == 404
    ensures r.Success? ==> r.value.id == id && r.value.items == ItemsOf(items, id)
    ensures r.Success? ==> exists j :: 0 <= j < |orders| && FirstWithId(orders, id, j) && OrderShown(orders[j], items, r.value)
  {
    match FindOrder(orders, id)
    case None => Failure(404)
    case Some(o) => Success(OrderView(o.id, o.userId, o.status, o.total, o.createdAt, ItemsOf(items, id)))
  }

  // ---------------------------------------------------------------------
  // The store and the pipeline
  // ---------------------------------------------------------------------

  /** `ReleaseAll` one step at a time; each release's reply is ignored, as in the source. */
  method ReleaseLines(inv: ProductTable, lines: seq<Line>) returns (calls: seq<Call>)
    requires inv.Valid()
    modifies inv`products
    ensures inv.Valid()
    ensures inv.products == ReleaseAll(old(inv.products), lines)
    ensures calls == ReleaseCalls(lines)
  {
    calls := [];
    var i := 0;
    while i < |lines|
      invariant 0 <= i <= |lines|
      invariant inv.Valid()
      invariant ReleaseAll(inv.products, lines[i..]) == ReleaseAll(old(inv.products), lines)
      invariant calls == ReleaseCalls(lines[..i])
    {
      assert lines[i..][1..] == lines[i + 1..];
      var _ := inv.ReleaseStock(lines[i].productId, lines[i].qty);
      calls := calls + [ReleaseCall(lines[i].productId, lines[i].qty)];
      i := i + 1;
    }
  }

  /**
   * The pricing loop: stops at the first line the catalog snapshot lacks,
   * otherwise adds up the total.
   */
  method PriceLines(prices: PriceList, lines: seq<Line>) returns (unknown: Option<ProductId>, total: int)
    ensures unknown == FirstUnknown(prices, lines)
    ensures unknown.None? ==> total == Total(prices, lines)
  {
    total := 0;
    var i := 0;
    while i < |lines|
      invariant 0 <= i <= |lines|
      invariant AllPriced(prices, lines[..i])
      invariant total == Total(prices, lines[..i])
    {
      var pid := lines[i].productId;
      if pid !in prices {
        PricedPrefixThenUnknown(prices, lines, i);
        return Some(pid), total;
      }
      assert lines[..i + 1][..i] == lines[..i];
      total := total + LineTotal(prices[pid], lines[i].qty);
      i := i + 1;
    }
    assert lines[..i] == lines;
    unknown := None;
  }

  /** `ReservePass` with `calls` put in front of its calls. */
  function AfterCalls(calls: seq<Call>, p: Pass): Pass
  {
    p.(calls := calls + p.calls)
  }

  /** The reservation loop against the live table, without its compensation. */
  method ReserveLines(inv: ProductTable, lines: seq<Line>, lost: set<nat>) returns (calls: seq<Call>, end: PassEnd)
    requires inv.Valid()
    modifies inv`products
    ensures inv.Valid()
    ensures var p := ReservePass(old(inv.products), lines, lost, 0);
            inv.products == p.table && calls == p.calls && end == p.end
  {
    calls := [];
    var i := 0;
    while i < |lines|
      invariant 0 <= i <= |lines|
      invariant inv.Valid()
      invariant ReservePass(old(inv.products), lines, lost, 0) == AfterCalls(calls, ReservePass(inv.products, lines, lost, i))
    {
      var l := lines[i];
      if i in lost || l.productId !in inv.products {
        return calls + [ReserveCall(l.productId, l.qty)], Lost(i);
      }
      var r := inv.ReserveStock(l.productId, l.qty);
      if r.OutOfStock? {
        return calls + [ReserveCall(l.productId, l.qty)], Refused(i);
      }
      calls := calls + [ReserveCall(l.productId, l.qty)];
      i := i + 1;
    }
    end := AllReserved;
  }

  /** Orders carry the auto-increment ids 1, 2, ...; every item belongs to a stored order. */
  ghost predicate WellFormed(orders: seq<Order>, items: seq<OrderItem>)
  {
    && (forall j :: 0 <= j < |orders| ==> orders[j].id == j + 1)
    && (forall j :: 0 <= j < |items| ==> 1 <= items[j].orderId <= |orders|)
  }

  /** The orders and order-items tables. */
  class OrderStore {
    var orders: seq<Order>
    var items: seq<OrderItem>

    ghost predicate Valid()
      reads this
    {
      WellFormed(orders, items)
    }

    constructor ()
      ensures Valid() && orders == [] && items == []
    {
      orders, items := [], [];
    }

    /** The line-item loop of a paid checkout. */
    method SaveLineItems(orderId: OrderId, prices: PriceList, lines: seq<Line>)
      requires Valid() && 1 <= orderId <= |orders|
      requires AllPriced(prices, lines)
      modifies this`items
      ensures Valid()
      ensures items == old(items) + LineItems(orderId, prices, lines)
    {
      var i := 0;
      while i < |lines|
        invariant 0 <= i <= |lines|
        invariant Valid()
        invariant items == old(items) + LineItems(orderId, prices, lines[..i])
      {
        var price := prices[lines[i].productId];
        items := items + [OrderItem(orderId, lines[i].productId, lines[i].qty, price, LineTotal(price, lines[i].qty))];
        i := i + 1;
      }
      assert lines[..i] == lines;
    }

    /** `checkout`: the pipeline, step by step, against the live products table `inv`. */
    method Checkout(inv: ProductTable, catalog: Option<PriceList>, userId: string, lines: seq<Line>,
                    lost: set<nat>, reply: PayReply, now: string)
      returns (result: Result<Receipt, CheckoutError>, calls: seq<Call>)
      requires Valid() && inv.Valid()
      modifies this, inv`products
      ensures Valid() && inv.Valid()
      ensures var e := CheckoutSpec(catalog, userId, lines, lost, reply, now,
                                    old(inv.products), old(orders), old(items));
              result == e.result && calls == e.calls && inv.products == e.table
              && orders == e.orders && items == e.items
    {
      // Load products and validate.
      if catalog.None? {
        return Failure(InventoryUnavailable), [];
      }
      var prices := catalog.value;
      var unknown, total := PriceLines(prices, lines);
      if unknown.Some? {
        return Failure(ProductNotFound(unknown.value)), [];
      }

      // Reserve inventory; a refusal releases what was reserved before it.
      var end;
      calls, end := ReserveLines(inv, lines, lost);
      if end.Lost? {
        return Failure(InventoryUnavailable), calls;
      }
      if end.Refused? {
        var released := ReleaseLines(inv, lines[..end.at]);
        return Failure(InsufficientStock(lines[end.at].productId)), calls + released;
      }

      // Call payment; an unreachable payment service releases everything.
      calls := calls + [PayCall(userId, total)];
      if reply.Unreachable? {
        var released := ReleaseLines(inv, lines);
        return Failure(PaymentUnavailable), calls + released;
      }
      var status := StatusOf(reply);

      // Create the order.
      var order := Order(|orders| + 1, userId, total, status, now);
      orders := orders + [order];

      // A failed payment releases everything.
      if status == Failed {
        var released := ReleaseLines(inv, lines);
        return Success(Receipt(order.id, Failed, total)), calls + released;
      }

      // Save the order items.
      SaveLineItems(order.id, prices, lines);
      result := Success(Receipt(order.id, Paid, total));
    }
  }

  /** When the lines before `k` are priced and line `k` is not, `k` is the line the checkout reports. */
  lemma {:induction false} PricedPrefixThenUnknown(prices: PriceList, lines: seq<Line>, k: nat)
    requires k < |lines| && AllPriced(prices, lines[..k]) && lines[k].productId !in prices
    ensures FirstUnknown(prices, lines) == Some(lines[k].productId)
  {
    if k > 0 {
      assert lines[1..][..k - 1] == lines[..k][1..];
      PricedPrefixThenUnknown(prices, lines[1..], k - 1);
    }
  }
}
