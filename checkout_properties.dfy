/**
 * What the checkout pipeline promises, proved about `CheckoutSpec` (and so,
 * through `OrderStore.Checkout`'s postcondition, about the pipeline itself):
 * which calls each path issues and in what order, that every failure path
 * after a granted reservation gives the stock back, and what a paid and a
 * failed checkout store.
 */
module CheckoutProperties {
  import opened Wrappers
  import opened InventoryService
  import opened PaymentService
  import opened OrderService

  // ---------------------------------------------------------------------
  // Stock accounting
  // ---------------------------------------------------------------------

  /** `after` is `before` with each product's stock lowered by what `lines` ask of it, and nothing else changed. */
  ghost predicate StockLoweredBy(before: Table, after: Table, lines: seq<Line>)
  {
    && after.Keys == before.Keys
    && forall p :: p in before ==>
         after[p] == Product(before[p].name, before[p].price, before[p].stock - Demand(lines, p))
  }

  /** Withdrawing a list of lines lowers each product's stock by what the lines ask of it. */
  lemma {:induction false} ReserveAllStock(t: Table, lines: seq<Line>)
    ensures StockLoweredBy(t, ReserveAll(t, lines), lines)
    decreases |lines|
  {
    if lines != [] {
      ReserveAllStock(Withdraw(t, lines[0].productId, lines[0].qty), lines[1..]);
    }
  }

  /** Releasing a list of lines raises each product's stock by what the lines ask of it. */
  lemma {:induction false} ReleaseAllStock(t: Table, lines: seq<Line>)
    ensures ReleaseAll(t, lines).Keys == t.Keys
    ensures forall p :: p in t ==> ReleaseAll(t, lines)[p] == Product(t[p].name, t[p].price, t[p].stock + Demand(lines, p))
    decreases |lines|
  {
    if lines != [] {
      ReleaseAllStock(Deposit(t, lines[0].productId, lines[0].qty), lines[1..]);
    }
  }

  /** Releasing what was reserved gives the original table back. */
  lemma ReleaseUndoesReserveAll(t: Table, lines: seq<Line>)
    ensures ReleaseAll(ReserveAll(t, lines), lines) == t
  {
    ReserveAllStock(t, lines);
    ReleaseAllStock(ReserveAll(t, lines), lines);
    var r := ReleaseAll(ReserveAll(t, lines), lines);
    assert forall p :: p in t ==> r[p] == t[p];
  }

  // ---------------------------------------------------------------------
  // The reservation loop
  // ---------------------------------------------------------------------

  /**
   * What a reservation pass from line `from` did: all lines reserved, or the
   * lines before the stopping line reserved, the stopping line attempted, and
   * the reason it stopped.
   */
  ghost predicate Explains(t: Table, lines: seq<Line>, lost: set<nat>, from: nat, p: Pass)
    requires from <= |lines|
  {
    && p.table.Keys == t.Keys
    && match p.end
       case AllReserved =>
         && p.table == ReserveAll(t, lines[from..])
         && p.calls == ReserveCalls(lines[from..])
         && (forall j :: from <= j < |lines| ==> j !in lost)
       case Refused(k) =>
         && from <= k < |lines|
         && p.table == ReserveAll(t, lines[from..k])
         && p.calls == ReserveCalls(lines[from..k + 1])
         && lines[k].productId in p.table && p.table[lines[k].productId].stock < lines[k].qty
       case Lost(k) =>
         && from <= k < |lines|
         && p.table == ReserveAll(t, lines[from..k])
         && p.calls == ReserveCalls(lines[from..k + 1])
         && (k in lost || lines[k].productId !in t)
  }

  /** A granted reservation of line `from` puts its call and withdrawal in front of the rest of the pass. */
  lemma PassStep(t: Table, lines: seq<Line>, lost: set<nat>, from: nat)
    requires from < |lines| && from !in lost && lines[from].productId in t
    requires Reserve(t, lines[from].productId, lines[from].qty).0.Reserved?
    requires var t' := Withdraw(t, lines[from].productId, lines[from].qty);
             Explains(t', lines, lost, from + 1, ReservePass(t', lines, lost, from + 1))
    ensures Explains(t, lines, lost, from, ReservePass(t, lines, lost, from))
  {
    var l := lines[from];
    var call := ReserveCall(l.productId, l.qty);
    var t' := Withdraw(t, l.productId, l.qty);
    var p := ReservePass(t', lines, lost, from + 1);
    assert ReservePass(t, lines, lost, from) == Pass(p.table, [call] + p.calls, p.end);
    match p.end
    case AllReserved =>
      assert lines[from..][1..] == lines[from + 1..];
      assert ReserveCalls(lines[from..]) == [call] + ReserveCalls(lines[from + 1..]);
    case Refused(k) =>
      assert lines[from..k][1..] == lines[from + 1..k];
      assert ReserveCalls(lines[from..k + 1]) == [call] + ReserveCalls(lines[from + 1..k + 1]);
    case Lost(k) =>
      assert lines[from..k][1..] == lines[from + 1..k];
      assert ReserveCalls(lines[from..k + 1]) == [call] + ReserveCalls(lines[from + 1..k + 1]);
  }

  /** Every reservation pass is explained by the lines it went through. */
  lemma {:induction false} PassShape(t: Table, lines: seq<Line>, lost: set<nat>, from: nat)
    requires from <= |lines|
    ensures Explains(t, lines, lost, from, ReservePass(t, lines, lost, from))
    decreases |lines| - from
  {
    if from == |lines| {
      assert lines[from..] == [];
    } else {
      var l := lines[from];
      if from in lost || l.productId !in t || Reserve(t, l.productId, l.qty).0.OutOfStock? {
        assert lines[from..from] == [];
        assert ReserveCalls(lines[from..from + 1]) == [ReserveCall(l.productId, l.qty)];
      } else {
        PassShape(Withdraw(t, l.productId, l.qty), lines, lost, from + 1);
        PassStep(t, lines, lost, from);
      }
    }
  }

  /** `PassShape` for the pass the checkout runs, from the first line. */
  lemma WholePassShape(t: Table, lines: seq<Line>, lost: set<nat>)
    ensures var p := ReservePass(t, lines, lost, 0);
            && p.table.Keys == t.Keys
            && (p.end.AllReserved? ==>
                  p.table == ReserveAll(t, lines) && p.calls == ReserveCalls(lines)
                  && forall j :: 0 <= j < |lines| ==> j !in lost)
            && (!p.end.AllReserved? ==>
                  var k := p.end.at;
                  && k < |lines|
                  && p.table == ReserveAll(t, lines[..k])
                  && p.calls == ReserveCalls(lines[..k + 1]))
            && (p.end.Refused? ==>
                  var pid := lines[p.end.at].productId;
                  pid in p.table && p.table[pid].stock < lines[p.end.at].qty)
            && (p.end.Lost? ==> p.end.at in lost || lines[p.end.at].productId !in t)
  {
    PassShape(t, lines, lost, 0);
    assert lines[0..] == lines;
    var p := ReservePass(t, lines, lost, 0);
    if !p.end.AllReserved? {
      assert lines[0..p.end.at] == lines[..p.end.at];
      assert lines[0..p.end.at + 1] == lines[..p.end.at + 1];
    }
  }

  // ---------------------------------------------------------------------
  // The checkout paths
  // ---------------------------------------------------------------------

  /** A failed catalog fetch answers 502 before any call, changing nothing. */
  lemma CatalogDownChangesNothing(userId: string, lines: seq<Line>, lost: set<nat>, reply: PayReply,
                                  now: string, t: Table, orders: seq<Order>, items: seq<OrderItem>)
    ensures CheckoutSpec(None, userId, lines, lost, reply, now, t, orders, items)
            == Effect(Failure(InventoryUnavailable), [], t, orders, items)
  {
  }

  /**
   * A request naming a product the catalog lacks answers 404 naming the first
   * such product, before any reserve, release or payment call, and changes
   * neither the stock nor the stored orders.
   */
  lemma UnknownProductRejectedUpFront(prices: PriceList, userId: string, lines: seq<Line>, lost: set<nat>,
                                      reply: PayReply, now: string,
                                      t: Table, orders: seq<Order>, items: seq<OrderItem>, j: nat)
    requires j < |lines| && lines[j].productId !in prices
    ensures var e := CheckoutSpec(Some(prices), userId, lines, lost, reply, now, t, orders, items);
            && e.result.Failure? && e.result.error.ProductNotFound?
            && HttpStatus(e.result.error) == 404
            && e.result.error.productId !in prices
            && (exists k :: 0 <= k <= j && lines[k].productId == e.result.error.productId
                            && AllPriced(prices, lines[..k]))
            && e.calls == [] && e.table == t && e.orders == orders && e.items == items
  {
    var r := FirstUnknown(prices, lines);
    var k :| 0 <= k < |lines| && lines[k].productId == r.value && r.value !in prices && AllPriced(prices, lines[..k]);
  }

  /**
   * A refused reservation of line `k` answers 400 naming its product. The
   * calls are the reserves of lines `0..k` in order followed by one release
   * of each of lines `0..k-1` with its own quantity, so the refused line is
   * not released and payment is never called. The stock ends where it began
   * and no order or item is stored. The refusal itself was genuine: after the
   * earlier lines were reserved, the product's stock was below the quantity.
   */
  lemma RefusalReleasesEarlierLines(catalog: Option<PriceList>, userId: string, lines: seq<Line>, lost: set<nat>,
                                    reply: PayReply, now: string,
                                    t: Table, orders: seq<Order>, items: seq<OrderItem>)
    requires var e := CheckoutSpec(catalog, userId, lines, lost, reply, now, t, orders, items);
             e.result.Failure? && e.result.error.InsufficientStock?
    ensures var e := CheckoutSpec(catalog, userId, lines, lost, reply, now, t, orders, items);
            exists k :: 0 <= k < |lines|
              && e.result.error.productId == lines[k].productId
              && HttpStatus(e.result.error) == 400
              && e.calls == ReserveCalls(lines[..k + 1]) + ReleaseCalls(lines[..k])
              && e.table == t && e.orders == orders && e.items == items
              && lines[k].productId in t
              && t[lines[k].productId].stock - Demand(lines[..k], lines[k].productId) < lines[k].qty
  {
    WholePassShape(t, lines, lost);
    var p := ReservePass(t, lines, lost, 0);
    var k := p.end.at;
    ReleaseUndoesReserveAll(t, lines[..k]);
    ReserveAllStock(t, lines[..k]);
  }

  /**
   * A lost or crashed reserve reply for line `k` answers 502 with no
   * compensation: the calls are the reserves of lines `0..k` only, and the
   * stock of the lines before `k` stays withdrawn.
   */
  lemma LostReserveKeepsEarlierReservations(prices: PriceList, userId: string, lines: seq<Line>, lost: set<nat>,
                                            reply: PayReply, now: string,
                                            t: Table, orders: seq<Order>, items: seq<OrderItem>)
    requires CheckoutSpec(Some(prices), userId, lines, lost, reply, now, t, orders, items).result
             == Failure(InventoryUnavailable)
    ensures var e := CheckoutSpec(Some(prices), userId, lines, lost, reply, now, t, orders, items);
            exists k :: 0 <= k < |lines|
              && (k in lost || lines[k].productId !in t)
              && e.calls == ReserveCalls(lines[..k + 1])
              && StockLoweredBy(t, e.table, lines[..k])
              && e.orders == orders && e.items == items
  {
    WholePassShape(t, lines, lost);
    var p := ReservePass(t, lines, lost, 0);
    ReserveAllStock(t, lines[..p.end.at]);
  }

  /**
   * When the payment service cannot be reached, after all lines were
   * reserved and payment was asked for the total, every line is released
   * once: the stock ends where it began, and no order is stored.
   */
  lemma PaymentDownReleasesEverything(prices: PriceList, userId: string, lines: seq<Line>, lost: set<nat>,
                                      reply: PayReply, now: string,
                                      t: Table, orders: seq<Order>, items: seq<OrderItem>)
    requires CheckoutSpec(Some(prices), userId, lines, lost, reply, now, t, orders, items).result
             == Failure(PaymentUnavailable)
    ensures var e := CheckoutSpec(Some(prices), userId, lines, lost, reply, now, t, orders, items);
            && reply.Unreachable? && AllPriced(prices, lines)
            && e.calls == ReserveCalls(lines) + [PayCall(userId, Total(prices, lines))] + ReleaseCalls(lines)
            && e.table == t && e.orders == orders && e.items == items
  {
    WholePassShape(t, lines, lost);
    ReleaseUndoesReserveAll(t, lines);
  }

  /**
   * A checkout that stores an order does so after reserving every line and
   * asking payment for the computed total, under the next id; the order is
   * `PAID` exactly when the payment reply's status is `"success"`.
   */
  lemma StoredOrderFollowsPaymentReply(prices: PriceList, userId: string, lines: seq<Line>, lost: set<nat>,
                                       reply: PayReply, now: string,
                                       t: Table, orders: seq<Order>, items: seq<OrderItem>)
    requires CheckoutSpec(Some(prices), userId, lines, lost, reply, now, t, orders, items).result.Success?
    ensures var e := CheckoutSpec(Some(prices), userId, lines, lost, reply, now, t, orders, items);
            var receipt := e.result.value;
            && AllPriced(prices, lines) && reply.Replied?
            && receipt.orderId == |orders| + 1
            && receipt.total == Total(prices, lines)
            && (receipt.status == Paid <==> reply.status == Some("success"))
            && e.orders == orders + [Order(receipt.orderId, userId, receipt.total, receipt.status, now)]
            && |lines| < |e.calls|
            && e.calls[..|lines| + 1] == ReserveCalls(lines) + [PayCall(userId, receipt.total)]
  {
    WholePassShape(t, lines, lost);
    var e := CheckoutSpec(Some(prices), userId, lines, lost, reply, now, t, orders, items);
    assert e.calls[..|lines| + 1] == ReserveCalls(lines) + [PayCall(userId, Total(prices, lines))];
  }

  /**
   * A declined payment stores exactly one `FAILED` order with the computed
   * total, writes no items, releases every line once, and leaves the stock
   * where it began.
   */
  lemma DeclinedPaymentReleasesEverything(prices: PriceList, userId: string, lines: seq<Line>, lost: set<nat>,
                                          reply: PayReply, now: string,
                                          t: Table, orders: seq<Order>, items: seq<OrderItem>)
    requires var e := CheckoutSpec(Some(prices), userId, lines, lost, reply, now, t, orders, items);
             e.result.Success? && e.result.value.status == Failed
    ensures var e := CheckoutSpec(Some(prices), userId, lines, lost, reply, now, t, orders, items);
            && AllPriced(prices, lines)
            && e.result.value == Receipt(|orders| + 1, Failed, Total(prices, lines))
            && e.orders == orders + [Order(|orders| + 1, userId, Total(prices, lines), Failed, now)]
            && e.items == items
            && e.calls == ReserveCalls(lines) + [PayCall(userId, Total(prices, lines))] + ReleaseCalls(lines)
            && e.table == t
  {
    WholePassShape(t, lines, lost);
    ReleaseUndoesReserveAll(t, lines);
  }

  /** The line totals of order-item rows, added up. */
  function ItemsTotal(rows: seq<OrderItem>): int
  {
    if rows == [] then 0 else ItemsTotal(rows[..|rows| - 1]) + rows[|rows| - 1].lineTotal
  }

  /** The rows a paid checkout writes add up to the order's total. */
  lemma {:induction false} LineItemsAddUpToTotal(orderId: OrderId, prices: PriceList, lines: seq<Line>)
    requires AllPriced(prices, lines)
    ensures ItemsTotal(LineItems(orderId, prices, lines)) == Total(prices, lines)
    decreases |lines|
  {
    if lines != [] {
      var n := |lines| - 1;
      assert AllPriced(prices, lines[..n]);
      assert LineItems(orderId, prices, lines)[..n] == LineItems(orderId, prices, lines[..n]);
      LineItemsAddUpToTotal(orderId, prices, lines[..n]);
    }
  }

  /**
   * A successful payment stores one `PAID` order with the computed total and
   * one item row per line, with the snapshot price and `price * qty`; the
   * rows add up to the total, the only calls are the reserves and the
   * payment, and each product's stock has dropped by what the lines asked.
   */
  lemma PaidCheckoutWritesItems(prices: PriceList, userId: string, lines: seq<Line>, lost: set<nat>,
                                reply: PayReply, now: string,
                                t: Table, orders: seq<Order>, items: seq<OrderItem>)
    requires var e := CheckoutSpec(Some(prices), userId, lines, lost, reply, now, t, orders, items);
             e.result.Success? && e.result.value.status == Paid
    ensures var e := CheckoutSpec(Some(prices), userId, lines, lost, reply, now, t, orders, items);
            var id := |orders| + 1;
            && AllPriced(prices, lines)
            && e.result.value == Receipt(id, Paid, Total(prices, lines))
            && e.orders == orders + [Order(id, userId, Total(prices, lines), Paid, now)]
            && e.items == items + LineItems(id, prices, lines)
            && ItemsTotal(LineItems(id, prices, lines)) == Total(prices, lines)
            && e.calls == ReserveCalls(lines) + [PayCall(userId, Total(prices, lines))]
            && StockLoweredBy(t, e.table, lines)
  {
    WholePassShape(t, lines, lost);
    ReserveAllStock(t, lines);
    LineItemsAddUpToTotal(|orders| + 1, prices, lines);
  }

  /**
   * The saga's consistency guarantee, as far as the code keeps it: apart from
   * a lost reserve reply, every checkout either leaves the stock where it
   * began or is `PAID` and holds exactly the requested quantities.
   */
  lemma StockHeldOnlyForPaidOrders(catalog: Option<PriceList>, userId: string, lines: seq<Line>, lost: set<nat>,
                                   reply: PayReply, now: string,
                                   t: Table, orders: seq<Order>, items: seq<OrderItem>)
    requires CheckoutSpec(catalog, userId, lines, lost, reply, now, t, orders, items).result
             != Failure(InventoryUnavailable)
    ensures var e := CheckoutSpec(catalog, userId, lines, lost, reply, now, t, orders, items);
            || e.table == t
            || (&& e.result.Success? && e.result.value.status == Paid
                && StockLoweredBy(t, e.table, lines))
  {
    var e := CheckoutSpec(catalog, userId, lines, lost, reply, now, t, orders, items);
    if catalog.Some? && FirstUnknown(catalog.value, lines).None? {
      var prices := catalog.value;
      WholePassShape(t, lines, lost);
      if e.result.Failure? && e.result.error.InsufficientStock? {
        RefusalReleasesEarlierLines(catalog, userId, lines, lost, reply, now, t, orders, items);
      } else if e.result.Failure? {
        PaymentDownReleasesEverything(prices, userId, lines, lost, reply, now, t, orders, items);
      } else if e.result.value.status == Failed {
        DeclinedPaymentReleasesEverything(prices, userId, lines, lost, reply, now, t, orders, items);
      } else {
        PaidCheckoutWritesItems(prices, userId, lines, lost, reply, now, t, orders, items);
      }
    }
  }

  /**
   * With a catalog snapshot taken from the live table, no reserve call can
   * name a missing product, so the reservation loop stops early only on a
   * refusal or on a lost reply.
   */
  lemma FreshSnapshotNeverHitsMissingProduct(t: Table, lines: seq<Line>, lost: set<nat>)
    requires AllPriced(Prices(t), lines)
    ensures var p := ReservePass(t, lines, lost, 0);
            p.end.Lost? ==> p.end.at in lost
  {
    WholePassShape(t, lines, lost);
  }

  /**
   * Against the payment service itself: a total that is not strictly positive
   * fails validation, so the order is `FAILED` whatever the processor would
   * decide; otherwise it is `PAID` exactly when the processor approves.
   */
  lemma PaidIffPositiveAndApproved(prices: PriceList, userId: string, lines: seq<Line>, lost: set<nat>,
                                   approved: bool, now: string,
                                   t: Table, orders: seq<Order>, items: seq<OrderItem>)
    requires AllPriced(prices, lines)
    requires CheckoutSpec(Some(prices), userId, lines, lost, Pay(Total(prices, lines), approved), now,
                          t, orders, items).result.Success?
    ensures var e := CheckoutSpec(Some(prices), userId, lines, lost, Pay(Total(prices, lines), approved), now,
                                  t, orders, items);
            e.result.value.status == Paid <==> 0 < Total(prices, lines) && approved
  {
    StoredOrderFollowsPaymentReply(prices, userId, lines, lost, Pay(Total(prices, lines), approved), now,
                                   t, orders, items);
  }
}
