/** Order fulfilment: orders and their lines, each line taking stock from one inventory lot.
    Every mutating operation runs in one transaction, modelled by working on copies of the
    tables and assigning them back only when nothing failed. */
module OrderService {
  import opened Models
  import opened Store
  import opened Sorting

  /** One line as a request describes it (CreateOrderDetailDto / UpdateOrderDetailDto). */
  datatype DetailInput = DetailInput(
    inventoryId: int,
    productId: int,
    unitPrice: Money,
    quantity: int,
    packagingCost: Money,
    otherCost: Money,
    notes: Option<string>)

  /** The order fields CreateOrderWithDetails takes; it sets no name and no shipping fee. */
  datatype OrderHeader = OrderHeader(orderNo: string, imageUrl: Option<string>, revenue: Money, transactionTime: Instant)

  /** UpdateOrderDto: name and shipping fee are part of the request but are not applied. */
  datatype OrderUpdate = OrderUpdate(
    orderNo: string,
    name: string,
    imageUrl: Option<string>,
    revenue: Money,
    shippingFee: Money,
    transactionTime: Instant)

  /** An order as the queries return it, with its cost computed from its lines. */
  datatype OrderView = OrderView(id: int, order: Order, totalCost: Money)

  // ---------------------------------------------------------------------------
  // Line cost and stock movements
  // ---------------------------------------------------------------------------

  /** Cost of a line: the lot's unit cost times the quantity, plus packaging and other costs. */
  function Subtotal(unitCost: Money, d: DetailInput): Money {
    unitCost * d.quantity as real + d.packagingCost + d.otherCost
  }

  function NewLine(orderId: int, d: DetailInput, unitCost: Money): Line {
    Line(orderId, d.inventoryId, d.productId, d.unitPrice, d.quantity, d.packagingCost, d.otherCost,
         Subtotal(unitCost, d), d.notes, false)
  }

  function BareOrder(h: OrderHeader): Order {
    Order(h.orderNo, "", h.imageUrl, h.revenue, 0.0, h.transactionTime, false)
  }

  /** Two versions of a lot that differ at most in their stock. */
  predicate SameExceptStock(a: Lot, b: Lot) {
    a.(stockQuantity := 0) == b.(stockQuantity := 0)
  }

  /** The stock check and decrement every line creation performs on its lot: a missing or
      soft-deleted lot is not found; a lot with less stock than asked for is refused. */
  function Take(lots: seq<Lot>, id: int, qty: int): (r: Result<seq<Lot>>)
    ensures r.Ok? <==> LiveLot(lots, id) && lots[id].stockQuantity >= qty
    ensures !LiveLot(lots, id) ==> r == Err(NotFound(Inventory, id))
    ensures LiveLot(lots, id) && lots[id].stockQuantity < qty ==>
              r == Err(InsufficientStock(lots[id].stockQuantity, qty))
    ensures r.Ok? ==> |r.value| == |lots|
                      && r.value[id].stockQuantity == lots[id].stockQuantity - qty
                      && (forall k :: 0 <= k < |lots| ==> SameExceptStock(r.value[k], lots[k]))
                      && (forall k :: 0 <= k < |lots| && k != id ==> r.value[k] == lots[k])
  {
    if !LiveLot(lots, id) then Err(NotFound(Inventory, id))
    else if lots[id].stockQuantity < qty then Err(InsufficientStock(lots[id].stockQuantity, qty))
    else Ok(lots[id := lots[id].(stockQuantity := lots[id].stockQuantity - qty)])
  }

  /** Gives qty units back to lot id. */
  function Restore(lots: seq<Lot>, id: int, qty: int): seq<Lot>
    requires 0 <= id < |lots|
  {
    lots[id := lots[id].(stockQuantity := lots[id].stockQuantity + qty)]
  }

  // ---------------------------------------------------------------------------
  // Order cost
  // ---------------------------------------------------------------------------

  /** What a line adds to the cost of order orderId. */
  function Contribution(l: Line, orderId: int): Money {
    if !l.deleted && l.orderId == orderId then l.subtotalCost else 0.0
  }

  /** TotalCost of an order: the sum of the subtotals of its live lines. */
  function TotalCost(lines: seq<Line>, orderId: int): Money
    decreases |lines|
  {
    if lines == [] then 0.0
    else TotalCost(lines[..|lines| - 1], orderId) + Contribution(lines[|lines| - 1], orderId)
  }

  lemma {:induction false} TotalCostConcat(a: seq<Line>, b: seq<Line>, orderId: int)
    ensures TotalCost(a + b, orderId) == TotalCost(a, orderId) + TotalCost(b, orderId)
    decreases |b|
  {
    if b == [] {
      assert a + b == a;
    } else {
      assert (a + b)[..|a + b| - 1] == a + b[..|b| - 1];
      TotalCostConcat(a, b[..|b| - 1], orderId);
    }
  }

  /** Replacing one line changes an order's cost by what the new line adds minus what the old one added. */
  lemma {:induction false} TotalCostReplace(lines: seq<Line>, i: int, l: Line, orderId: int)
    requires 0 <= i < |lines|
    ensures TotalCost(lines[i := l], orderId)
            == TotalCost(lines, orderId) - Contribution(lines[i], orderId) + Contribution(l, orderId)
    decreases |lines|
  {
    var n := |lines|;
    if i == n - 1 {
      assert lines[i := l][..n - 1] == lines[..n - 1];
    } else {
      assert lines[i := l][..n - 1] == lines[..n - 1][i := l];
      TotalCostReplace(lines[..n - 1], i, l, orderId);
    }
  }

  /** An order none of whose lines is live costs nothing. */
  lemma {:induction false} TotalCostWithoutLiveLines(lines: seq<Line>, orderId: int)
    requires forall i :: 0 <= i < |lines| ==> lines[i].deleted || lines[i].orderId != orderId
    ensures TotalCost(lines, orderId) == 0.0
    decreases |lines|
  {
    if lines != [] {
      TotalCostWithoutLiveLines(lines[..|lines| - 1], orderId);
    }
  }

  // ---------------------------------------------------------------------------
  // Placing the lines of a new order
  // ---------------------------------------------------------------------------

  /** Units the requests ask of lot id, summed over the requests. */
  function Demand(ds: seq<DetailInput>, id: int): int
    decreases |ds|
  {
    if ds == [] then 0
    else Demand(ds[..|ds| - 1], id) + (if ds[|ds| - 1].inventoryId == id then ds[|ds| - 1].quantity else 0)
  }

  lemma {:induction false} DemandFirst(ds: seq<DetailInput>, id: int)
    requires ds != []
    ensures Demand(ds, id) == (if ds[0].inventoryId == id then ds[0].quantity else 0) + Demand(ds[1..], id)
    decreases |ds|
  {
    if |ds| > 1 {
      assert ds[..|ds| - 1][1..] == ds[1..][..|ds[1..]| - 1];
      DemandFirst(ds[..|ds| - 1], id);
    } else {
      assert ds[..|ds| - 1] == [] && ds[1..] == [];
    }
  }

  lemma {:induction false} DemandUnnamed(ds: seq<DetailInput>, id: int)
    requires forall j :: 0 <= j < |ds| ==> ds[j].inventoryId != id
    ensures Demand(ds, id) == 0
    decreases |ds|
  {
    if ds != [] {
      DemandUnnamed(ds[..|ds| - 1], id);
    }
  }

  /** Line j can be placed: its lot is live and still holds enough once the earlier lines
      of the same request have taken their share. */
  predicate FeasibleAt(lots: seq<Lot>, ds: seq<DetailInput>, j: int)
    requires 0 <= j < |ds|
  {
    && LiveLot(lots, ds[j].inventoryId)
    && lots[ds[j].inventoryId].stockQuantity - Demand(ds[..j], ds[j].inventoryId) >= ds[j].quantity
  }

  predicate Feasible(lots: seq<Lot>, ds: seq<DetailInput>) {
    forall j :: 0 <= j < |ds| ==> FeasibleAt(lots, ds, j)
  }

  /** The loop of CreateOrderWithDetails: each line in turn takes its quantity from its lot,
      checked against the stock the earlier lines left, and is appended with its subtotal. */
  function PlaceDetails(lots: seq<Lot>, lines: seq<Line>, orderId: int, ds: seq<DetailInput>)
    : (r: Result<(seq<Lot>, seq<Line>)>)
    ensures r.Ok? ==> forall j :: 0 <= j < |ds| ==> LiveLot(lots, ds[j].inventoryId)
    ensures r.Err? ==> r.error.NotFound? || r.error.InsufficientStock?
    decreases |ds|
  {
    if ds == [] then Ok((lots, lines))
    else
      match Take(lots, ds[0].inventoryId, ds[0].quantity)
      case Err(e) => Err(e)
      case Ok(taken) =>
        var r := PlaceDetails(taken, lines + [NewLine(orderId, ds[0], lots[ds[0].inventoryId].unitCost)], orderId, ds[1..]);
        assert r.Ok? ==> forall j :: 1 <= j < |ds| ==> ds[j] == ds[1..][j - 1];
        r
  }

  /** Each lot loses exactly what the request asks of it; nothing but stock changes. */
  lemma {:induction false} PlaceDetailsStock(lots: seq<Lot>, lines: seq<Line>, orderId: int, ds: seq<DetailInput>)
    requires PlaceDetails(lots, lines, orderId, ds).Ok?
    ensures var after := PlaceDetails(lots, lines, orderId, ds).value.0;
            && |after| == |lots|
            && forall k :: 0 <= k < |lots| ==>
                 SameExceptStock(after[k], lots[k]) && after[k].stockQuantity == lots[k].stockQuantity - Demand(ds, k)
    decreases |ds|
  {
    if ds != [] {
      var taken := Take(lots, ds[0].inventoryId, ds[0].quantity).value;
      var lines' := lines + [NewLine(orderId, ds[0], lots[ds[0].inventoryId].unitCost)];
      PlaceDetailsStock(taken, lines', orderId, ds[1..]);
      forall k | 0 <= k < |lots| {
        DemandFirst(ds, k);
      }
    }
  }

  /** The new lines follow the old ones, in request order, each costed at its lot's unit cost. */
  lemma {:induction false} PlaceDetailsLines(lots: seq<Lot>, lines: seq<Line>, orderId: int, ds: seq<DetailInput>)
    requires PlaceDetails(lots, lines, orderId, ds).Ok?
    ensures var after := PlaceDetails(lots, lines, orderId, ds).value.1;
            && |after| == |lines| + |ds|
            && after[..|lines|] == lines
            && forall j :: 0 <= j < |ds| ==>
                 after[|lines| + j] == NewLine(orderId, ds[j], lots[ds[j].inventoryId].unitCost)
    decreases |ds|
  {
    if ds != [] {
      var taken := Take(lots, ds[0].inventoryId, ds[0].quantity).value;
      var lines' := lines + [NewLine(orderId, ds[0], lots[ds[0].inventoryId].unitCost)];
      PlaceDetailsLines(taken, lines', orderId, ds[1..]);
      var after := PlaceDetails(lots, lines, orderId, ds).value.1;
      assert after[..|lines'|] == lines';
      assert after[..|lines|] == lines' [..|lines|];
      forall j | 1 <= j < |ds|
        ensures after[|lines| + j] == NewLine(orderId, ds[j], lots[ds[j].inventoryId].unitCost)
      {
        assert ds[1..][j - 1] == ds[j];
        assert after[|lines'| + (j - 1)] == NewLine(orderId, ds[j], taken[ds[j].inventoryId].unitCost);
      }
    }
  }

  lemma {:induction false} DemandPrefixStep(ds: seq<DetailInput>, j: int, id: int)
    requires 1 <= j <= |ds|
    ensures Demand(ds[..j], id) == (if ds[0].inventoryId == id then ds[0].quantity else 0) + Demand(ds[1..][..j - 1], id)
  {
    DemandFirst(ds[..j], id);
    assert ds[..j][1..] == ds[1..][..j - 1];
  }

  /** The cumulative stock check: placing succeeds exactly when every line fits into what its
      lot holds after the earlier lines of the same request. */
  lemma {:induction false} PlaceDetailsOkIff(lots: seq<Lot>, lines: seq<Line>, orderId: int, ds: seq<DetailInput>)
    ensures PlaceDetails(lots, lines, orderId, ds).Ok? <==> Feasible(lots, ds)
    decreases |ds|
  {
    if ds != [] {
      var x0, q0 := ds[0].inventoryId, ds[0].quantity;
      assert ds[..0] == [];
      var taken := Take(lots, x0, q0);
      if taken.Err? {
        assert !FeasibleAt(lots, ds, 0);
      } else {
        var lots1 := taken.value;
        var lines1 := lines + [NewLine(orderId, ds[0], lots[x0].unitCost)];
        PlaceDetailsOkIff(lots1, lines1, orderId, ds[1..]);
        forall j | 1 <= j < |ds|
          ensures FeasibleAt(lots, ds, j) <==> FeasibleAt(lots1, ds[1..], j - 1)
        {
          assert ds[1..][j - 1] == ds[j];
          DemandPrefixStep(ds, j, ds[j].inventoryId);
        }
        if Feasible(lots1, ds[1..]) {
          forall j | 0 <= j < |ds| ensures FeasibleAt(lots, ds, j) {
            if j > 0 { assert FeasibleAt(lots1, ds[1..], j - 1); }
          }
        }
        if Feasible(lots, ds) {
          forall j | 0 <= j < |ds| - 1 ensures FeasibleAt(lots1, ds[1..], j) {
            assert FeasibleAt(lots, ds, j + 1);
          }
        }
      }
    }
  }

  /** Placing lines never drives a lot's stock below zero, whatever the quantities' signs:
      each line is checked against the stock left by the ones before it. */
  lemma {:induction false} PlaceDetailsKeepsStockNonNegative(lots: seq<Lot>, lines: seq<Line>, orderId: int, ds: seq<DetailInput>)
    requires forall k :: 0 <= k < |lots| ==> lots[k].stockQuantity >= 0
    requires PlaceDetails(lots, lines, orderId, ds).Ok?
    ensures var after := PlaceDetails(lots, lines, orderId, ds).value.0;
            forall k :: 0 <= k < |after| ==> after[k].stockQuantity >= 0
    decreases |ds|
  {
    if ds != [] {
      var taken := Take(lots, ds[0].inventoryId, ds[0].quantity).value;
      PlaceDetailsKeepsStockNonNegative(taken, lines + [NewLine(orderId, ds[0], lots[ds[0].inventoryId].unitCost)], orderId, ds[1..]);
    }
  }

  // ---------------------------------------------------------------------------
  // CreateOrderWithDetails
  // ---------------------------------------------------------------------------

  predicate ProductsExist(products: seq<Product>, ds: seq<DetailInput>) {
    forall j :: 0 <= j < |ds| ==> 0 <= ds[j].productId < |products|
  }

  /** Sum of the subtotals the requests will get, each at its lot's unit cost. */
  function SubtotalSum(lots: seq<Lot>, ds: seq<DetailInput>): Money
    requires forall j :: 0 <= j < |ds| ==> 0 <= ds[j].inventoryId < |lots|
    decreases |ds|
  {
    if ds == [] then 0.0
    else SubtotalSum(lots, ds[..|ds| - 1]) + Subtotal(lots[ds[|ds| - 1].inventoryId].unitCost, ds[|ds| - 1])
  }

  /** The order row is saved first, so unique_order_no (over every row, soft-deleted ones
      included) rejects a used number before any line is looked at. Then the lines are placed;
      the final save checks the lines' product foreign key. Any failure rolls everything back. */
  function CreateOrderWithDetailsSpec(t: Tables, h: OrderHeader, ds: seq<DetailInput>): (r: Result<Commit<int>>)
    ensures Consistent(t) && r.Ok? ==> Consistent(r.value.tables)
    ensures r.Ok? ==> var u := r.value.tables;
              && r.value.value == |t.orders|
              && u.orders == t.orders + [BareOrder(h)]
              && u.categories == t.categories && u.suppliers == t.suppliers
              && u.products == t.products && u.purchases == t.purchases
  {
    if OrderNoHeld(t.orders, h.orderNo, |t.orders|) then Err(DuplicateKey)
    else
      var orderId := |t.orders|;
      var placed := PlaceDetails(t.lots, t.lines, orderId, ds);
      if placed.Err? then Err(placed.error)
      else if !ProductsExist(t.products, ds) then Err(ForeignKey)
      else
        var u := t.(orders := t.orders + [BareOrder(h)], lots := placed.value.0, lines := placed.value.1);
        PlaceDetailsStock(t.lots, t.lines, orderId, ds);
        PlaceDetailsLines(t.lots, t.lines, orderId, ds);
        assert Consistent(t) ==> Consistent(u) by {
          if Consistent(t) {
            forall i | 0 <= i < |u.lines|
              ensures 0 <= u.lines[i].orderId < |u.orders|
              ensures 0 <= u.lines[i].inventoryId < |u.lots|
              ensures 0 <= u.lines[i].productId < |u.products|
            {
              if i < |t.lines| {
                assert u.lines[i] == u.lines[..|t.lines|][i];
              } else {
                assert u.lines[|t.lines| + (i - |t.lines|)] == NewLine(orderId, ds[i - |t.lines|], t.lots[ds[i - |t.lines|].inventoryId].unitCost);
              }
            }
            forall i | 0 <= i < |u.lots|
              ensures 0 <= u.lots[i].productId < |u.products| && 0 <= u.lots[i].purchaseId < |u.purchases|
            {
              assert SameExceptStock(u.lots[i], t.lots[i]);
            }
          }
        }
        Ok(Commit(u, orderId))
  }

  /** Creation succeeds exactly when the number is unused, every line fits the stock its lot has
      left after the earlier lines, and every line names an existing product. Nothing else is
      checked: not the sign of a quantity, not that a line's product is its lot's product. */
  lemma CreateOrderWithDetailsOkIff(t: Tables, h: OrderHeader, ds: seq<DetailInput>)
    ensures CreateOrderWithDetailsSpec(t, h, ds).Ok? <==>
            !OrderNoHeld(t.orders, h.orderNo, |t.orders|) && Feasible(t.lots, ds) && ProductsExist(t.products, ds)
  {
    PlaceDetailsOkIff(t.lots, t.lines, |t.orders|, ds);
  }

  lemma {:induction false} TotalCostOfNewLines(lots: seq<Lot>, ds: seq<DetailInput>, orderId: int, added: seq<Line>)
    requires forall j :: 0 <= j < |ds| ==> 0 <= ds[j].inventoryId < |lots|
    requires |added| == |ds|
    requires forall j :: 0 <= j < |ds| ==> added[j] == NewLine(orderId, ds[j], lots[ds[j].inventoryId].unitCost)
    ensures TotalCost(added, orderId) == SubtotalSum(lots, ds)
    decreases |ds|
  {
    if ds != [] {
      TotalCostOfNewLines(lots, ds[..|ds| - 1], orderId, added[..|added| - 1]);
    }
  }

  /** On success every lot loses exactly the units the lines ask of it and nothing else about it
      changes. */
  lemma CreateOrderWithDetailsStock(t: Tables, h: OrderHeader, ds: seq<DetailInput>)
    requires CreateOrderWithDetailsSpec(t, h, ds).Ok?
    ensures forall j :: 0 <= j < |ds| ==> LiveLot(t.lots, ds[j].inventoryId)
    ensures var u := CreateOrderWithDetailsSpec(t, h, ds).value.tables;
            && |u.lots| == |t.lots|
            && (forall k :: 0 <= k < |t.lots| ==>
                  SameExceptStock(u.lots[k], t.lots[k]) && u.lots[k].stockQuantity == t.lots[k].stockQuantity - Demand(ds, k))
  {
    PlaceDetailsStock(t.lots, t.lines, |t.orders|, ds);
  }

  /** The new order's TotalCost is the sum of its lines' subtotals, each at its lot's unit cost
      (given that no earlier line can belong to an order id not yet issued). */
  lemma CreateOrderWithDetailsCost(t: Tables, h: OrderHeader, ds: seq<DetailInput>)
    requires Consistent(t)
    requires CreateOrderWithDetailsSpec(t, h, ds).Ok?
    ensures TotalCost(CreateOrderWithDetailsSpec(t, h, ds).value.tables.lines, |t.orders|) == SubtotalSum(t.lots, ds)
  {
    var orderId := |t.orders|;
    var after := PlaceDetails(t.lots, t.lines, orderId, ds).value.1;
    PlaceDetailsLines(t.lots, t.lines, orderId, ds);
    var added := after[|t.lines|..];
    assert after == t.lines + added by {
      assert after[..|t.lines|] == t.lines;
    }
    forall j | 0 <= j < |ds|
      ensures added[j] == NewLine(orderId, ds[j], t.lots[ds[j].inventoryId].unitCost)
    {
      assert added[j] == after[|t.lines| + j];
    }
    TotalCostConcat(t.lines, added, orderId);
    TotalCostWithoutLiveLines(t.lines, orderId);
    TotalCostOfNewLines(t.lots, ds, orderId, added);
  }

  /** With positive quantities, creating an order keeps the stock invariant. */
  lemma CreateOrderWithDetailsKeepsStockInvariant(t: Tables, h: OrderHeader, ds: seq<DetailInput>)
    requires Consistent(t) && StockInvariant(t)
    requires forall j :: 0 <= j < |ds| ==> ds[j].quantity > 0
    requires CreateOrderWithDetailsSpec(t, h, ds).Ok?
    ensures StockInvariant(CreateOrderWithDetailsSpec(t, h, ds).value.tables)
  {
    var orderId := |t.orders|;
    PlaceDetailsKeepsStockNonNegative(t.lots, t.lines, orderId, ds);
    PlaceDetailsStock(t.lots, t.lines, orderId, ds);
    PlaceDetailsLines(t.lots, t.lines, orderId, ds);
    var u := CreateOrderWithDetailsSpec(t, h, ds).value.tables;
    forall i | 0 <= i < |u.lines|
      ensures u.lines[i].quantity > 0
      ensures !u.lines[i].deleted ==> LiveLot(u.lots, u.lines[i].inventoryId)
    {
      if i < |t.lines| {
        assert u.lines[i] == u.lines[..|t.lines|][i];
        assert SameExceptStock(u.lots[t.lines[i].inventoryId], t.lots[t.lines[i].inventoryId]) by {
          if !t.lines[i].deleted {
            assert LiveLot(t.lots, t.lines[i].inventoryId);
          }
        }
      } else {
        var j := i - |t.lines|;
        assert u.lines[|t.lines| + j] == NewLine(orderId, ds[j], t.lots[ds[j].inventoryId].unitCost);
        assert SameExceptStock(u.lots[ds[j].inventoryId], t.lots[ds[j].inventoryId]);
      }
    }
  }

  method CreateOrderWithDetails(db: Ledger, h: OrderHeader, ds: seq<DetailInput>) returns (r: Result<int>)
    requires db.Valid()
    modifies db
    ensures db.Valid()
    ensures var s := CreateOrderWithDetailsSpec(old(db.Snapshot()), h, ds);
            r == Outcome(s) && db.Snapshot() == After(s, old(db.Snapshot()))
  {
    ghost var t := db.Snapshot();
    // first save: the order row meets unique_order_no
    if OrderNoHeld(db.orders, h.orderNo, |db.orders|) {
      return Err(DuplicateKey);
    }
    var orderId := |db.orders|;
    // the transaction's working copies of the two tables the lines change
    var lots, lines := db.lots, db.lines;
    var i := 0;
    while i < |ds|
      invariant 0 <= i <= |ds|
      invariant PlaceDetails(t.lots, t.lines, orderId, ds) == PlaceDetails(lots, lines, orderId, ds[i..])
    {
      var d := ds[i];
      assert ds[i..][0] == d && ds[i..][1..] == ds[i + 1..];
      if !LiveLot(lots, d.inventoryId) {
        return Err(NotFound(Inventory, d.inventoryId));
      }
      var lot := lots[d.inventoryId];
      if lot.stockQuantity < d.quantity {
        return Err(InsufficientStock(lot.stockQuantity, d.quantity));
      }
      lines := lines + [NewLine(orderId, d, lot.unitCost)];
      lots := lots[d.inventoryId := lot.(stockQuantity := lot.stockQuantity - d.quantity)];
      i := i + 1;
    }
    assert ds[i..] == [];
    // final save: the lines' foreign keys
    if !ProductsExist(db.products, ds) {
      return Err(ForeignKey);
    }
    db.orders := db.orders + [BareOrder(h)];
    db.lots, db.lines := lots, lines;
    assert db.Snapshot() == CreateOrderWithDetailsSpec(t, h, ds).value.tables;
    r := Ok(orderId);
  }

  // ---------------------------------------------------------------------------
  // CreateOrderDetail
  // ---------------------------------------------------------------------------

  /** Adds one line to order orderId. Only the lot is checked by the service; the order and the
      product are checked by their foreign keys, which a soft-deleted row still satisfies. */
  function CreateOrderDetailSpec(t: Tables, orderId: int, d: DetailInput): (r: Result<Commit<int>>)
    ensures Consistent(t) && r.Ok? ==> Consistent(r.value.tables)
    ensures r.Ok? <==> && LiveLot(t.lots, d.inventoryId) && t.lots[d.inventoryId].stockQuantity >= d.quantity
                       && 0 <= orderId < |t.orders| && 0 <= d.productId < |t.products|
    ensures !LiveLot(t.lots, d.inventoryId) ==> r == Err(NotFound(Inventory, d.inventoryId))
    ensures LiveLot(t.lots, d.inventoryId) && t.lots[d.inventoryId].stockQuantity < d.quantity ==>
              r == Err(InsufficientStock(t.lots[d.inventoryId].stockQuantity, d.quantity))
    ensures r.Ok? ==> var u := r.value.tables;
              && r.value.value == |t.lines|
              && u.lines == t.lines + [NewLine(orderId, d, t.lots[d.inventoryId].unitCost)]
              && u.categories == t.categories && u.suppliers == t.suppliers && u.products == t.products
              && u.purchases == t.purchases && u.orders == t.orders
  {
    match Take(t.lots, d.inventoryId, d.quantity)
    case Err(e) => Err(e)
    case Ok(taken) =>
      if !(0 <= orderId < |t.orders|) || !(0 <= d.productId < |t.products|) then Err(ForeignKey)
      else
        var u := t.(lots := taken, lines := t.lines + [NewLine(orderId, d, t.lots[d.inventoryId].unitCost)]);
        assert Consistent(t) ==> ForeignKeysHold(u) by {
          if Consistent(t) {
            forall k | 0 <= k < |taken| ensures 0 <= taken[k].productId < |u.products| && 0 <= taken[k].purchaseId < |u.purchases| {
              assert SameExceptStock(taken[k], t.lots[k]);
            }
          }
        }
        Ok(Commit(u, |t.lines|))
  }

  /** A new line takes exactly its quantity from its lot, changes no other lot, and raises its
      order's cost by its subtotal while leaving every other order's cost as it was. */
  lemma CreateOrderDetailEffect(t: Tables, orderId: int, d: DetailInput, o: int)
    requires CreateOrderDetailSpec(t, orderId, d).Ok?
    ensures var u := CreateOrderDetailSpec(t, orderId, d).value.tables;
            && |u.lots| == |t.lots|
            && u.lots[d.inventoryId].stockQuantity == t.lots[d.inventoryId].stockQuantity - d.quantity
            && SameExceptStock(u.lots[d.inventoryId], t.lots[d.inventoryId])
            && (forall k :: 0 <= k < |t.lots| && k != d.inventoryId ==> u.lots[k] == t.lots[k])
            && TotalCost(u.lines, o) == TotalCost(t.lines, o)
                 + (if o == orderId then Subtotal(t.lots[d.inventoryId].unitCost, d) else 0.0)
  {
    var u := CreateOrderDetailSpec(t, orderId, d).value.tables;
    assert u.lines[..|u.lines| - 1] == t.lines;
  }

  /** Adding a line with a positive quantity keeps every lot's stock non-negative and every live
      line on a live lot. */
  lemma CreateOrderDetailKeepsStockInvariant(t: Tables, orderId: int, d: DetailInput)
    requires Consistent(t) && StockInvariant(t) && d.quantity > 0
    requires CreateOrderDetailSpec(t, orderId, d).Ok?
    ensures StockInvariant(CreateOrderDetailSpec(t, orderId, d).value.tables)
  {
    var u := CreateOrderDetailSpec(t, orderId, d).value.tables;
    CreateOrderDetailEffect(t, orderId, d, orderId);
    forall i | 0 <= i < |u.lines| && !u.lines[i].deleted ensures LiveLot(u.lots, u.lines[i].inventoryId) {
      var k := u.lines[i].inventoryId;
      if i < |t.lines| {
        assert u.lines[i] == t.lines[i];
        assert LiveLot(t.lots, k);
      }
      if k != d.inventoryId {
        assert u.lots[k] == t.lots[k];
      }
    }
  }

  method CreateOrderDetail(db: Ledger, orderId: int, d: DetailInput) returns (r: Result<int>)
    requires db.Valid()
    modifies db
    ensures db.Valid()
    ensures var s := CreateOrderDetailSpec(old(db.Snapshot()), orderId, d);
            r == Outcome(s) && db.Snapshot() == After(s, old(db.Snapshot()))
  {
    ghost var t := db.Snapshot();
    if !LiveLot(db.lots, d.inventoryId) {
      return Err(NotFound(Inventory, d.inventoryId));
    }
    var lot := db.lots[d.inventoryId];
    if lot.stockQuantity < d.quantity {
      return Err(InsufficientStock(lot.stockQuantity, d.quantity));
    }
    var lines := db.lines + [NewLine(orderId, d, lot.unitCost)];
    var lots := db.lots[d.inventoryId := lot.(stockQuantity := lot.stockQuantity - d.quantity)];
    // the save checks the line's foreign keys
    if !(0 <= orderId < |db.orders|) || !(0 <= d.productId < |db.products|) {
      return Err(ForeignKey);
    }
    r := Ok(|db.lines|);
    db.lots, db.lines := lots, lines;
    assert db.Snapshot() == CreateOrderDetailSpec(t, orderId, d).value.tables;
  }

  // ---------------------------------------------------------------------------
  // Giving stock back
  // ---------------------------------------------------------------------------

  /** Returns line l's quantity to its lot, when that lot is still live; a soft-deleted lot
      gets nothing back. */
  function Released(lots: seq<Lot>, l: Line): (r: seq<Lot>)
    ensures |r| == |lots| && forall k :: 0 <= k < |lots| ==> SameExceptStock(r[k], lots[k])
    ensures forall k :: 0 <= k < |lots| ==>
              r[k].stockQuantity == lots[k].stockQuantity + (if k == l.inventoryId && LiveLot(lots, k) then l.quantity else 0)
  {
    if LiveLot(lots, l.inventoryId) then Restore(lots, l.inventoryId, l.quantity) else lots
  }

  lemma SameExceptStockEq(a: Lot, b: Lot)
    requires SameExceptStock(a, b) && a.stockQuantity == b.stockQuantity
    ensures a == b
  {
    assert a == a.(stockQuantity := 0).(stockQuantity := a.stockQuantity);
  }

  // ---------------------------------------------------------------------------
  // UpdateOrderDetail
  // ---------------------------------------------------------------------------

  /** Re-points a live line: the old lot first gets the old quantity back (if it is live), then the
      new lot is checked and charged, and the line is rewritten with a subtotal at the new lot's unit
      cost. The line keeps its order. A missing or soft-deleted line gives null and changes nothing. */
  function UpdateOrderDetailSpec(t: Tables, id: int, d: DetailInput): (r: Result<Commit<Option<Line>>>)
    ensures Consistent(t) && r.Ok? ==> Consistent(r.value.tables)
    ensures !LiveLine(t.lines, id) ==> r == Ok(Commit(t, None))
    ensures LiveLine(t.lines, id) ==> var back := Released(t.lots, t.lines[id]);
              && (r.Ok? <==> LiveLot(t.lots, d.inventoryId) && back[d.inventoryId].stockQuantity >= d.quantity
                             && 0 <= d.productId < |t.products|)
              && (!LiveLot(t.lots, d.inventoryId) ==> r == Err(NotFound(Inventory, d.inventoryId)))
              && (LiveLot(t.lots, d.inventoryId) && back[d.inventoryId].stockQuantity < d.quantity ==>
                    r == Err(InsufficientStock(back[d.inventoryId].stockQuantity, d.quantity)))
    ensures LiveLine(t.lines, id) && r.Ok? ==> var u := r.value.tables;
              && var revised := NewLine(t.lines[id].orderId, d, t.lots[d.inventoryId].unitCost);
              && u.lines == t.lines[id := revised] && r.value.value == Some(revised)
              && u.categories == t.categories && u.suppliers == t.suppliers && u.products == t.products
              && u.purchases == t.purchases && u.orders == t.orders
  {
    if !LiveLine(t.lines, id) then Ok(Commit(t, None))
    else
      var l := t.lines[id];
      var back := Released(t.lots, l);
      match Take(back, d.inventoryId, d.quantity)
      case Err(e) => Err(e)
      case Ok(taken) =>
        if !(0 <= d.productId < |t.products|) then Err(ForeignKey)
        else
          assert SameExceptStock(back[d.inventoryId], t.lots[d.inventoryId]);
          var revised := NewLine(l.orderId, d, back[d.inventoryId].unitCost);
          var u := t.(lots := taken, lines := t.lines[id := revised]);
          assert Consistent(t) ==> ForeignKeysHold(u) by {
            if Consistent(t) {
              forall k | 0 <= k < |taken| ensures 0 <= taken[k].productId < |u.products| && 0 <= taken[k].purchaseId < |u.purchases| {
                assert SameExceptStock(taken[k], back[k]) && SameExceptStock(back[k], t.lots[k]);
              }
            }
          }
          Ok(Commit(u, Some(revised)))
  }

  /** The net effect of moving a line: its old lot gains the old quantity (when live), its new lot
      loses the new quantity, nothing else about any lot changes; the line's order's cost changes by
      the new subtotal minus the old one. */
  lemma UpdateOrderDetailEffect(t: Tables, id: int, d: DetailInput, o: int)
    requires LiveLine(t.lines, id)
    requires UpdateOrderDetailSpec(t, id, d).Ok?
    ensures var u := UpdateOrderDetailSpec(t, id, d).value.tables; var l := t.lines[id];
            && |u.lots| == |t.lots|
            && (forall k :: 0 <= k < |t.lots| ==> SameExceptStock(u.lots[k], t.lots[k]))
            && (forall k :: 0 <= k < |t.lots| ==>
                  u.lots[k].stockQuantity == t.lots[k].stockQuantity
                    + (if k == l.inventoryId && LiveLot(t.lots, k) then l.quantity else 0)
                    - (if k == d.inventoryId then d.quantity else 0))
            && TotalCost(u.lines, o) == TotalCost(t.lines, o)
                 + (if o == l.orderId then Subtotal(t.lots[d.inventoryId].unitCost, d) - l.subtotalCost else 0.0)
  {
    var u := UpdateOrderDetailSpec(t, id, d).value.tables;
    var l := t.lines[id];
    var back := Released(t.lots, l);
    forall k | 0 <= k < |t.lots| ensures SameExceptStock(u.lots[k], t.lots[k]) {
      assert SameExceptStock(u.lots[k], back[k]) && SameExceptStock(back[k], t.lots[k]);
    }
    TotalCostReplace(t.lines, id, NewLine(l.orderId, d, t.lots[d.inventoryId].unitCost), o);
  }

  /** Re-pointing a live line to a positive quantity keeps every lot's stock non-negative and every
      live line on a live lot. */
  lemma UpdateOrderDetailKeepsStockInvariant(t: Tables, id: int, d: DetailInput)
    requires Consistent(t) && StockInvariant(t) && d.quantity > 0
    requires LiveLine(t.lines, id) && UpdateOrderDetailSpec(t, id, d).Ok?
    ensures StockInvariant(UpdateOrderDetailSpec(t, id, d).value.tables)
  {
    var u := UpdateOrderDetailSpec(t, id, d).value.tables;
    var back := Released(t.lots, t.lines[id]);
    UpdateOrderDetailEffect(t, id, d, t.lines[id].orderId);
    forall k | 0 <= k < |u.lots| ensures u.lots[k].stockQuantity >= 0 {
      if k == d.inventoryId {
        assert back[k].stockQuantity >= d.quantity;
      }
    }
    forall i | 0 <= i < |u.lines| && !u.lines[i].deleted ensures LiveLot(u.lots, u.lines[i].inventoryId) {
      var k := u.lines[i].inventoryId;
      if i != id {
        assert LiveLot(t.lots, k);
      }
      assert SameExceptStock(u.lots[k], t.lots[k]);
    }
  }

  method UpdateOrderDetail(db: Ledger, id: int, d: DetailInput) returns (r: Result<Option<Line>>)
    requires db.Valid()
    modifies db
    ensures db.Valid()
    ensures var s := UpdateOrderDetailSpec(old(db.Snapshot()), id, d);
            r == Outcome(s) && db.Snapshot() == After(s, old(db.Snapshot()))
  {
    ghost var t := db.Snapshot();
    if !LiveLine(db.lines, id) {
      return Ok(None);
    }
    var l := db.lines[id];
    var lots := db.lots;
    // restore the old lot
    if LiveLot(lots, l.inventoryId) {
      lots := lots[l.inventoryId := lots[l.inventoryId].(stockQuantity := lots[l.inventoryId].stockQuantity + l.quantity)];
    }
    // charge the new one
    if !LiveLot(lots, d.inventoryId) {
      return Err(NotFound(Inventory, d.inventoryId));
    }
    var lot := lots[d.inventoryId];
    if lot.stockQuantity < d.quantity {
      return Err(InsufficientStock(lot.stockQuantity, d.quantity));
    }
    lots := lots[d.inventoryId := lot.(stockQuantity := lot.stockQuantity - d.quantity)];
    var revised := NewLine(l.orderId, d, lot.unitCost);
    if !(0 <= d.productId < |db.products|) {
      return Err(ForeignKey);
    }
    db.lots, db.lines := lots, db.lines[id := revised];
    assert db.Snapshot() == UpdateOrderDetailSpec(t, id, d).value.tables;
    r := Ok(Some(revised));
  }

  // ---------------------------------------------------------------------------
  // DeleteOrderDetail
  // ---------------------------------------------------------------------------

  /** Soft-deletes a live line and gives its quantity back to its lot (if that lot is live);
      false, and no change, for a missing or already deleted line. */
  function DeleteOrderDetailSpec(t: Tables, id: int): (r: Commit<bool>)
    ensures Consistent(t) ==> Consistent(r.tables)
    ensures r.value <==> LiveLine(t.lines, id)
    ensures !r.value ==> r.tables == t
    ensures r.value ==> var u := r.tables;
              && u.lines == t.lines[id := t.lines[id].(deleted := true)]
              && u.categories == t.categories && u.suppliers == t.suppliers && u.products == t.products
              && u.purchases == t.purchases && u.orders == t.orders
  {
    if !LiveLine(t.lines, id) then Commit(t, false)
    else
      var u := t.(lots := Released(t.lots, t.lines[id]), lines := t.lines[id := t.lines[id].(deleted := true)]);
      assert Consistent(t) ==> ForeignKeysHold(u) by {
        if Consistent(t) {
          forall k | 0 <= k < |u.lots| ensures 0 <= u.lots[k].productId < |u.products| && 0 <= u.lots[k].purchaseId < |u.purchases| {
            assert SameExceptStock(u.lots[k], t.lots[k]);
          }
        }
      }
      Commit(u, true)
  }

  /** Deleting a line gives its quantity back to its live lot and takes its subtotal off its order's cost. */
  lemma DeleteOrderDetailEffect(t: Tables, id: int, o: int)
    requires LiveLine(t.lines, id)
    ensures var u := DeleteOrderDetailSpec(t, id).tables; var l := t.lines[id];
            && |u.lots| == |t.lots|
            && (forall k :: 0 <= k < |t.lots| ==> SameExceptStock(u.lots[k], t.lots[k]))
            && (forall k :: 0 <= k < |t.lots| ==>
                  u.lots[k].stockQuantity == t.lots[k].stockQuantity + (if k == l.inventoryId && LiveLot(t.lots, k) then l.quantity else 0))
            && TotalCost(u.lines, o) == TotalCost(t.lines, o) - (if o == l.orderId then l.subtotalCost else 0.0)
  {
    TotalCostReplace(t.lines, id, t.lines[id].(deleted := true), o);
  }

  /** Creating a line and then deleting it restores every lot and every order's cost. */
  lemma CreateThenDeleteOrderDetail(t: Tables, orderId: int, d: DetailInput, o: int)
    requires CreateOrderDetailSpec(t, orderId, d).Ok?
    ensures var c := CreateOrderDetailSpec(t, orderId, d).value;
            var u := DeleteOrderDetailSpec(c.tables, c.value);
            && u.value
            && u.tables.lots == t.lots
            && TotalCost(u.tables.lines, o) == TotalCost(t.lines, o)
  {
    var c := CreateOrderDetailSpec(t, orderId, d).value;
    CreateOrderDetailEffect(t, orderId, d, o);
    DeleteOrderDetailEffect(c.tables, c.value, o);
    var u := DeleteOrderDetailSpec(c.tables, c.value).tables;
    forall k | 0 <= k < |t.lots| ensures u.lots[k] == t.lots[k] {
      assert SameExceptStock(u.lots[k], c.tables.lots[k]);
      if k == d.inventoryId {
        assert SameExceptStock(c.tables.lots[k], t.lots[k]);
      }
      SameExceptStockEq(u.lots[k], t.lots[k]);
    }
  }

  /** Deleting a line keeps the stock invariant. */
  lemma DeleteOrderDetailKeepsStockInvariant(t: Tables, id: int)
    requires Consistent(t) && StockInvariant(t)
    ensures StockInvariant(DeleteOrderDetailSpec(t, id).tables)
  {
    if LiveLine(t.lines, id) {
      DeleteOrderDetailEffect(t, id, 0);
      var u := DeleteOrderDetailSpec(t, id).tables;
      forall i | 0 <= i < |u.lines| && !u.lines[i].deleted ensures LiveLot(u.lots, u.lines[i].inventoryId) {
        assert LiveLot(t.lots, t.lines[i].inventoryId);
        assert SameExceptStock(u.lots[t.lines[i].inventoryId], t.lots[t.lines[i].inventoryId]);
      }
    }
  }

  method DeleteOrderDetail(db: Ledger, id: int) returns (found: bool)
    requires db.Valid()
    modifies db
    ensures db.Valid()
    ensures var s := DeleteOrderDetailSpec(old(db.Snapshot()), id);
            found == s.value && db.Snapshot() == s.tables
  {
    ghost var t := db.Snapshot();
    if !LiveLine(db.lines, id) {
      return false;
    }
    var l := db.lines[id];
    if LiveLot(db.lots, l.inventoryId) {
      db.lots := db.lots[l.inventoryId := db.lots[l.inventoryId].(stockQuantity := db.lots[l.inventoryId].stockQuantity + l.quantity)];
    }
    db.lines := db.lines[id := l.(deleted := true)];
    assert db.Snapshot() == DeleteOrderDetailSpec(t, id).tables;
    found := true;
  }

  // ---------------------------------------------------------------------------
  // DeleteOrder
  // ---------------------------------------------------------------------------

  /** The stock DeleteOrder gives back: every live line of order orderId returns its quantity to
      its lot, when that lot is live. */
  function ReleaseAll(lots: seq<Lot>, lines: seq<Line>, orderId: int): (r: seq<Lot>)
    ensures |r| == |lots| && forall k :: 0 <= k < |lots| ==> SameExceptStock(r[k], lots[k])
    decreases |lines|
  {
    if lines == [] then lots
    else
      var prior := ReleaseAll(lots, lines[..|lines| - 1], orderId);
      var l := lines[|lines| - 1];
      if !l.deleted && l.orderId == orderId then
        var r := Released(prior, l);
        assert forall k :: 0 <= k < |lots| ==> SameExceptStock(r[k], prior[k]) && SameExceptStock(prior[k], lots[k]);
        r
      else prior
  }

  /** Units the live lines of order orderId hold from lot k. */
  function Held(lines: seq<Line>, orderId: int, k: int): int
    decreases |lines|
  {
    if lines == [] then 0
    else
      var l := lines[|lines| - 1];
      Held(lines[..|lines| - 1], orderId, k) + (if !l.deleted && l.orderId == orderId && l.inventoryId == k then l.quantity else 0)
  }

  /** Each live lot gets back exactly what the order's live lines hold of it; a soft-deleted lot gets nothing. */
  lemma {:induction false} ReleaseAllStock(lots: seq<Lot>, lines: seq<Line>, orderId: int)
    ensures forall k :: 0 <= k < |lots| ==>
              ReleaseAll(lots, lines, orderId)[k].stockQuantity
                == lots[k].stockQuantity + (if LiveLot(lots, k) then Held(lines, orderId, k) else 0)
    decreases |lines|
  {
    if lines != [] {
      var prior := ReleaseAll(lots, lines[..|lines| - 1], orderId);
      ReleaseAllStock(lots, lines[..|lines| - 1], orderId);
      assert forall k :: 0 <= k < |lots| ==> (LiveLot(prior, k) <==> LiveLot(lots, k)) by {
        forall k | 0 <= k < |lots| ensures LiveLot(prior, k) <==> LiveLot(lots, k) {
          assert SameExceptStock(prior[k], lots[k]);
        }
      }
    }
  }

  /** A line as DeleteOrder leaves it: the order's live lines are soft-deleted. */
  function Close(l: Line, orderId: int): Line {
    if !l.deleted && l.orderId == orderId then l.(deleted := true) else l
  }

  function CloseLines(lines: seq<Line>, orderId: int): (r: seq<Line>)
    ensures |r| == |lines|
    ensures forall i :: 0 <= i < |lines| ==> r[i] == Close(lines[i], orderId)
  {
    seq(|lines|, i requires 0 <= i < |lines| => Close(lines[i], orderId))
  }

  /** Soft-deletes a live order and its live lines and gives their stock back; false, and no
      change, for a missing or already deleted order. */
  function DeleteOrderSpec(t: Tables, id: int): (r: Commit<bool>)
    ensures Consistent(t) ==> Consistent(r.tables)
    ensures r.value <==> LiveOrder(t.orders, id)
    ensures !r.value ==> r.tables == t
    ensures r.value ==> var u := r.tables;
              && u.orders == t.orders[id := t.orders[id].(deleted := true)]
              && u.categories == t.categories && u.suppliers == t.suppliers && u.products == t.products
              && u.purchases == t.purchases
              && |u.lines| == |t.lines|
              && (forall i :: 0 <= i < |t.lines| ==>
                    u.lines[i] == (if !t.lines[i].deleted && t.lines[i].orderId == id then t.lines[i].(deleted := true) else t.lines[i]))
  {
    if !LiveOrder(t.orders, id) then Commit(t, false)
    else
      var u := t.(orders := t.orders[id := t.orders[id].(deleted := true)],
                  lots := ReleaseAll(t.lots, t.lines, id),
                  lines := CloseLines(t.lines, id));
      assert Consistent(t) ==> Consistent(u) by {
        if Consistent(t) {
          forall k | 0 <= k < |u.lots| ensures 0 <= u.lots[k].productId < |u.products| && 0 <= u.lots[k].purchaseId < |u.purchases| {
            assert SameExceptStock(u.lots[k], t.lots[k]);
          }
          assert forall i, j :: 0 <= i < j < |u.orders| ==> u.orders[i].orderNo == t.orders[i].orderNo && u.orders[j].orderNo == t.orders[j].orderNo;
        }
      }
      Commit(u, true)
  }

  /** Deleting an order gives every live lot back what the order's live lines held of it, and
      nothing else about any lot changes. */
  lemma DeleteOrderStock(t: Tables, id: int)
    requires LiveOrder(t.orders, id)
    ensures var u := DeleteOrderSpec(t, id).tables;
            && |u.lots| == |t.lots|
            && (forall k :: 0 <= k < |t.lots| ==> SameExceptStock(u.lots[k], t.lots[k]))
            && (forall k :: 0 <= k < |t.lots| ==>
                  u.lots[k].stockQuantity == t.lots[k].stockQuantity + (if LiveLot(t.lots, k) then Held(t.lines, id, k) else 0))
  {
    ReleaseAllStock(t.lots, t.lines, id);
  }

  lemma {:induction false} TotalCostClosed(lines: seq<Line>, orderId: int, o: int)
    ensures TotalCost(CloseLines(lines, orderId), o) == if o == orderId then 0.0 else TotalCost(lines, o)
    decreases |lines|
  {
    if lines != [] {
      assert CloseLines(lines, orderId)[..|lines| - 1] == CloseLines(lines[..|lines| - 1], orderId);
      TotalCostClosed(lines[..|lines| - 1], orderId, o);
    }
  }

  /** After deleting an order its cost is zero and every other order's cost is unchanged. */
  lemma DeleteOrderCost(t: Tables, id: int, o: int)
    requires LiveOrder(t.orders, id)
    ensures var u := DeleteOrderSpec(t, id).tables;
            TotalCost(u.lines, o) == if o == id then 0.0 else TotalCost(t.lines, o)
  {
    TotalCostClosed(t.lines, id, o);
  }

  /** Demand placed by the new lines is exactly what they hold once appended as lines of the order. */
  lemma {:induction false} HeldOfNewLines(lots: seq<Lot>, ds: seq<DetailInput>, orderId: int, added: seq<Line>, k: int)
    requires forall j :: 0 <= j < |ds| ==> 0 <= ds[j].inventoryId < |lots|
    requires |added| == |ds|
    requires forall j :: 0 <= j < |ds| ==> added[j] == NewLine(orderId, ds[j], lots[ds[j].inventoryId].unitCost)
    ensures Held(added, orderId, k) == Demand(ds, k)
    decreases |ds|
  {
    if ds != [] {
      HeldOfNewLines(lots, ds[..|ds| - 1], orderId, added[..|added| - 1], k);
    }
  }

  lemma {:induction false} HeldConcat(a: seq<Line>, b: seq<Line>, orderId: int, k: int)
    ensures Held(a + b, orderId, k) == Held(a, orderId, k) + Held(b, orderId, k)
    decreases |b|
  {
    if b == [] {
      assert a + b == a;
    } else {
      assert (a + b)[..|a + b| - 1] == a + b[..|b| - 1];
      HeldConcat(a, b[..|b| - 1], orderId, k);
    }
  }

  lemma {:induction false} HeldOfOtherOrders(lines: seq<Line>, orderId: int, k: int)
    requires forall i :: 0 <= i < |lines| ==> lines[i].orderId != orderId
    ensures Held(lines, orderId, k) == 0
    decreases |lines|
  {
    if lines != [] {
      HeldOfOtherOrders(lines[..|lines| - 1], orderId, k);
    }
  }

  /** The lines a new order is created with hold, lot by lot, exactly what its details demanded. */
  lemma CreatedOrderHolds(t: Tables, h: OrderHeader, ds: seq<DetailInput>, k: int)
    requires Consistent(t)
    requires CreateOrderWithDetailsSpec(t, h, ds).Ok?
    ensures Held(CreateOrderWithDetailsSpec(t, h, ds).value.tables.lines, |t.orders|, k) == Demand(ds, k)
  {
    var n := |t.orders|;
    var mid := CreateOrderWithDetailsSpec(t, h, ds).value.tables;
    CreateOrderWithDetailsStock(t, h, ds);
    PlaceDetailsLines(t.lots, t.lines, n, ds);
    var added := mid.lines[|t.lines|..];
    assert mid.lines == t.lines + added by {
      assert mid.lines[..|t.lines|] == t.lines;
    }
    forall j | 0 <= j < |ds|
      ensures added[j] == NewLine(n, ds[j], t.lots[ds[j].inventoryId].unitCost)
    {
      assert added[j] == mid.lines[|t.lines| + j];
    }
    HeldConcat(t.lines, added, n, k);
    HeldOfOtherOrders(t.lines, n, k);
    HeldOfNewLines(t.lots, ds, n, added, k);
  }

  /** Creating an order and then deleting it restores every lot exactly. */
  lemma CreateThenDeleteOrder(t: Tables, h: OrderHeader, ds: seq<DetailInput>)
    requires Consistent(t)
    requires CreateOrderWithDetailsSpec(t, h, ds).Ok?
    ensures var c := CreateOrderWithDetailsSpec(t, h, ds).value;
            var u := DeleteOrderSpec(c.tables, c.value);
            u.value && u.tables.lots == t.lots
  {
    var n := |t.orders|;
    var mid := CreateOrderWithDetailsSpec(t, h, ds).value.tables;
    CreateOrderWithDetailsStock(t, h, ds);
    DeleteOrderStock(mid, n);
    var u := DeleteOrderSpec(mid, n).tables;
    forall k | 0 <= k < |t.lots| ensures u.lots[k] == t.lots[k] {
      CreatedOrderHolds(t, h, ds, k);
      assert SameExceptStock(u.lots[k], mid.lots[k]) && SameExceptStock(mid.lots[k], t.lots[k]);
      if !LiveLot(t.lots, k) {
        DemandUnnamed(ds, k);
      }
      SameExceptStockEq(u.lots[k], t.lots[k]);
    }
  }

  lemma {:induction false} HeldNonNegative(lines: seq<Line>, orderId: int, k: int)
    requires forall i :: 0 <= i < |lines| ==> lines[i].quantity > 0
    ensures Held(lines, orderId, k) >= 0
    decreases |lines|
  {
    if lines != [] {
      HeldNonNegative(lines[..|lines| - 1], orderId, k);
    }
  }

  /** Deleting an order keeps the stock invariant. */
  lemma DeleteOrderKeepsStockInvariant(t: Tables, id: int)
    requires Consistent(t) && StockInvariant(t)
    ensures StockInvariant(DeleteOrderSpec(t, id).tables)
  {
    if LiveOrder(t.orders, id) {
      DeleteOrderStock(t, id);
      var u := DeleteOrderSpec(t, id).tables;
      forall k | 0 <= k < |u.lots| ensures u.lots[k].stockQuantity >= 0 {
        HeldNonNegative(t.lines, id, k);
      }
      forall i | 0 <= i < |u.lines| && !u.lines[i].deleted ensures LiveLot(u.lots, u.lines[i].inventoryId) {
        assert LiveLot(t.lots, t.lines[i].inventoryId);
        assert SameExceptStock(u.lots[t.lines[i].inventoryId], t.lots[t.lines[i].inventoryId]);
      }
    }
  }

  method DeleteOrder(db: Ledger, id: int) returns (found: bool)
    requires db.Valid()
    modifies db
    ensures db.Valid()
    ensures var s := DeleteOrderSpec(old(db.Snapshot()), id);
            found == s.value && db.Snapshot() == s.tables
  {
    ghost var t := db.Snapshot();
    if !LiveOrder(db.orders, id) {
      return false;
    }
    var lots, lines := db.lots, db.lines;
    var i := 0;
    while i < |lines|
      invariant 0 <= i <= |lines| == |t.lines|
      invariant lots == ReleaseAll(t.lots, t.lines[..i], id)
      invariant forall k :: 0 <= k < |lines| ==> lines[k] == if k < i then Close(t.lines[k], id) else t.lines[k]
    {
      assert t.lines[..i + 1][..i] == t.lines[..i];
      var l := lines[i];
      if !l.deleted && l.orderId == id {
        // give the line's units back to its lot, if the lot is live
        if LiveLot(lots, l.inventoryId) {
          lots := lots[l.inventoryId := lots[l.inventoryId].(stockQuantity := lots[l.inventoryId].stockQuantity + l.quantity)];
        }
        lines := lines[i := l.(deleted := true)];
      }
      i := i + 1;
    }
    assert t.lines[..i] == t.lines;
    assert lines == CloseLines(t.lines, id);
    db.orders := db.orders[id := db.orders[id].(deleted := true)];
    db.lots, db.lines := lots, lines;
    assert db.Snapshot() == DeleteOrderSpec(t, id).tables;
    found := true;
  }

  // ---------------------------------------------------------------------------
  // UpdateOrder
  // ---------------------------------------------------------------------------

  /** Rewrites the order number, image, revenue and transaction time of a live order; its name and
      shipping fee stay as they were although the request carries them. Lines and stock are not
      touched. A number held by another order, soft-deleted or not, is refused by unique_order_no. */
  function UpdateOrderSpec(t: Tables, id: int, e: OrderUpdate): (r: Result<Commit<Option<Order>>>)
    ensures Consistent(t) && r.Ok? ==> Consistent(r.value.tables)
    ensures !LiveOrder(t.orders, id) ==> r == Ok(Commit(t, None))
    ensures LiveOrder(t.orders, id) ==> (r.Ok? <==> !OrderNoHeld(t.orders, e.orderNo, id))
    ensures r.Err? ==> r.error == DuplicateKey
    ensures LiveOrder(t.orders, id) && r.Ok? ==>
              && r.value.value.Some?
              && var o := r.value.value.value;
              && r.value.tables == t.(orders := t.orders[id := o])
              && o.orderNo == e.orderNo && o.imageUrl == e.imageUrl && o.revenue == e.revenue
              && o.transactionTime == e.transactionTime
              && o.name == t.orders[id].name && o.shippingFee == t.orders[id].shippingFee && !o.deleted
  {
    if !LiveOrder(t.orders, id) then Ok(Commit(t, None))
    else if OrderNoHeld(t.orders, e.orderNo, id) then Err(DuplicateKey)
    else
      var o := t.orders[id].(orderNo := e.orderNo, imageUrl := e.imageUrl, revenue := e.revenue,
                             transactionTime := e.transactionTime);
      Ok(Commit(t.(orders := t.orders[id := o]), Some(o)))
  }

  method UpdateOrder(db: Ledger, id: int, e: OrderUpdate) returns (r: Result<Option<Order>>)
    requires db.Valid()
    modifies db
    ensures db.Valid()
    ensures var s := UpdateOrderSpec(old(db.Snapshot()), id, e);
            r == Outcome(s) && db.Snapshot() == After(s, old(db.Snapshot()))
  {
    ghost var t := db.Snapshot();
    if !LiveOrder(db.orders, id) {
      return Ok(None);
    }
    var o := db.orders[id];
    o := o.(orderNo := e.orderNo, imageUrl := e.imageUrl, revenue := e.revenue, transactionTime := e.transactionTime);
    // the save meets unique_order_no
    if OrderNoHeld(db.orders, e.orderNo, id) {
      return Err(DuplicateKey);
    }
    db.orders := db.orders[id := o];
    assert db.Snapshot() == UpdateOrderSpec(t, id, e).value.tables;
    r := Ok(Some(o));
  }

  // ---------------------------------------------------------------------------
  // Queries
  // ---------------------------------------------------------------------------

  function View(t: Tables, id: int): OrderView
    requires 0 <= id < |t.orders|
  {
    OrderView(id, t.orders[id], TotalCost(t.lines, id))
  }

  /** GetOrderById: a live order with its cost; none for a missing or soft-deleted one. */
  function GetOrderById(t: Tables, id: int): (r: Option<OrderView>)
    ensures r.Some? <==> LiveOrder(t.orders, id)
    ensures r.Some? ==> r.value.id == id && r.value.order == t.orders[id] && r.value.totalCost == TotalCost(t.lines, id)
  {
    if LiveOrder(t.orders, id) then Some(View(t, id)) else None
  }

  /** Both bounds of the date filter are inclusive; a missing bound does not filter. */
  predicate InWindow(time: Instant, start: Option<Instant>, end: Option<Instant>) {
    (start.None? || start.value <= time) && (end.None? || time <= end.value)
  }

  predicate Listed(t: Tables, id: int, start: Option<Instant>, end: Option<Instant>) {
    LiveOrder(t.orders, id) && InWindow(t.orders[id].transactionTime, start, end)
  }

  /** The listed orders with id below n, in id order. */
  function Selected(t: Tables, n: int, start: Option<Instant>, end: Option<Instant>): (r: seq<OrderView>)
    requires 0 <= n <= |t.orders|
    ensures forall v :: v in r <==> 0 <= v.id < n && Listed(t, v.id, start, end) && v == View(t, v.id)
    ensures forall i, j :: 0 <= i < j < |r| ==> r[i].id < r[j].id
    decreases n
  {
    if n == 0 then []
    else
      var prior := Selected(t, n - 1, start, end);
      if Listed(t, n - 1, start, end) then prior + [View(t, n - 1)] else prior
  }

  /** The listing order: latest transaction first. */
  predicate Later(a: OrderView, b: OrderView) {
    a.order.transactionTime >= b.order.transactionTime
  }

  lemma LaterIsTotalPreorder()
    ensures TotalPreorder(Later)
  {
  }

  /** GetAllOrders: the live orders inside the date window, each once with its cost, latest first. */
  function GetAllOrders(t: Tables, start: Option<Instant>, end: Option<Instant>): (r: seq<OrderView>)
    ensures SortedBy(r, Later)
    ensures forall v :: v in r <==> 0 <= v.id < |t.orders| && Listed(t, v.id, start, end) && v == View(t, v.id)
    ensures forall i, j :: 0 <= i < j < |r| ==> r[i].id != r[j].id
  {
    LaterIsTotalPreorder();
    var selected := Selected(t, |t.orders|, start, end);
    var r := SortedListing(selected, Later);
    assert forall i, j :: 0 <= i < j < |r| ==> r[i].id != r[j].id by {
      forall i, j | 0 <= i < j < |r| ensures r[i].id != r[j].id {
        assert r[i] in selected && r[j] in selected;
      }
    }
    r
  }
}
