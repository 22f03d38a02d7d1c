/** The dashboard: a read-only rollup of stock value, the month's orders and profit, and counts.
    The current month is passed in as its bounds [monthStart, monthEnd). */
module DashboardService {
  import opened Models
  import opened Store
  import opened OrderService

  datatype Stats = Stats(
    totalInventoryValue: Money,
    monthlyProfit: Money,
    totalOrders: int,
    ordersWithoutCost: int,
    lowStockProductsCount: int,
    monthlyOrders: int)

  // ---- Counting ----

  /** How many of the ids 0 .. n-1 satisfy p. */
  function CountBelow(n: nat, p: int -> bool): (c: nat)
    ensures c == |set i | 0 <= i < n && p(i)|
    ensures c <= n
  {
    if n == 0 then
      assert (set i | 0 <= i < n && p(i)) == {};
      0
    else
      var c := CountBelow(n - 1, p);
      var below := set i | 0 <= i < n - 1 && p(i);
      if p(n - 1) then
        assert (set i | 0 <= i < n && p(i)) == below + {n - 1};
        c + 1
      else
        assert (set i | 0 <= i < n && p(i)) == below;
        c
  }

  /** Counting splits along any second predicate. */
  lemma {:induction false} CountSplit(n: nat, p: int -> bool, q: int -> bool, pq: int -> bool, pnq: int -> bool)
    requires forall i :: pq(i) == (p(i) && q(i))
    requires forall i :: pnq(i) == (p(i) && !q(i))
    ensures CountBelow(n, p) == CountBelow(n, pq) + CountBelow(n, pnq)
  {
    if n > 0 {
      CountSplit(n - 1, p, q, pq, pnq);
    }
  }

  // ---- Inventory value ----

  /** What a lot adds to the stock value: stock times unit cost, if it is live. */
  function LotValue(l: Lot): Money {
    if l.deleted then 0.0 else l.stockQuantity as real * l.unitCost
  }

  /** Σ stock × unit cost over the live lots. */
  function InventoryValue(lots: seq<Lot>): Money
    decreases |lots|
  {
    if lots == [] then 0.0 else InventoryValue(lots[..|lots| - 1]) + LotValue(lots[|lots| - 1])
  }

  lemma {:induction false} InventoryValueReplace(lots: seq<Lot>, k: int, l: Lot)
    requires 0 <= k < |lots|
    ensures InventoryValue(lots[k := l]) == InventoryValue(lots) - LotValue(lots[k]) + LotValue(l)
    decreases |lots|
  {
    var n := |lots|;
    if k == n - 1 {
      assert lots[k := l][..n - 1] == lots[..n - 1];
    } else {
      assert lots[k := l][..n - 1] == lots[..n - 1][k := l];
      InventoryValueReplace(lots[..n - 1], k, l);
    }
  }

  lemma Distribute(s: real, q: real, c: real)
    ensures (s + q) * c == s * c + q * c
    ensures (s - q) * c == s * c - q * c
  {
  }

  lemma LowerStockValue(lots: seq<Lot>, id: int, qty: int)
    requires 0 <= id < |lots| && !lots[id].deleted
    ensures InventoryValue(lots[id := lots[id].(stockQuantity := lots[id].stockQuantity - qty)])
            == InventoryValue(lots) - qty as real * lots[id].unitCost
  {
    InventoryValueReplace(lots, id, lots[id].(stockQuantity := lots[id].stockQuantity - qty));
    Distribute(lots[id].stockQuantity as real, qty as real, lots[id].unitCost);
  }

  /** Taking qty units from a lot lowers the stock value by qty at that lot's unit cost. */
  lemma TakeLowersInventoryValue(lots: seq<Lot>, id: int, qty: int)
    requires Take(lots, id, qty).Ok?
    ensures InventoryValue(Take(lots, id, qty).value) == InventoryValue(lots) - qty as real * lots[id].unitCost
  {
    LowerStockValue(lots, id, qty);
  }

  /** Restoring qty units to a live lot raises the stock value by qty at its unit cost. */
  lemma RestoreRaisesInventoryValue(lots: seq<Lot>, id: int, qty: int)
    requires LiveLot(lots, id)
    ensures InventoryValue(Restore(lots, id, qty)) == InventoryValue(lots) + qty as real * lots[id].unitCost
  {
    var l := lots[id].(stockQuantity := lots[id].stockQuantity + qty);
    InventoryValueReplace(lots, id, l);
    Distribute(lots[id].stockQuantity as real, qty as real, lots[id].unitCost);
  }

  /** A new lot adds its own value. */
  lemma {:induction false} AppendedLotValue(lots: seq<Lot>, l: Lot)
    ensures InventoryValue(lots + [l]) == InventoryValue(lots) + LotValue(l)
  {
    assert (lots + [l])[..|lots|] == lots;
  }

  // ---- Orders ----

  /** The half-open month window [monthStart, monthEnd). */
  predicate InMonth(o: Order, monthStart: Instant, monthEnd: Instant) {
    !o.deleted && monthStart <= o.transactionTime < monthEnd
  }

  /** The order has a live line: what the in-memory `Any()` over the filtered details sees. */
  predicate HasLiveLine(lines: seq<Line>, orderId: int) {
    exists i :: 0 <= i < |lines| && !lines[i].deleted && lines[i].orderId == orderId
  }

  /** The order has a line, live or not: what the SQL `Any()` sees, since a filtered include
      does not narrow a predicate in the query. */
  predicate HasAnyLine(lines: seq<Line>, orderId: int) {
    exists i :: 0 <= i < |lines| && lines[i].orderId == orderId
  }

  /** What order id adds to the month's profit. */
  function ProfitOf(t: Tables, id: int, monthStart: Instant, monthEnd: Instant): Money
    requires 0 <= id < |t.orders|
  {
    if InMonth(t.orders[id], monthStart, monthEnd) && HasLiveLine(t.lines, id)
    then t.orders[id].revenue - TotalCost(t.lines, id)
    else 0.0
  }

  /** Σ (revenue − cost) over the first n orders. */
  function ProfitBelow(t: Tables, n: nat, monthStart: Instant, monthEnd: Instant): Money
    requires n <= |t.orders|
  {
    if n == 0 then 0.0
    else ProfitBelow(t, n - 1, monthStart, monthEnd) + ProfitOf(t, n - 1, monthStart, monthEnd)
  }

  /** If no order of the month has a live line, the month shows no profit, whatever its revenue. */
  lemma {:induction false} ProfitNeedsLiveLines(t: Tables, n: nat, monthStart: Instant, monthEnd: Instant)
    requires n <= |t.orders|
    requires forall i :: 0 <= i < n && InMonth(t.orders[i], monthStart, monthEnd) ==> !HasLiveLine(t.lines, i)
    ensures ProfitBelow(t, n, monthStart, monthEnd) == 0.0
  {
    if n > 0 {
      ProfitNeedsLiveLines(t, n - 1, monthStart, monthEnd);
    }
  }

  /** A change confined to one order moves the month's profit by the change in that order's term. */
  lemma {:induction false} ProfitLocal(t: Tables, u: Tables, n: nat, id: int, monthStart: Instant, monthEnd: Instant)
    requires n <= |t.orders| == |u.orders|
    requires 0 <= id < |t.orders|
    requires forall i :: 0 <= i < |t.orders| && i != id ==> ProfitOf(t, i, monthStart, monthEnd) == ProfitOf(u, i, monthStart, monthEnd)
    ensures ProfitBelow(u, n, monthStart, monthEnd) - ProfitBelow(t, n, monthStart, monthEnd)
            == if id < n then ProfitOf(u, id, monthStart, monthEnd) - ProfitOf(t, id, monthStart, monthEnd) else 0.0
  {
    if n > 0 {
      ProfitLocal(t, u, n - 1, id, monthStart, monthEnd);
    }
  }

  // ---- The counts ----

  function LiveOrderId(t: Tables): int -> bool {
    (i: int) => 0 <= i < |t.orders| && !t.orders[i].deleted
  }

  function BareOrderId(t: Tables): int -> bool {
    (i: int) => 0 <= i < |t.orders| && !t.orders[i].deleted && !HasAnyLine(t.lines, i)
  }

  function MonthOrderId(t: Tables, monthStart: Instant, monthEnd: Instant): int -> bool {
    (i: int) => 0 <= i < |t.orders| && InMonth(t.orders[i], monthStart, monthEnd)
  }

  /** totalOrders: the live orders. */
  function TotalOrders(t: Tables): (c: nat)
    ensures c == |set i | 0 <= i < |t.orders| && !t.orders[i].deleted|
  {
    var p := LiveOrderId(t);
    assert (set i | 0 <= i < |t.orders| && p(i)) == (set i | 0 <= i < |t.orders| && !t.orders[i].deleted);
    CountBelow(|t.orders|, p)
  }

  /** ordersWithoutCost: the live orders with no line at all, deleted lines included. */
  function OrdersWithoutCost(t: Tables): (c: nat)
    ensures c == |set i | 0 <= i < |t.orders| && !t.orders[i].deleted && !HasAnyLine(t.lines, i)|
  {
    var p := BareOrderId(t);
    assert (set i | 0 <= i < |t.orders| && p(i))
           == (set i | 0 <= i < |t.orders| && !t.orders[i].deleted && !HasAnyLine(t.lines, i));
    CountBelow(|t.orders|, p)
  }

  /** monthlyOrders: the live orders in the month, with or without lines. */
  function MonthlyOrders(t: Tables, monthStart: Instant, monthEnd: Instant): (c: nat)
    ensures c == |set i | 0 <= i < |t.orders| && InMonth(t.orders[i], monthStart, monthEnd)|
  {
    var p := MonthOrderId(t, monthStart, monthEnd);
    assert (set i | 0 <= i < |t.orders| && p(i))
           == (set i | 0 <= i < |t.orders| && InMonth(t.orders[i], monthStart, monthEnd));
    CountBelow(|t.orders|, p)
  }

  /** lowStockProductsCount: the live lots holding between 1 and 4 units. */
  function LowStockCount(t: Tables): (c: nat)
    ensures c == |set k | 0 <= k < |t.lots| && !t.lots[k].deleted && 0 < t.lots[k].stockQuantity < 5|
    ensures c <= |t.lots|
  {
    var p := (k: int) => 0 <= k < |t.lots| && !t.lots[k].deleted && 0 < t.lots[k].stockQuantity < 5;
    assert (set k | 0 <= k < |t.lots| && p(k))
           == (set k | 0 <= k < |t.lots| && !t.lots[k].deleted && 0 < t.lots[k].stockQuantity < 5);
    CountBelow(|t.lots|, p)
  }

  /** The orders without cost and the month's orders are both among the live orders. */
  lemma CountsWithinTotal(t: Tables, monthStart: Instant, monthEnd: Instant)
    ensures OrdersWithoutCost(t) <= TotalOrders(t) <= |t.orders|
    ensures MonthlyOrders(t, monthStart, monthEnd) <= TotalOrders(t)
  {
    var live := LiveOrderId(t);
    var lined := (i: int) => 0 <= i < |t.orders| && !t.orders[i].deleted && HasAnyLine(t.lines, i);
    var notMonth := (i: int) => 0 <= i < |t.orders| && !t.orders[i].deleted && !InMonth(t.orders[i], monthStart, monthEnd);
    CountSplit(|t.orders|, live, (i: int) => 0 <= i < |t.orders| && HasAnyLine(t.lines, i), lined, BareOrderId(t));
    CountSplit(|t.orders|, live, MonthOrderId(t, monthStart, monthEnd), MonthOrderId(t, monthStart, monthEnd), notMonth);
  }

  // ---- The rollup ----

  function DashboardStats(t: Tables, monthStart: Instant, monthEnd: Instant): (r: Stats)
    ensures r.totalInventoryValue == InventoryValue(t.lots)
    ensures r.monthlyProfit == ProfitBelow(t, |t.orders|, monthStart, monthEnd)
    ensures r.totalOrders == TotalOrders(t)
    ensures r.ordersWithoutCost == OrdersWithoutCost(t)
    ensures r.lowStockProductsCount == LowStockCount(t)
    ensures r.monthlyOrders == MonthlyOrders(t, monthStart, monthEnd)
    ensures 0 <= r.ordersWithoutCost <= r.totalOrders <= |t.orders|
    ensures 0 <= r.monthlyOrders <= r.totalOrders
  {
    CountsWithinTotal(t, monthStart, monthEnd);
    Stats(InventoryValue(t.lots), ProfitBelow(t, |t.orders|, monthStart, monthEnd), TotalOrders(t),
          OrdersWithoutCost(t), LowStockCount(t), MonthlyOrders(t, monthStart, monthEnd))
  }

  /** The two readings of "has details" differ: an order whose lines are all soft-deleted is
      counted neither as costed in the month's profit nor among the orders without cost. */
  lemma OrderWithOnlyDeletedLines(t: Tables, id: int, monthStart: Instant, monthEnd: Instant)
    requires 0 <= id < |t.orders| && InMonth(t.orders[id], monthStart, monthEnd)
    requires exists i :: 0 <= i < |t.lines| && t.lines[i].orderId == id
    requires forall i :: 0 <= i < |t.lines| && t.lines[i].orderId == id ==> t.lines[i].deleted
    ensures ProfitOf(t, id, monthStart, monthEnd) == 0.0
    ensures id !in set i | 0 <= i < |t.orders| && !t.orders[i].deleted && !HasAnyLine(t.lines, i)
    ensures id in set i | 0 <= i < |t.orders| && InMonth(t.orders[i], monthStart, monthEnd)
  {
  }
}
