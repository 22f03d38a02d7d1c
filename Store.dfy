/** The ledger store (the application's database context): one append-only table per entity,
    the constraints the database schema enforces on every save, and the class whose fields the
    services update. Soft delete never removes a row, so a row's id is its position. */
module Store {
  import opened Models

  /** A snapshot of all seven tables. */
  datatype Tables = Tables(
    categories: seq<Category>,
    suppliers: seq<Supplier>,
    products: seq<Product>,
    purchases: seq<Purchase>,
    lots: seq<Lot>,
    orders: seq<Order>,
    lines: seq<Line>)

  function EmptyTables(): Tables { Tables([], [], [], [], [], [], []) }

  // ---- Unique indexes of the schema ----

  /** unique_category_name is over (name, is_deleted): a live and a deleted row may share a name,
      two deleted rows may not. */
  predicate CategoryKeysUnique(s: seq<Category>) {
    forall i, j :: 0 <= i < j < |s| ==> s[i].name != s[j].name || s[i].deleted != s[j].deleted
  }

  /** unique_supplier_name, over (name, is_deleted) as well. */
  predicate SupplierKeysUnique(s: seq<Supplier>) {
    forall i, j :: 0 <= i < j < |s| ==> s[i].name != s[j].name || s[i].deleted != s[j].deleted
  }

  /** unique_purchase_no is over purchase_no alone, so soft-deleted rows keep their number. */
  predicate PurchaseNosUnique(s: seq<Purchase>) {
    forall i, j :: 0 <= i < j < |s| ==> s[i].purchaseNo != s[j].purchaseNo
  }

  /** unique_order_no is over order_no alone. */
  predicate OrderNosUnique(s: seq<Order>) {
    forall i, j :: 0 <= i < j < |s| ==> s[i].orderNo != s[j].orderNo
  }

  /** Whether some row other than `self` holds purchase number `no` (what the index checks). */
  predicate PurchaseNoHeld(s: seq<Purchase>, no: string, self: int) {
    exists i :: 0 <= i < |s| && i != self && s[i].purchaseNo == no
  }

  /** Whether some row other than `self` holds order number `no`. */
  predicate OrderNoHeld(s: seq<Order>, no: string, self: int) {
    exists i :: 0 <= i < |s| && i != self && s[i].orderNo == no
  }

  // ---- Foreign keys (all ON DELETE RESTRICT; a soft-deleted row still satisfies them) ----

  predicate ForeignKeysHold(t: Tables) {
    && (forall i :: 0 <= i < |t.products| ==> 0 <= t.products[i].categoryId < |t.categories|)
    && (forall i :: 0 <= i < |t.purchases| ==> 0 <= t.purchases[i].supplierId < |t.suppliers|)
    && (forall i :: 0 <= i < |t.lots| ==> 0 <= t.lots[i].productId < |t.products|)
    && (forall i :: 0 <= i < |t.lots| ==> 0 <= t.lots[i].purchaseId < |t.purchases|)
    && (forall i :: 0 <= i < |t.lines| ==> 0 <= t.lines[i].orderId < |t.orders|)
    && (forall i :: 0 <= i < |t.lines| ==> 0 <= t.lines[i].inventoryId < |t.lots|)
    && (forall i :: 0 <= i < |t.lines| ==> 0 <= t.lines[i].productId < |t.products|)
  }

  /** Everything the database guarantees of a committed state. */
  predicate Consistent(t: Tables) {
    && CategoryKeysUnique(t.categories)
    && SupplierKeysUnique(t.suppliers)
    && PurchaseNosUnique(t.purchases)
    && OrderNosUnique(t.orders)
    && ForeignKeysHold(t)
  }

  /** The stock invariant the order workflow is meant to keep: no lot's stock is negative,
      every line takes a positive quantity, and every live line draws on a live lot. */
  predicate StockInvariant(t: Tables) {
    && (forall k :: 0 <= k < |t.lots| ==> t.lots[k].stockQuantity >= 0)
    && (forall i :: 0 <= i < |t.lines| ==> t.lines[i].quantity > 0)
    && (forall i :: 0 <= i < |t.lines| && !t.lines[i].deleted ==> LiveLot(t.lots, t.lines[i].inventoryId))
  }

  /** A row with its id, as the list queries return it. */
  datatype Row<T> = Row(id: int, value: T)

  /** The rows with id below n that `keep` accepts, in id order. */
  function RowsWhere<T(!new)>(s: seq<T>, keep: T -> bool, n: int): (r: seq<Row<T>>)
    requires 0 <= n <= |s|
    ensures forall v :: v in r <==> 0 <= v.id < n && keep(s[v.id]) && v == Row(v.id, s[v.id])
    ensures forall i, j :: 0 <= i < j < |r| ==> r[i].id < r[j].id
    decreases n
  {
    if n == 0 then []
    else
      var prior := RowsWhere(s, keep, n - 1);
      if keep(s[n - 1]) then prior + [Row(n - 1, s[n - 1])] else prior
  }

  /** What a successful operation commits: the new tables and the value it returns. */
  datatype Commit<T> = Commit(tables: Tables, value: T)

  /** The caller's view of an operation's outcome. */
  function Outcome<T>(s: Result<Commit<T>>): Result<T> {
    match s
    case Ok(c) => Ok(c.value)
    case Err(e) => Err(e)
  }

  /** The tables after an operation: a refused operation is rolled back and changes nothing. */
  function After<T>(s: Result<Commit<T>>, before: Tables): Tables {
    match s
    case Ok(c) => c.tables
    case Err(_) => before
  }

  /** The database context the services share. Each field is one table. */
  class Ledger {
    var categories: seq<Category>
    var suppliers: seq<Supplier>
    var products: seq<Product>
    var purchases: seq<Purchase>
    var lots: seq<Lot>
    var orders: seq<Order>
    var lines: seq<Line>

    function Snapshot(): Tables
      reads this
    {
      Tables(categories, suppliers, products, purchases, lots, orders, lines)
    }

    ghost predicate Valid()
      reads this
    {
      Consistent(Snapshot())
    }

    constructor ()
      ensures Valid() && Snapshot() == EmptyTables()
    {
      categories, suppliers, products, purchases := [], [], [], [];
      lots, orders, lines := [], [], [];
    }
  }
}
