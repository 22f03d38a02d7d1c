# InventoryHub stock and cost ledger in Dafny

This project models the stock and cost ledger of the InventoryHub backend, a small shop's
inventory system. The ledger has these parts:

- **Purchases** are deliveries from a supplier. Each has a number, a total and an exchange rate.
- **Inventory lots** are one product's share of one purchase. Each lot keeps:
  - its source-currency amount;
  - that amount converted to JPY;
  - a JPY unit cost;
  - a stock count.
- **Orders** are sales. Each order has **order lines**. A line takes units from one lot and
  carries a subtotal cost, computed from that lot's unit cost.
- **Reference rows** are products, categories and suppliers.

Every row is soft-deleted: a flag is set and the row stays. So the model keeps each table as an
append-only sequence, and a row's id is its position in it.

The modules:

- `Models` holds the rows and the outcome types.
- `Store` has:
  - the `Tables` snapshot;
  - the database's unique indexes and foreign keys (`Consistent`);
  - the stock invariant;
  - the `Ledger` class, whose fields the services assign.
- The service modules follow the source's services one to one: `OrderService`,
  `InventoryService`, `PurchaseService`, `ProductService`, `CategoryService`, `SupplierService`
  and `DashboardService`.
- `Sorting` and `Text` hold the ordering and string helpers the list queries use.
- `Scenarios` works the examples through on a concrete shop.

Every mutating operation comes as two members:

- a pure specification `XxxSpec(t, ...)`. It returns either `Err(e)` or `Ok(Commit(t', v))`, the
  new tables and the value returned.
- a `method Xxx(db: Ledger, ...)` that changes `db` in place. Its `ensures` ties the outcome and
  the new state to the specification. A failure leaves `db` as it was, which is how the model
  states the source's transaction rollback.

The methods with loops keep them: `CreateOrderWithDetails`, `DeleteOrder` and `BatchCreate`.
Each carries loop invariants that relate the working copies to the specification.

Error kinds:

- `NotFound`, `InsufficientStock`, `Referenced`, `Duplicate`, `InvalidQuantity` and
  `NegativeStock` are the services' own `InvalidOperationException`s.
- `DuplicateKey` and `ForeignKey` are the database refusing the final save:
  - the unique indexes `unique_order_no` and `unique_purchase_no` are over the number alone, so
    they count soft-deleted rows too;
  - `unique_category_name` and `unique_supplier_name` are over (name, is_deleted);
  - the foreign keys are satisfied by soft-deleted rows as well.

Behaviours of the source that the model states as written, with a lemma showing each:

- Line quantities are never checked to be positive. `Scenarios.NegativeQuantityBreaksStock`
  shows three successful steps that leave a lot at stock −5.
- A line's product is never compared with its lot's product. A line's order is checked only by
  its foreign key, so a soft-deleted order still accepts lines (`CreateOrderDetailSpec`).
- Order numbers are checked only by `unique_order_no`. It also counts deleted orders.
- A purchase number held only by a soft-deleted purchase passes the service's check, and the
  index then refuses it (`PurchaseService.ReusedNumberOfDeletedPurchase`).
- A purchase that ever had a lot can never be deleted (`PurchaseService.DeletedLotsStillBlock`).
- Soft-deleting a category fails once another soft-deleted category already holds the same name
  (`CategoryService.SecondDeleteOfSameName`).
- Batch lot creation is not atomic (`InventoryService.BatchCreateOutcome`).
- The dashboard reads "has details" two ways:
  - the profit sum sees live lines only;
  - the without-cost count sees every line, because that `Any()` is part of the SQL query and the
    filtered include does not narrow it.

  So an order whose lines are all deleted is in neither count
  (`DashboardService.OrderWithOnlyDeletedLines`).

## Model

| member | source | states |
|---|---|---|
| Store.Ledger.constructor | InventoryHub.API/Data/AppDbContext.cs:35-147 | An empty ledger satisfies every unique index and foreign key of the schema |
| Store.RowsWhere | InventoryHub.API/Services/CategoryService.cs:22-23 | The rows a `Where` filter keeps are exactly the accepted rows, each with its own id, in increasing id order |
| Sorting.SortBy | InventoryHub.API/Services/ProductService.cs:25 | `OrderBy` under a total preorder returns a sorted permutation (same multiset) of its input |
| Sorting.SortedListing | InventoryHub.API/Services/SupplierService.cs:22-25 | A sorted listing of distinct rows has exactly the input's rows, each once |
| Text.LowerAscii | InventoryHub.API/Services/PurchaseService.cs:56-59 | `ToLower` keeps the length, moves each of A to Z up by 32 code points to its lower-case letter, leaves every other character alone, and leaves no ASCII capital |
| Text.LowerAsciiIdempotent | InventoryHub.API/Services/PurchaseService.cs:56-59 | Lower-casing an already lower-cased string changes nothing |
| OrderService.Take | InventoryHub.API/Services/OrderService.cs:100-112 | The lot check succeeds iff the lot is live and holds at least the quantity. A missing or deleted lot gives NotFound(Inventory, id); too little stock gives InsufficientStock(stock, qty). On success only that lot's stock drops, by exactly qty |
| OrderService.TotalCostConcat | InventoryHub.API/Services/OrderService.cs:48 | An order's cost over two runs of lines is the sum of the two costs |
| OrderService.TotalCostReplace | InventoryHub.API/Services/OrderService.cs:48 | Replacing one line moves an order's cost by the new line's contribution minus the old one's |
| OrderService.TotalCostWithoutLiveLines | InventoryHub.API/Services/OrderService.cs:24-48 | An order with no live line costs 0 |
| OrderService.PlaceDetails | InventoryHub.API/Services/OrderService.cs:97-138 | The detail loop fails only with NotFound or InsufficientStock; when it succeeds every named lot was live |
| OrderService.PlaceDetailsOkIff | InventoryHub.API/Services/OrderService.cs:100-136 | The loop succeeds iff every line fits into what its lot holds after the earlier lines of the same request (the cumulative check) |
| OrderService.PlaceDetailsStock | InventoryHub.API/Services/OrderService.cs:136 | After the loop each lot's stock is its old stock minus the request's total demand on it; nothing else about a lot changes |
| OrderService.PlaceDetailsLines | InventoryHub.API/Services/OrderService.cs:115-134 | The loop appends one line per request, in order, each with subtotal = unit cost × quantity + packaging + other at its lot's unit cost |
| OrderService.PlaceDetailsKeepsStockNonNegative | InventoryHub.API/Services/OrderService.cs:108-136 | A successful loop leaves no lot with negative stock if none had any |
| OrderService.CreateOrderWithDetailsSpec | InventoryHub.API/Services/OrderService.cs:79-151 | All or nothing: either the order row, its lines and the stock changes are all committed, or an error is returned. The new order's id is returned; the other tables stay as they were; the database constraints are kept |
| OrderService.CreateOrderWithDetailsOkIff | InventoryHub.API/Services/OrderService.cs:85-150 | Creation succeeds iff the order number is not held by any order, every line fits cumulatively, and every product id exists |
| OrderService.CreateOrderWithDetailsStock | InventoryHub.API/Services/OrderService.cs:136 | Each lot loses exactly the quantities the request takes from it, and nothing else about it changes |
| OrderService.CreateOrderWithDetailsCost | InventoryHub.API/Services/OrderService.cs:115-117 | The new order's TotalCost is the sum of the lines' subtotals |
| OrderService.CreateOrderWithDetailsKeepsStockInvariant | InventoryHub.API/Services/OrderService.cs:108-136 | With positive quantities, creating an order keeps stock non-negative and every live line on a live lot |
| OrderService.CreateOrderWithDetails | InventoryHub.API/Services/OrderService.cs:79-151 | The imperative loop over the details commits exactly what the specification commits, or nothing |
| OrderService.CreateOrderDetailSpec | InventoryHub.API/Services/OrderService.cs:272-326 | A new line succeeds iff its lot is live with enough stock and its order and product ids exist (deleted rows included). Lot errors are reported as NotFound and InsufficientStock. The line is appended with the lot's current unit cost |
| OrderService.CreateOrderDetailEffect | InventoryHub.API/Services/OrderService.cs:293-313 | A new line takes exactly its quantity from its lot, changes no other lot, and raises only its own order's cost, by its subtotal |
| OrderService.CreateOrderDetailKeepsStockInvariant | InventoryHub.API/Services/OrderService.cs:272-326 | With a positive quantity, adding a line keeps every lot's stock non-negative and every live line on a live lot |
| OrderService.CreateOrderDetail | InventoryHub.API/Services/OrderService.cs:272-326 | Commits what the specification commits, or nothing |
| OrderService.Released | InventoryHub.API/Services/OrderService.cs:342-347 | Giving a line's quantity back raises its lot's stock by that quantity only if the lot is live; nothing else changes |
| OrderService.UpdateOrderDetailSpec | InventoryHub.API/Services/OrderService.cs:328-393 | A missing or deleted line gives null and no change. Otherwise the old quantity goes back first and the new lot is checked against that stock; NotFound or InsufficientStock leave everything unchanged. The line is rewritten with the new lot's unit cost |
| OrderService.UpdateOrderDetailEffect | InventoryHub.API/Services/OrderService.cs:342-370 | Net effect: the old lot gains the old quantity, the new lot loses the new quantity, and the order's cost changes by new subtotal minus old |
| OrderService.UpdateOrderDetailKeepsStockInvariant | InventoryHub.API/Services/OrderService.cs:328-393 | With a positive quantity, re-pointing a live line keeps every lot's stock non-negative and every live line on a live lot |
| OrderService.UpdateOrderDetail | InventoryHub.API/Services/OrderService.cs:328-393 | Commits what the specification commits, or nothing |
| OrderService.DeleteOrderDetailSpec | InventoryHub.API/Services/OrderService.cs:395-431 | Returns true iff the line is live. It then sets only that line's deleted flag and gives its quantity back to its lot; otherwise nothing changes |
| OrderService.DeleteOrderDetailEffect | InventoryHub.API/Services/OrderService.cs:409-418 | Deleting a line restores its quantity to its live lot and takes its subtotal off its order's cost |
| OrderService.CreateThenDeleteOrderDetail | InventoryHub.API/Services/OrderService.cs:395-431 | Creating a line and then deleting it restores every lot exactly and every order's cost |
| OrderService.DeleteOrderDetailKeepsStockInvariant | InventoryHub.API/Services/OrderService.cs:409-418 | Deleting a line keeps the stock invariant |
| OrderService.DeleteOrderDetail | InventoryHub.API/Services/OrderService.cs:395-431 | Commits what the specification commits |
| OrderService.ReleaseAllStock | InventoryHub.API/Services/OrderService.cs:189-202 | Releasing an order's lines raises each live lot's stock by the units the order's live lines hold of it |
| OrderService.DeleteOrderSpec | InventoryHub.API/Services/OrderService.cs:174-217 | Returns true iff the order is live. It then marks the order and exactly its live lines deleted; otherwise nothing changes |
| OrderService.DeleteOrderStock | InventoryHub.API/Services/OrderService.cs:189-202 | Deleting an order gives each live lot back what the order's live lines held of it; nothing else about a lot changes |
| OrderService.DeleteOrderCost | InventoryHub.API/Services/OrderService.cs:189-204 | After deleting an order it costs 0 and every other order's cost is unchanged |
| OrderService.CreateThenDeleteOrder | InventoryHub.API/Services/OrderService.cs:174-217 | Creating an order with lines and then deleting it restores every lot exactly |
| OrderService.DeleteOrderKeepsStockInvariant | InventoryHub.API/Services/OrderService.cs:189-204 | Deleting an order keeps the stock invariant |
| OrderService.DeleteOrder | InventoryHub.API/Services/OrderService.cs:174-217 | The loop over the lines commits exactly what the specification commits |
| OrderService.UpdateOrderSpec | InventoryHub.API/Services/OrderService.cs:153-172 | A missing or deleted order gives null. A number held by another order gives DuplicateKey. Otherwise only the number, image, revenue and time change; name, shipping fee, lines and stock stay |
| OrderService.UpdateOrder | InventoryHub.API/Services/OrderService.cs:153-172 | Commits what the specification commits, or nothing |
| OrderService.GetOrderById | InventoryHub.API/Services/OrderService.cs:56-77 | Some iff the order is live, with TotalCost the sum of its live lines' subtotals |
| OrderService.Selected | InventoryHub.API/Services/OrderService.cs:23-35 | The listed orders are exactly the live ones inside the inclusive window, in increasing id order |
| OrderService.GetAllOrders | InventoryHub.API/Services/OrderService.cs:21-54 | The listing holds exactly the live orders in the window, each once, newest transaction time first, each with its TotalCost |
| InventoryService.BuildLot | InventoryHub.API/Services/InventoryService.cs:129-141 | The source amount is kept as given. The JPY amount is amount × rate, and unit cost × purchase quantity equals the JPY amount. Stock is stored verbatim |
| InventoryService.GetLot | InventoryHub.API/Services/InventoryService.cs:66-98 | Some iff the lot is live; IsReferenced holds iff some live line draws on it |
| InventoryService.ListLotsBelow | InventoryHub.API/Services/InventoryService.cs:20-64 | The lots listed are exactly the live ones (of the purchase, if one is given), newest first |
| InventoryService.ListLots | InventoryHub.API/Services/InventoryService.cs:20-64 | GetAll: exactly the live lots (of the purchase, if given), each with its IsReferenced flag, newest first |
| InventoryService.CheckInput | InventoryHub.API/Services/InventoryService.cs:103-126 | The checks, in source order: product live, then purchase live, then purchase quantity > 0, then stock ≥ 0, each with its own error |
| InventoryService.CreateLotSpec | InventoryHub.API/Services/InventoryService.cs:100-147 | Succeeds iff the checks pass, and then appends the lot built at the purchase's rate; otherwise the check's error |
| InventoryService.CreateLot | InventoryHub.API/Services/InventoryService.cs:100-147 | Commits what the specification commits, or nothing |
| InventoryService.BatchCreateOutcome | InventoryHub.API/Services/InventoryService.cs:149-160 | The created ids are the items before the first invalid one, in input order; the failure is that item's error |
| InventoryService.BatchCreateTables | InventoryHub.API/Services/InventoryService.cs:143-160 | The lots created before a failure stay persisted: the table gains exactly their lots |
| InventoryService.BatchCreate | InventoryHub.API/Services/InventoryService.cs:149-160 | The loop of creates commits what the batch specification says |
| InventoryService.UpdateLotSpec | InventoryHub.API/Services/InventoryService.cs:162-221 | A missing or deleted lot gives null. A referenced lot is refused. Otherwise the same checks as create apply, and the lot is rebuilt at the newly named purchase's rate |
| InventoryService.UpdateLot | InventoryHub.API/Services/InventoryService.cs:162-221 | Commits what the specification commits, or nothing |
| InventoryService.DeleteLotSpec | InventoryHub.API/Services/InventoryService.cs:223-247 | A missing or deleted lot gives false. A referenced lot is refused. Otherwise only the deleted flag is set |
| InventoryService.DeleteLot | InventoryHub.API/Services/InventoryService.cs:223-247 | Commits what the specification commits, or nothing |
| InventoryService.ReferencedLotIsFrozen | InventoryHub.API/Services/InventoryService.cs:172-240 | Neither update nor delete changes anything while a live line draws on the lot |
| InventoryService.DeleteLotKeepsStockInvariant | InventoryHub.API/Services/InventoryService.cs:234-242 | Deleting a lot never leaves a live line on a deleted lot |
| InventoryService.ExpectedTotalJpy | InventoryHub.API/Services/InventoryService.cs:258-265 | TotalAmount × ExchangeRate of a live purchase, or 0 when it is missing or deleted |
| InventoryService.AllocatedAtOneRate | InventoryHub.API/Services/InventoryService.cs:249-256 | When every live lot of a purchase was converted at one rate, the JPY total is the source-currency total at that rate |
| InventoryService.AllocationBalances | InventoryHub.API/Services/InventoryService.cs:249-265 | At the purchase's current rate, the allocated JPY total equals the expected total iff the lots' source amounts add up to the purchase total |
| InventoryService.CreateLotAllocation | InventoryHub.API/Services/InventoryService.cs:249-256 | A new lot adds its JPY amount to its own purchase's allocation and nothing to any other |
| PurchaseService.CreatePurchaseSpec | InventoryHub.API/Services/PurchaseService.cs:109-132 | A missing supplier gives NotFound. A number held by a live purchase gives Duplicate; one held only by deleted purchases gives DuplicateKey from the index. It succeeds iff the supplier is live and no purchase holds the number |
| PurchaseService.CreatePurchase | InventoryHub.API/Services/PurchaseService.cs:109-132 | Commits what the specification commits, or nothing |
| PurchaseService.ReusedNumberOfDeletedPurchase | InventoryHub.API/Services/PurchaseService.cs:120-125 | A number held only by a deleted purchase passes the service check and is still refused by the index |
| PurchaseService.UpdatePurchaseSpec | InventoryHub.API/Services/PurchaseService.cs:134-164 | A missing purchase gives null. The supplier must be live. The number check excludes the purchase itself. Only the purchase row changes |
| PurchaseService.UpdateKeepingNumber | InventoryHub.API/Services/PurchaseService.cs:152-157 | Keeping its own number never makes an update fail |
| PurchaseService.UpdatePurchaseLeavesLotsAtOldRate | InventoryHub.API/Services/PurchaseService.cs:159-161 | After a rate change the purchase's lots keep the amounts converted at the old rate |
| PurchaseService.UpdatePurchase | InventoryHub.API/Services/PurchaseService.cs:134-164 | Commits what the specification commits, or nothing |
| PurchaseService.DeletePurchaseSpec | InventoryHub.API/Services/PurchaseService.cs:166-188 | A missing purchase gives false. Any lot, deleted or not, blocks deletion with Referenced. Otherwise only the deleted flag is set |
| PurchaseService.DeletePurchase | InventoryHub.API/Services/PurchaseService.cs:166-188 | Commits what the specification commits, or nothing |
| PurchaseService.CreateThenPurchaseExists | InventoryHub.API/Services/PurchaseService.cs:109-132 | After a create, `ExistsAsync` is true for the returned id, which did not exist before; every other id answers as before |
| PurchaseService.UpdateThenPurchaseExists | InventoryHub.API/Services/PurchaseService.cs:134-164 | An update returns a purchase exactly when `ExistsAsync` was true for the id, and changes no id's answer |
| PurchaseService.DeleteThenPurchaseExists | InventoryHub.API/Services/PurchaseService.cs:166-194 | A delete returns true exactly when `ExistsAsync` was true; afterwards it is false for that id, and every other id answers as before |
| PurchaseService.DeletedLotsStillBlock | InventoryHub.API/Services/PurchaseService.cs:168-181 | A purchase whose lots are all deleted still cannot be deleted |
| PurchaseService.SortKey | InventoryHub.API/Services/PurchaseService.cs:56-67 | "purchaseno" and "totalamount" in any case select those keys; anything else sorts by date |
| PurchaseService.SortParametersIgnoreCase | InventoryHub.API/Services/PurchaseService.cs:56-67 | Two spellings of the sort parameters that lower-case alike choose the same key and the same direction |
| PurchaseService.SortParameterExamples | InventoryHub.API/Services/PurchaseService.cs:56-67 | "PurchaseNo" and "TOTALAMOUNT" select their keys, "purchaseDate" and "" sort by date; "Asc" is ascending, "ascending" and "desc" are not |
| PurchaseService.SelectedPurchases | InventoryHub.API/Services/PurchaseService.cs:28-51 | Exactly the live purchases whose number contains the search text (unless it is blank), of the given supplier, inside the inclusive dates |
| PurchaseService.PurchaseOrderIsTotalPreorder | InventoryHub.API/Services/PurchaseService.cs:56-67 | Each requested sort order, ascending or descending, is a total preorder |
| PurchaseService.ListPurchases | InventoryHub.API/Services/PurchaseService.cs:20-84 | The selected purchases, each once, sorted by the requested key and direction (date sorts break ties by id) |
| ProductService.CreateProductSpec | InventoryHub.API/Services/ProductService.cs:58-81 | Succeeds iff the category is live and no live product has the name; NotFound for the category first, then Duplicate |
| ProductService.CreateProduct | InventoryHub.API/Services/ProductService.cs:58-81 | Commits what the specification commits, or nothing |
| ProductService.UpdateProductSpec | InventoryHub.API/Services/ProductService.cs:83-113 | A missing product gives null. Otherwise it succeeds iff the category is live and no other live product has the name; only category and name change |
| ProductService.UpdateProduct | InventoryHub.API/Services/ProductService.cs:83-113 | Commits what the specification commits, or nothing |
| ProductService.DeleteProductSpec | InventoryHub.API/Services/ProductService.cs:115-138 | A missing product gives false. Any lot or line naming it, deleted or not, blocks deletion. Otherwise only the deleted flag is set |
| ProductService.DeleteProduct | InventoryHub.API/Services/ProductService.cs:115-138 | Commits what the specification commits, or nothing |
| ProductService.CreateThenGetProduct | InventoryHub.API/Services/ProductService.cs:58-81 | After a create, `GetByIdAsync` returns the new product with its category's name under the returned id, and `ExistsAsync` turns true for it; every other id answers as before |
| ProductService.UpdateThenGetProduct | InventoryHub.API/Services/ProductService.cs:83-113 | An update returns a product exactly when it existed; `GetByIdAsync` then returns it under its new category's name, existence is unchanged, and every other id answers as before |
| ProductService.DeleteThenProductExists | InventoryHub.API/Services/ProductService.cs:115-144 | A delete returns true exactly when `ExistsAsync` was true; afterwards it is false and `GetByIdAsync` finds nothing, and every other id answers as before |
| ProductService.ProductOperationsKeepNamesUnique | InventoryHub.API/Services/ProductService.cs:69-106 | Create, update and delete keep live product names unique |
| ProductService.OperationsKeepProductsInLiveCategories | InventoryHub.API/Services/ProductService.cs:61-98 | Create, update and delete keep every live product in a live category |
| ProductService.CategoryOperationsKeepProductsInLiveCategories | InventoryHub.API/Services/CategoryService.cs:96-99 | Deleting or renaming a category keeps every live product in a live category |
| ProductService.ListProducts | InventoryHub.API/Services/ProductService.cs:20-37 | Exactly the live products, each once, sorted by name, each with its category's name |
| CategoryService.CreateCategorySpec | InventoryHub.API/Services/CategoryService.cs:39-56 | Fails with Duplicate exactly when a live category has the name; otherwise appends the category |
| CategoryService.CreateCategory | InventoryHub.API/Services/CategoryService.cs:39-56 | Commits what the specification commits, or nothing |
| CategoryService.UpdateCategorySpec | InventoryHub.API/Services/CategoryService.cs:58-81 | A missing category gives null. A name held by another live category gives Duplicate. Otherwise only the name changes |
| CategoryService.UpdateCategory | InventoryHub.API/Services/CategoryService.cs:58-81 | Commits what the specification commits, or nothing |
| CategoryService.DeleteCategorySpec | InventoryHub.API/Services/CategoryService.cs:83-108 | A missing category gives false. Only live products block deletion. A deleted namesake makes the index refuse it. Otherwise only the deleted flag is set |
| CategoryService.DeleteCategory | InventoryHub.API/Services/CategoryService.cs:83-108 | Commits what the specification commits, or nothing |
| CategoryService.CreateThenGetCategory | InventoryHub.API/Services/CategoryService.cs:30-56 | After a create, `GetByIdAsync` returns the new live category under the returned id; every other id answers as before |
| CategoryService.UpdateThenGetCategory | InventoryHub.API/Services/CategoryService.cs:30-81 | An update returns a category exactly when `GetByIdAsync` found one; afterwards `GetByIdAsync` returns what the update returned, and every other id answers as before |
| CategoryService.DeleteThenGetCategory | InventoryHub.API/Services/CategoryService.cs:30-108 | A delete returns true exactly when `GetByIdAsync` found the category; afterwards it finds nothing under that id, and every other id answers as before |
| CategoryService.SecondDeleteOfSameName | InventoryHub.API/Data/AppDbContext.cs:35 | Create, delete, re-create and delete again a category of one name: the second delete is refused by unique_category_name |
| CategoryService.ListCategories | InventoryHub.API/Services/CategoryService.cs:20-28 | Exactly the live categories, each once, sorted by name |
| SupplierService.CreateSupplierSpec | InventoryHub.API/Services/SupplierService.cs:36-51 | Fails with Duplicate exactly when a live supplier has the name; otherwise appends the supplier |
| SupplierService.CreateSupplier | InventoryHub.API/Services/SupplierService.cs:36-51 | Commits what the specification commits, or nothing |
| SupplierService.UpdateSupplierSpec | InventoryHub.API/Services/SupplierService.cs:53-75 | A missing or deleted supplier gives null. A name held by another live supplier gives Duplicate. Otherwise only the name changes |
| SupplierService.UpdateSupplier | InventoryHub.API/Services/SupplierService.cs:53-75 | Commits what the specification commits, or nothing |
| SupplierService.CreateThenGetSupplier | InventoryHub.API/Services/SupplierService.cs:29-51 | After a create, `GetByIdAsync` returns the new live supplier under the returned id, and `ExistsAsync` turns from false to true for it; every other id answers as before |
| SupplierService.UpdateThenGetSupplier | InventoryHub.API/Services/SupplierService.cs:29-75 | An update returns a supplier exactly when `ExistsAsync` was true; `GetByIdAsync` then returns what the update returned, existence is unchanged, and every other id answers as before |
| SupplierService.RenameToSameName | InventoryHub.API/Services/SupplierService.cs:63-68 | Keeping its own name always succeeds and changes nothing |
| SupplierService.ListSuppliers | InventoryHub.API/Services/SupplierService.cs:20-27 | Exactly the live suppliers, each once, sorted by name |
| DashboardService.CountBelow | InventoryHub.API/Services/DashboardService.cs:44-46 | `Count()` is the size of the set of ids that satisfy the filter |
| DashboardService.CountSplit | InventoryHub.API/Services/DashboardService.cs:44-52 | A count splits into the counts on either side of a second condition |
| DashboardService.InventoryValueReplace | InventoryHub.API/Services/DashboardService.cs:28-30 | Changing one lot moves the stock value by that lot's new value minus its old |
| DashboardService.TakeLowersInventoryValue | InventoryHub.API/Services/DashboardService.cs:28-30 | Taking qty units from a lot lowers the stock value by qty × that lot's unit cost |
| DashboardService.RestoreRaisesInventoryValue | InventoryHub.API/Services/DashboardService.cs:28-30 | Giving qty units back to a live lot raises the stock value by qty × its unit cost |
| DashboardService.AppendedLotValue | InventoryHub.API/Services/DashboardService.cs:28-30 | A new lot adds stock × unit cost to the stock value |
| DashboardService.ProfitNeedsLiveLines | InventoryHub.API/Services/DashboardService.cs:39-41 | If no order of the month has a live line, the month's profit is 0 whatever its revenue |
| DashboardService.ProfitLocal | InventoryHub.API/Services/DashboardService.cs:39-41 | A change confined to one order moves the month's profit by that order's change only |
| DashboardService.TotalOrders | InventoryHub.API/Services/DashboardService.cs:44-46 | totalOrders is the number of live orders |
| DashboardService.OrdersWithoutCost | InventoryHub.API/Services/DashboardService.cs:49-52 | ordersWithoutCost is the number of live orders with no line at all, deleted lines included (the SQL reading of `Any()`) |
| DashboardService.MonthlyOrders | InventoryHub.API/Services/DashboardService.cs:33-36 | monthlyOrders is the number of live orders in the half-open month [start, end), with or without lines |
| DashboardService.LowStockCount | InventoryHub.API/Services/DashboardService.cs:55-57 | lowStockProductsCount is the number of live lots with 0 < stock < 5 |
| DashboardService.CountsWithinTotal | InventoryHub.API/Services/DashboardService.cs:33-52 | Orders without cost and the month's orders are each at most the live-order total |
| DashboardService.DashboardStats | InventoryHub.API/Services/DashboardService.cs:21-69 | The rollup: stock value over live lots, profit over the month's orders with a live line, and the four counts, with without-cost ≤ total and month ≤ total |
| DashboardService.OrderWithOnlyDeletedLines | InventoryHub.API/Services/DashboardService.cs:39-52 | A month order whose lines are all deleted adds nothing to profit and is not counted as without cost, though it is in the month's orders |
| Scenarios.LotAllocationExample | InventoryHub.API/Services/InventoryService.cs:129-141 | 1000 CNY for 50 units at rate 20 gives 20000 JPY and unit cost 400 |
| Scenarios.SubtotalExample | InventoryHub.API/Services/OrderService.cs:115-117 | Unit cost 100, quantity 2, packaging 10, other 5 give subtotal 215 |
| Scenarios.OrderExample | InventoryHub.API/Services/OrderService.cs:174-217 | An order for 5 units from a lot of 50 leaves 45 and costs 2000; deleting it restores 50 |
| Scenarios.NegativeQuantityBreaksStock | InventoryHub.API/Services/OrderService.cs:409-418 | With no positivity check, lines of −5 and 5 and then deleting the first leave a lot at −5, breaking the stock invariant |

## Left out

- Ids: the model's ids are 0-based positions. The database's auto-increment ids start at 1, and
  a rolled-back insert consumes one. Only the identity of rows matters to the properties, so
  neither is modelled.
- Integer width: quantities are unbounded integers. C#'s 32-bit `int` overflow is not modelled.
- Decimals: money is exact `real`. C# `decimal` division rounding (in unit cost) and the column
  rounding to decimal(15,2)/decimal(10,4) are not modelled.
- Text comparison:
  - names compare by ordinal equality and sort by ordinal code-point order;
  - purchase search is an ordinal `Contains`;
  - MySQL's collation, which makes these case-insensitive, is not modelled;
  - `ToLower` in the sort key maps ASCII letters only.
- Time: `CreatedAt` and `UpdatedAt` are not modelled, and newest-first lot listing uses id order,
  the creation order. `DateTime.Now` in the dashboard is a parameter: the month's bounds.
- Concurrency: transactions are modelled as sequential all-or-nothing steps. Isolation and row
  locking are not modelled.
- Tracked entities: Entity Framework's tracked entities are modelled as values, so the aliasing
  of a loaded row with the saved one is not represented.
- Out of scope: controllers, `Program.cs`, `MercariService`, the mapping profile and the
  frontend.
- UpdateOrderSpec: it returns the updated order row only. `UpdateOrderAsync`
  (Services/OrderService.cs:153-172) maps the order without loading its lines, so the TotalCost
  it returns is not the live-line sum. What that field holds depends on the mapping profile,
  which is not modelled.
- Order line reads: `GetOrderDetails` and `GetOrderDetailById` are plain lookups of lines and are
  not modelled.
- Supplier delete: `SupplierService` has no delete (it is commented out), so the model has none.
- Lot fields: Models/Inventory.cs lacks `PurchaseAmountCny`, while the service,
  the database context and the migration use it. The model follows the service and keeps it.
- Stored order cost: `Order` carries no cost. Models/Order.cs has no TotalCost property and
  the RemoveTotalCostFromOrders migration drops the column. The queries' TotalCost is the sum
  over the live lines, as the source computes it.
- BatchCreate: the model returns the created ids and the error that stopped the batch. The
  source throws at the failing item, after the earlier items were committed.
