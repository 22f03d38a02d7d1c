/** Rows of the seven tables and the outcome types shared by every service.
    Every row carries its soft-delete flag; a row's id is its position in its table. */
module Models {

  datatype Option<+T> = None | Some(value: T)

  /** The tables, named as in the database schema; used to say which lookup failed. */
  datatype Table = Categories | Suppliers | Products | Purchases | Inventory | Orders | OrderDetails

  /** Why an operation was refused. The first five are the services' own checks (they throw
      InvalidOperationException); the last two are raised by the database when the final save
      breaks a unique index or a foreign key. */
  datatype Error =
    | NotFound(table: Table, id: int)                  // referenced row missing or soft-deleted
    | InsufficientStock(available: int, requested: int)
    | Referenced                                       // rows that depend on it block the change
    | Duplicate                                        // name or number already used by a live row
    | InvalidQuantity                                  // purchase quantity not positive
    | NegativeStock                                    // stock quantity below zero
    | DuplicateKey                                     // a unique index rejects the save
    | ForeignKey                                       // a foreign key rejects the save

  datatype Result<+T> = Ok(value: T) | Err(error: Error)

  type Money = real

  /** DateTime values, as a count of ticks. */
  type Instant = int

  datatype Category = Category(name: string, deleted: bool)

  datatype Supplier = Supplier(name: string, deleted: bool)

  datatype Product = Product(categoryId: int, name: string, deleted: bool)

  datatype Purchase = Purchase(
    supplierId: int,
    purchaseDate: Instant,
    purchaseNo: string,
    totalAmount: Money,      // in currencyType
    currencyType: string,
    exchangeRate: Money,     // currencyType -> JPY
    deleted: bool)

  /** An inventory lot: one batch of one product received through one purchase. */
  datatype Lot = Lot(
    productId: int,
    purchaseId: int,
    purchaseAmount: Money,     // JPY
    purchaseAmountCny: Money,  // source-currency amount as entered
    purchaseQuantity: int,
    unitCost: Money,           // JPY per unit
    stockQuantity: int,
    deleted: bool)

  datatype Order = Order(
    orderNo: string,
    name: string,
    imageUrl: Option<string>,
    revenue: Money,
    shippingFee: Money,
    transactionTime: Instant,
    deleted: bool)

  /** An order line (OrderDetail): so many units taken from one lot. */
  datatype Line = Line(
    orderId: int,
    inventoryId: int,
    productId: int,
    unitPrice: Money,
    quantity: int,
    packagingCost: Money,
    otherCost: Money,
    subtotalCost: Money,
    notes: Option<string>,
    deleted: bool)

  // Live-row lookups: the `id == x && !x.IsDeleted` filter every service applies.

  predicate LiveCategory(s: seq<Category>, id: int) { 0 <= id < |s| && !s[id].deleted }
  predicate LiveSupplier(s: seq<Supplier>, id: int) { 0 <= id < |s| && !s[id].deleted }
  predicate LiveProduct(s: seq<Product>, id: int) { 0 <= id < |s| && !s[id].deleted }
  predicate LivePurchase(s: seq<Purchase>, id: int) { 0 <= id < |s| && !s[id].deleted }
  predicate LiveLot(s: seq<Lot>, id: int) { 0 <= id < |s| && !s[id].deleted }
  predicate LiveOrder(s: seq<Order>, id: int) { 0 <= id < |s| && !s[id].deleted }
  predicate LiveLine(s: seq<Line>, id: int) { 0 <= id < |s| && !s[id].deleted }
}
