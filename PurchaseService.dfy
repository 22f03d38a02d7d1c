/** Purchases: one supplier's delivery, with its number, total and exchange rate. */
module PurchaseService {
  import opened Models
  import opened Store
  import opened Sorting
  import opened Text
  import opened InventoryService

  /** CreatePurchaseDto / UpdatePurchaseDto. */
  datatype PurchaseInput = PurchaseInput(
    supplierId: int,
    purchaseDate: Instant,
    purchaseNo: string,
    totalAmount: Money,
    currencyType: string,
    exchangeRate: Money)

  function FromInput(d: PurchaseInput): Purchase {
    Purchase(d.supplierId, d.purchaseDate, d.purchaseNo, d.totalAmount, d.currencyType, d.exchangeRate, false)
  }

  /** ExistsAsync: the purchase exists and is not soft-deleted. */
  function PurchaseExists(t: Tables, id: int): (r: bool)
    ensures r <==> 0 <= id < |t.purchases| && !t.purchases[id].deleted
  {
    LivePurchase(t.purchases, id)
  }

  /** The service's own number check: a live purchase other than `self` holds number `no`. */
  predicate NoInUse(s: seq<Purchase>, no: string, self: int) {
    exists i :: 0 <= i < |s| && i != self && !s[i].deleted && s[i].purchaseNo == no
  }

  // ---------------------------------------------------------------------------
  // Create
  // ---------------------------------------------------------------------------

  /** The supplier must be live and no live purchase may hold the number; then the save meets
      unique_purchase_no, which also counts soft-deleted purchases. */
  function CreatePurchaseSpec(t: Tables, d: PurchaseInput): (r: Result<Commit<int>>)
    ensures Consistent(t) && r.Ok? ==> Consistent(r.value.tables)
    ensures r.Ok? <==> LiveSupplier(t.suppliers, d.supplierId) && !PurchaseNoHeld(t.purchases, d.purchaseNo, -1)
    ensures !LiveSupplier(t.suppliers, d.supplierId) ==> r == Err(NotFound(Suppliers, d.supplierId))
    ensures LiveSupplier(t.suppliers, d.supplierId) ==>
              && (r == Err(Duplicate) <==> NoInUse(t.purchases, d.purchaseNo, -1))
              && (r == Err(DuplicateKey) <==> PurchaseNoHeld(t.purchases, d.purchaseNo, -1) && !NoInUse(t.purchases, d.purchaseNo, -1))
    ensures r.Ok? ==> r.value == Commit(t.(purchases := t.purchases + [FromInput(d)]), |t.purchases|)
  {
    if !LiveSupplier(t.suppliers, d.supplierId) then Err(NotFound(Suppliers, d.supplierId))
    else if NoInUse(t.purchases, d.purchaseNo, -1) then Err(Duplicate)
    else if PurchaseNoHeld(t.purchases, d.purchaseNo, -1) then Err(DuplicateKey)
    else Ok(Commit(t.(purchases := t.purchases + [FromInput(d)]), |t.purchases|))
  }

  method CreatePurchase(db: Ledger, d: PurchaseInput) returns (r: Result<int>)
    requires db.Valid()
    modifies db
    ensures db.Valid()
    ensures var s := CreatePurchaseSpec(old(db.Snapshot()), d);
            r == Outcome(s) && db.Snapshot() == After(s, old(db.Snapshot()))
  {
    ghost var t := db.Snapshot();
    if !LiveSupplier(db.suppliers, d.supplierId) {
      return Err(NotFound(Suppliers, d.supplierId));
    }
    if NoInUse(db.purchases, d.purchaseNo, -1) {
      return Err(Duplicate);
    }
    // the save meets unique_purchase_no
    if PurchaseNoHeld(db.purchases, d.purchaseNo, -1) {
      return Err(DuplicateKey);
    }
    r := Ok(|db.purchases|);
    db.purchases := db.purchases + [FromInput(d)];
    assert db.Snapshot() == CreatePurchaseSpec(t, d).value.tables;
  }

  /** A number that only a soft-deleted purchase holds passes the service's check and is then
      refused by the unique index. */
  lemma ReusedNumberOfDeletedPurchase(t: Tables, d: PurchaseInput, i: int)
    requires LiveSupplier(t.suppliers, d.supplierId)
    requires PurchaseNosUnique(t.purchases)
    requires 0 <= i < |t.purchases| && t.purchases[i].deleted && t.purchases[i].purchaseNo == d.purchaseNo
    ensures !NoInUse(t.purchases, d.purchaseNo, -1)
    ensures CreatePurchaseSpec(t, d) == Err(DuplicateKey)
  {
    assert PurchaseNoHeld(t.purchases, d.purchaseNo, -1);
  }

  // ---------------------------------------------------------------------------
  // Update
  // ---------------------------------------------------------------------------

  /** Rewrites a live purchase from a request. Its own number may be kept. Only the purchase row
      changes: the lots already converted at the old rate keep their amounts and unit costs. */
  function UpdatePurchaseSpec(t: Tables, id: int, d: PurchaseInput): (r: Result<Commit<Option<Purchase>>>)
    ensures Consistent(t) && r.Ok? ==> Consistent(r.value.tables)
    ensures !LivePurchase(t.purchases, id) ==> r == Ok(Commit(t, None))
    ensures LivePurchase(t.purchases, id) ==>
              && (r.Ok? <==> LiveSupplier(t.suppliers, d.supplierId) && !PurchaseNoHeld(t.purchases, d.purchaseNo, id))
              && (!LiveSupplier(t.suppliers, d.supplierId) ==> r == Err(NotFound(Suppliers, d.supplierId)))
              && (LiveSupplier(t.suppliers, d.supplierId) && NoInUse(t.purchases, d.purchaseNo, id) ==> r == Err(Duplicate))
    ensures LivePurchase(t.purchases, id) && r.Ok? ==>
              r.value == Commit(t.(purchases := t.purchases[id := FromInput(d)]), Some(FromInput(d)))
  {
    if !LivePurchase(t.purchases, id) then Ok(Commit(t, None))
    else if !LiveSupplier(t.suppliers, d.supplierId) then Err(NotFound(Suppliers, d.supplierId))
    else if NoInUse(t.purchases, d.purchaseNo, id) then Err(Duplicate)
    else if PurchaseNoHeld(t.purchases, d.purchaseNo, id) then Err(DuplicateKey)
    else Ok(Commit(t.(purchases := t.purchases[id := FromInput(d)]), Some(FromInput(d))))
  }

  /** Keeping its own number never makes an update fail. */
  lemma UpdateKeepingNumber(t: Tables, id: int, d: PurchaseInput)
    requires PurchaseNosUnique(t.purchases)
    requires LivePurchase(t.purchases, id) && LiveSupplier(t.suppliers, d.supplierId)
    requires d.purchaseNo == t.purchases[id].purchaseNo
    ensures UpdatePurchaseSpec(t, id, d).Ok?
  {
  }

  /** Changing a purchase's rate leaves its lots at the old one: a lot converted at the old rate,
      with a non-zero source amount, no longer matches the new rate. */
  lemma UpdatePurchaseLeavesLotsAtOldRate(t: Tables, id: int, d: PurchaseInput, k: int)
    requires LivePurchase(t.purchases, id) && UpdatePurchaseSpec(t, id, d).Ok?
    requires 0 <= k < |t.lots| && t.lots[k].purchaseId == id
    requires t.lots[k].purchaseAmount == ToJpy(t.lots[k].purchaseAmountCny, t.purchases[id].exchangeRate)
    requires t.lots[k].purchaseAmountCny != 0.0 && d.exchangeRate != t.purchases[id].exchangeRate
    ensures var u := UpdatePurchaseSpec(t, id, d).value.tables;
            && u.lots[k] == t.lots[k]
            && u.lots[k].purchaseAmount != ToJpy(u.lots[k].purchaseAmountCny, u.purchases[id].exchangeRate)
  {
    var c := t.lots[k].purchaseAmountCny;
    var r0, r1 := t.purchases[id].exchangeRate, d.exchangeRate;
    assert c * r0 - c * r1 == c * (r0 - r1);
  }

  method UpdatePurchase(db: Ledger, id: int, d: PurchaseInput) returns (r: Result<Option<Purchase>>)
    requires db.Valid()
    modifies db
    ensures db.Valid()
    ensures var s := UpdatePurchaseSpec(old(db.Snapshot()), id, d);
            r == Outcome(s) && db.Snapshot() == After(s, old(db.Snapshot()))
  {
    ghost var t := db.Snapshot();
    if !LivePurchase(db.purchases, id) {
      return Ok(None);
    }
    if !LiveSupplier(db.suppliers, d.supplierId) {
      return Err(NotFound(Suppliers, d.supplierId));
    }
    if NoInUse(db.purchases, d.purchaseNo, id) {
      return Err(Duplicate);
    }
    if PurchaseNoHeld(db.purchases, d.purchaseNo, id) {
      return Err(DuplicateKey);
    }
    db.purchases := db.purchases[id := FromInput(d)];
    assert db.Snapshot() == UpdatePurchaseSpec(t, id, d).value.tables;
    r := Ok(Some(FromInput(d)));
  }

  // ---------------------------------------------------------------------------
  // Delete
  // ---------------------------------------------------------------------------

  /** The purchase has a lot, soft-deleted or not: its lot collection is loaded unfiltered. */
  predicate HasLots(lots: seq<Lot>, purchaseId: int) {
    exists k :: 0 <= k < |lots| && lots[k].purchaseId == purchaseId
  }

  function DeletePurchaseSpec(t: Tables, id: int): (r: Result<Commit<bool>>)
    ensures Consistent(t) && r.Ok? ==> Consistent(r.value.tables)
    ensures !LivePurchase(t.purchases, id) ==> r == Ok(Commit(t, false))
    ensures LivePurchase(t.purchases, id) ==> (r.Err? <==> exists k :: 0 <= k < |t.lots| && t.lots[k].purchaseId == id)
    ensures r.Err? ==> r.error == Referenced
    ensures LivePurchase(t.purchases, id) && r.Ok? ==>
              r.value == Commit(t.(purchases := t.purchases[id := t.purchases[id].(deleted := true)]), true)
  {
    if !LivePurchase(t.purchases, id) then Ok(Commit(t, false))
    else if HasLots(t.lots, id) then Err(Referenced)
    else Ok(Commit(t.(purchases := t.purchases[id := t.purchases[id].(deleted := true)]), true))
  }

  method DeletePurchase(db: Ledger, id: int) returns (r: Result<bool>)
    requires db.Valid()
    modifies db
    ensures db.Valid()
    ensures var s := DeletePurchaseSpec(old(db.Snapshot()), id);
            r == Outcome(s) && db.Snapshot() == After(s, old(db.Snapshot()))
  {
    ghost var t := db.Snapshot();
    if !LivePurchase(db.purchases, id) {
      return Ok(false);
    }
    if HasLots(db.lots, id) {
      return Err(Referenced);
    }
    db.purchases := db.purchases[id := db.purchases[id].(deleted := true)];
    assert db.Snapshot() == DeletePurchaseSpec(t, id).value.tables;
    r := Ok(true);
  }

  /** A purchase that ever had a lot can never be deleted, even after all its lots are. */
  lemma DeletedLotsStillBlock(t: Tables, id: int, k: int)
    requires LivePurchase(t.purchases, id)
    requires 0 <= k < |t.lots| && t.lots[k].purchaseId == id && t.lots[k].deleted
    ensures DeletePurchaseSpec(t, id) == Err(Referenced)
  {
  }

  /** ExistsAsync after a create finds the new purchase under the id the create returned. */
  lemma CreateThenPurchaseExists(t: Tables, d: PurchaseInput, j: int)
    requires CreatePurchaseSpec(t, d).Ok?
    ensures var c := CreatePurchaseSpec(t, d).value;
            && PurchaseExists(c.tables, c.value) && !PurchaseExists(t, c.value)
            && (j != c.value ==> PurchaseExists(c.tables, j) == PurchaseExists(t, j))
  {
  }

  /** An update returns a purchase exactly when one existed, and changes no id's existence. */
  lemma UpdateThenPurchaseExists(t: Tables, id: int, d: PurchaseInput, j: int)
    requires UpdatePurchaseSpec(t, id, d).Ok?
    ensures var c := UpdatePurchaseSpec(t, id, d).value;
            && (c.value.Some? <==> PurchaseExists(t, id))
            && PurchaseExists(c.tables, j) == PurchaseExists(t, j)
  {
  }

  /** A delete reports true exactly when the purchase existed; afterwards it no longer exists, and
      no other id answers differently. */
  lemma DeleteThenPurchaseExists(t: Tables, id: int, j: int)
    requires DeletePurchaseSpec(t, id).Ok?
    ensures var c := DeletePurchaseSpec(t, id).value;
            && (c.value <==> PurchaseExists(t, id))
            && !PurchaseExists(c.tables, id)
            && (j != id ==> PurchaseExists(c.tables, j) == PurchaseExists(t, j))
  {
  }

  // ---------------------------------------------------------------------------
  // GetAll
  // ---------------------------------------------------------------------------

  datatype PurchaseSort = ByPurchaseNo | ByTotalAmount | ByDate

  /** The request's filters and sort parameters. */
  datatype PurchaseQuery = PurchaseQuery(
    purchaseNo: Option<string>,
    supplierId: Option<int>,
    start: Option<Instant>,
    end: Option<Instant>,
    sortBy: string,
    sortOrder: string)

  /** A purchase as listed, with its supplier's name (soft-deleted supplier included). */
  datatype PurchaseView = PurchaseView(id: int, purchase: Purchase, supplierName: string)

  /** sortBy, case-insensitively: "purchaseno", "totalamount", anything else sorts by date. */
  function SortKey(sortBy: string): (k: PurchaseSort)
    ensures k == ByPurchaseNo <==> LowerAscii(sortBy) == "purchaseno"
    ensures k == ByTotalAmount <==> LowerAscii(sortBy) == "totalamount"
  {
    var s := LowerAscii(sortBy);
    if s == "purchaseno" then ByPurchaseNo else if s == "totalamount" then ByTotalAmount else ByDate
  }

  /** Only "asc", in any case, sorts ascending. */
  predicate Ascending(sortOrder: string) {
    LowerAscii(sortOrder) == "asc"
  }

  /** The sort parameters are read without regard to ASCII case: two spellings that lower-case
      alike choose the same key and the same direction. */
  lemma SortParametersIgnoreCase(a: string, b: string)
    requires LowerAscii(a) == LowerAscii(b)
    ensures SortKey(a) == SortKey(b) && Ascending(a) == Ascending(b)
  {
  }

  /** The spellings a client sends in practice. */
  lemma SortParameterExamples()
    ensures SortKey("PurchaseNo") == ByPurchaseNo && SortKey("TOTALAMOUNT") == ByTotalAmount
    ensures SortKey("purchaseDate") == ByDate && SortKey("") == ByDate
    ensures Ascending("Asc") && !Ascending("ascending") && !Ascending("desc")
  {
    assert LowerAscii("PurchaseNo") == "purchaseno";
    assert LowerAscii("TOTALAMOUNT") == "totalamount";
    assert LowerAscii("Asc") == "asc";
  }

  /** The row filter: live, number contains the search text unless that is blank, the given
      supplier, and purchase date inside the inclusive range. */
  predicate PurchaseSelected(p: Purchase, q: PurchaseQuery) {
    && !p.deleted
    && (q.purchaseNo.None? || IsBlank(q.purchaseNo.value) || Contains(p.purchaseNo, q.purchaseNo.value))
    && (q.supplierId.None? || p.supplierId == q.supplierId.value)
    && (q.start.None? || q.start.value <= p.purchaseDate)
    && (q.end.None? || p.purchaseDate <= q.end.value)
  }

  function PurchaseViewOf(t: Tables, id: int): PurchaseView
    requires 0 <= id < |t.purchases|
  {
    var sid := t.purchases[id].supplierId;
    PurchaseView(id, t.purchases[id], if 0 <= sid < |t.suppliers| then t.suppliers[sid].name else "")
  }

  function SelectedPurchases(t: Tables, n: int, q: PurchaseQuery): (r: seq<PurchaseView>)
    requires 0 <= n <= |t.purchases|
    ensures forall v :: v in r <==> 0 <= v.id < n && PurchaseSelected(t.purchases[v.id], q) && v == PurchaseViewOf(t, v.id)
    ensures Distinct(r)
    decreases n
  {
    if n == 0 then []
    else
      var prior := SelectedPurchases(t, n - 1, q);
      if PurchaseSelected(t.purchases[n - 1], q) then prior + [PurchaseViewOf(t, n - 1)] else prior
  }

  predicate NoLe(a: PurchaseView, b: PurchaseView) { NameLe(a.purchase.purchaseNo, b.purchase.purchaseNo) }
  predicate NoGe(a: PurchaseView, b: PurchaseView) { NoLe(b, a) }
  predicate AmountLe(a: PurchaseView, b: PurchaseView) { a.purchase.totalAmount <= b.purchase.totalAmount }
  predicate AmountGe(a: PurchaseView, b: PurchaseView) { AmountLe(b, a) }
  /** Date, then id. */
  predicate DateLe(a: PurchaseView, b: PurchaseView) {
    a.purchase.purchaseDate < b.purchase.purchaseDate || (a.purchase.purchaseDate == b.purchase.purchaseDate && a.id <= b.id)
  }
  predicate DateGe(a: PurchaseView, b: PurchaseView) { DateLe(b, a) }

  /** The order the sort parameters ask for. */
  function PurchaseOrder(key: PurchaseSort, ascending: bool): (PurchaseView, PurchaseView) -> bool {
    match key
    case ByPurchaseNo => if ascending then NoLe else NoGe
    case ByTotalAmount => if ascending then AmountLe else AmountGe
    case ByDate => if ascending then DateLe else DateGe
  }

  lemma PurchaseOrderIsTotalPreorder(key: PurchaseSort, ascending: bool)
    ensures TotalPreorder(PurchaseOrder(key, ascending))
  {
    ByNameIsTotalPreorder((v: PurchaseView) => v.purchase.purchaseNo, NoLe);
    ReverseIsTotalPreorder(NoLe, NoGe);
    ReverseIsTotalPreorder(AmountLe, AmountGe);
    ReverseIsTotalPreorder(DateLe, DateGe);
  }

  /** GetAll: the selected purchases, each once, in the requested order. */
  function ListPurchases(t: Tables, q: PurchaseQuery): (r: seq<PurchaseView>)
    ensures SortedBy(r, PurchaseOrder(SortKey(q.sortBy), Ascending(q.sortOrder)))
    ensures forall v :: v in r <==>
              0 <= v.id < |t.purchases| && PurchaseSelected(t.purchases[v.id], q) && v == PurchaseViewOf(t, v.id)
    ensures Distinct(r)
  {
    var le := PurchaseOrder(SortKey(q.sortBy), Ascending(q.sortOrder));
    PurchaseOrderIsTotalPreorder(SortKey(q.sortBy), Ascending(q.sortOrder));
    var selected := SelectedPurchases(t, |t.purchases|, q);
    SortedListing(selected, le)
  }
}
