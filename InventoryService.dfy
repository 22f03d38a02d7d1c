/** Lot allocation: a purchase's source-currency amount becomes JPY inventory lots. A lot that a
    live order line draws on is frozen: it can be neither edited nor deleted. */
module InventoryService {
  import opened Models
  import opened Store

  /** CreateInventoryDto / UpdateInventoryDto. */
  datatype LotInput = LotInput(
    productId: int,
    purchaseId: int,
    purchaseAmountCny: Money,
    purchaseQuantity: int,
    stockQuantity: int)

  /** A lot as the queries return it: IsReferenced says whether a live line draws on it. */
  datatype LotView = LotView(id: int, lot: Lot, isReferenced: bool)

  // ---------------------------------------------------------------------------
  // Conversion to JPY
  // ---------------------------------------------------------------------------

  /** The JPY amount of a source-currency amount at the purchase's exchange rate. */
  function ToJpy(amount: Money, exchangeRate: Money): Money {
    amount * exchangeRate
  }

  /** The lot a valid request describes: the amount is kept as entered, converted at the purchase's
      rate, and divided over the purchased quantity; the stock is stored as given. */
  function BuildLot(d: LotInput, exchangeRate: Money): (l: Lot)
    requires d.purchaseQuantity > 0
    ensures l.purchaseAmountCny == d.purchaseAmountCny && l.purchaseAmount == ToJpy(d.purchaseAmountCny, exchangeRate)
    ensures l.unitCost * d.purchaseQuantity as real == l.purchaseAmount
    ensures l.productId == d.productId && l.purchaseId == d.purchaseId
    ensures l.purchaseQuantity == d.purchaseQuantity && l.stockQuantity == d.stockQuantity && !l.deleted
  {
    var jpy := ToJpy(d.purchaseAmountCny, exchangeRate);
    Lot(d.productId, d.purchaseId, jpy, d.purchaseAmountCny, d.purchaseQuantity, jpy / d.purchaseQuantity as real,
        d.stockQuantity, false)
  }

  // ---------------------------------------------------------------------------
  // References from order lines
  // ---------------------------------------------------------------------------

  /** Some live order line takes its stock from lot lotId. */
  predicate IsReferenced(lines: seq<Line>, lotId: int) {
    exists i :: 0 <= i < |lines| && !lines[i].deleted && lines[i].inventoryId == lotId
  }

  /** GetById: a live lot with its IsReferenced flag; none for a missing or soft-deleted lot. */
  function GetLot(t: Tables, id: int): (r: Option<LotView>)
    ensures r.Some? <==> LiveLot(t.lots, id)
    ensures r.Some? ==> r.value.id == id && r.value.lot == t.lots[id]
    ensures r.Some? ==> (r.value.isReferenced <==> exists i :: 0 <= i < |t.lines| && !t.lines[i].deleted && t.lines[i].inventoryId == id)
  {
    if LiveLot(t.lots, id) then Some(LotView(id, t.lots[id], IsReferenced(t.lines, id))) else None
  }

  predicate LotListed(t: Tables, id: int, purchaseId: Option<int>) {
    LiveLot(t.lots, id) && (purchaseId.None? || t.lots[id].purchaseId == purchaseId.value)
  }

  /** GetAll over the lots with id below n: the live ones (of the given purchase, when one is
      given), newest first. Ids grow with creation time, so newest first is descending id. */
  function ListLotsBelow(t: Tables, n: int, purchaseId: Option<int>): (r: seq<LotView>)
    requires 0 <= n <= |t.lots|
    ensures forall v :: v in r <==>
              0 <= v.id < n && LotListed(t, v.id, purchaseId) && v == LotView(v.id, t.lots[v.id], IsReferenced(t.lines, v.id))
    ensures forall i, j :: 0 <= i < j < |r| ==> r[i].id > r[j].id
    decreases n
  {
    if n == 0 then []
    else
      var rest := ListLotsBelow(t, n - 1, purchaseId);
      if LotListed(t, n - 1, purchaseId) then [LotView(n - 1, t.lots[n - 1], IsReferenced(t.lines, n - 1))] + rest
      else rest
  }

  function ListLots(t: Tables, purchaseId: Option<int>): (r: seq<LotView>)
    ensures forall v :: v in r <==>
              0 <= v.id < |t.lots| && LotListed(t, v.id, purchaseId) && v == LotView(v.id, t.lots[v.id], IsReferenced(t.lines, v.id))
    ensures forall i, j :: 0 <= i < j < |r| ==> r[i].id > r[j].id
  {
    ListLotsBelow(t, |t.lots|, purchaseId)
  }

  // ---------------------------------------------------------------------------
  // Create
  // ---------------------------------------------------------------------------

  /** The checks create and update share, in the order the service makes them: the product, then
      the purchase (both live), then a positive purchase quantity, then a non-negative stock. */
  function CheckInput(t: Tables, d: LotInput): (r: Option<Error>)
    ensures r.None? <==> LiveProduct(t.products, d.productId) && LivePurchase(t.purchases, d.purchaseId)
                         && d.purchaseQuantity > 0 && d.stockQuantity >= 0
    ensures !LiveProduct(t.products, d.productId) ==> r == Some(NotFound(Products, d.productId))
    ensures LiveProduct(t.products, d.productId) && !LivePurchase(t.purchases, d.purchaseId) ==>
              r == Some(NotFound(Purchases, d.purchaseId))
    ensures LiveProduct(t.products, d.productId) && LivePurchase(t.purchases, d.purchaseId) ==>
              && (d.purchaseQuantity <= 0 ==> r == Some(InvalidQuantity))
              && (d.purchaseQuantity > 0 && d.stockQuantity < 0 ==> r == Some(NegativeStock))
  {
    if !LiveProduct(t.products, d.productId) then Some(NotFound(Products, d.productId))
    else if !LivePurchase(t.purchases, d.purchaseId) then Some(NotFound(Purchases, d.purchaseId))
    else if d.purchaseQuantity <= 0 then Some(InvalidQuantity)
    else if d.stockQuantity < 0 then Some(NegativeStock)
    else None
  }

  function CreateLotSpec(t: Tables, d: LotInput): (r: Result<Commit<int>>)
    ensures Consistent(t) && r.Ok? ==> Consistent(r.value.tables)
    ensures r.Ok? <==> CheckInput(t, d).None?
    ensures r.Err? ==> Some(r.error) == CheckInput(t, d)
    ensures r.Ok? ==> var u := r.value.tables;
              && r.value.value == |t.lots|
              && u == t.(lots := t.lots + [BuildLot(d, t.purchases[d.purchaseId].exchangeRate)])
  {
    match CheckInput(t, d)
    case Some(e) => Err(e)
    case None => Ok(Commit(t.(lots := t.lots + [BuildLot(d, t.purchases[d.purchaseId].exchangeRate)]), |t.lots|))
  }

  method CreateLot(db: Ledger, d: LotInput) returns (r: Result<int>)
    requires db.Valid()
    modifies db
    ensures db.Valid()
    ensures var s := CreateLotSpec(old(db.Snapshot()), d);
            r == Outcome(s) && db.Snapshot() == After(s, old(db.Snapshot()))
  {
    ghost var t := db.Snapshot();
    if !LiveProduct(db.products, d.productId) {
      return Err(NotFound(Products, d.productId));
    }
    if !LivePurchase(db.purchases, d.purchaseId) {
      return Err(NotFound(Purchases, d.purchaseId));
    }
    var rate := db.purchases[d.purchaseId].exchangeRate;
    if d.purchaseQuantity <= 0 {
      return Err(InvalidQuantity);
    }
    if d.stockQuantity < 0 {
      return Err(NegativeStock);
    }
    r := Ok(|db.lots|);
    db.lots := db.lots + [BuildLot(d, rate)];
    assert db.Snapshot() == CreateLotSpec(t, d).value.tables;
  }

  // ---------------------------------------------------------------------------
  // BatchCreate
  // ---------------------------------------------------------------------------

  /** What a batch leaves behind: the tables, the ids created, and the error that stopped it. */
  datatype Batch = Batch(tables: Tables, created: seq<int>, failure: Option<Error>)

  /** Creates the items in order, each committed on its own; the first failure stops the batch
      and leaves the items before it in place. */
  function BatchCreateSpec(t: Tables, ds: seq<LotInput>): Batch
    decreases |ds|
  {
    if ds == [] then Batch(t, [], None)
    else match CreateLotSpec(t, ds[0])
      case Err(e) => Batch(t, [], Some(e))
      case Ok(c) =>
        var b := BatchCreateSpec(c.tables, ds[1..]);
        Batch(b.tables, [c.value] + b.created, b.failure)
  }

  /** The lots a run of valid items adds, each at its purchase's rate. */
  function BuiltLots(purchases: seq<Purchase>, ds: seq<LotInput>): seq<Lot>
    requires forall j :: 0 <= j < |ds| ==> 0 <= ds[j].purchaseId < |purchases| && ds[j].purchaseQuantity > 0
    decreases |ds|
  {
    if ds == [] then [] else [BuildLot(ds[0], purchases[ds[0].purchaseId].exchangeRate)] + BuiltLots(purchases, ds[1..])
  }

  /** BatchCreate is not atomic: the items before the first invalid one are created, with
      consecutive ids in input order, and the error names the first invalid item. */
  lemma {:induction false} BatchCreateOutcome(t: Tables, ds: seq<LotInput>)
    ensures var b := BatchCreateSpec(t, ds);
            && |b.created| <= |ds|
            && (forall j :: 0 <= j < |b.created| ==> b.created[j] == |t.lots| + j && CheckInput(t, ds[j]).None?)
            && (b.failure.None? <==> |b.created| == |ds|)
            && (b.failure.Some? ==> b.failure == CheckInput(t, ds[|b.created|]))
    decreases |ds|
  {
    if ds != [] {
      var s := CreateLotSpec(t, ds[0]);
      if s.Ok? {
        BatchCreateOutcome(s.value.tables, ds[1..]);
        var b := BatchCreateSpec(t, ds);
        forall j | 1 <= j < |b.created| ensures b.created[j] == |t.lots| + j && CheckInput(t, ds[j]).None? {
          assert ds[1..][j - 1] == ds[j];
        }
        if b.failure.Some? {
          assert ds[1..][|b.created| - 1] == ds[|b.created|];
        }
      }
    }
  }

  /** The items created stay persisted even when a later item fails: the lots table gains exactly
      the lots of the created prefix, and no other table changes. */
  lemma {:induction false} BatchCreateTables(t: Tables, ds: seq<LotInput>)
    ensures var b := BatchCreateSpec(t, ds);
            && |b.created| <= |ds|
            && (forall j :: 0 <= j < |b.created| ==> CheckInput(t, ds[j]).None?)
            && b.tables == t.(lots := t.lots + BuiltLots(t.purchases, ds[..|b.created|]))
    decreases |ds|
  {
    BatchCreateOutcome(t, ds);
    if ds != [] {
      var s := CreateLotSpec(t, ds[0]);
      if s.Ok? {
        var c := s.value.tables;
        BatchCreateTables(c, ds[1..]);
        var b := BatchCreateSpec(t, ds);
        var k := |b.created|;
        assert ds[..k][0] == ds[0] && ds[..k][1..] == ds[1..][..k - 1];
      } else {
        assert ds[..0] == [];
      }
    }
  }

  method BatchCreate(db: Ledger, ds: seq<LotInput>) returns (created: seq<int>, failure: Option<Error>)
    requires db.Valid()
    modifies db
    ensures db.Valid()
    ensures var b := BatchCreateSpec(old(db.Snapshot()), ds);
            created == b.created && failure == b.failure && db.Snapshot() == b.tables
  {
    ghost var t := db.Snapshot();
    created, failure := [], None;
    var i := 0;
    while i < |ds|
      invariant 0 <= i <= |ds|
      invariant db.Valid()
      invariant var b := BatchCreateSpec(db.Snapshot(), ds[i..]);
                BatchCreateSpec(t, ds) == Batch(b.tables, created + b.created, b.failure)
    {
      assert ds[i..][0] == ds[i] && ds[i..][1..] == ds[i + 1..];
      var r := CreateLot(db, ds[i]);
      if r.Err? {
        failure := Some(r.error);
        return;
      }
      created := created + [r.value];
      i := i + 1;
    }
    assert ds[i..] == [];
  }

  // ---------------------------------------------------------------------------
  // Update and delete
  // ---------------------------------------------------------------------------

  /** Rewrites a live, unreferenced lot from a request, re-deriving its JPY amount and unit cost
      at the newly named purchase's rate. Null, and no change, for a missing or soft-deleted lot. */
  function UpdateLotSpec(t: Tables, id: int, d: LotInput): (r: Result<Commit<Option<Lot>>>)
    ensures Consistent(t) && r.Ok? ==> Consistent(r.value.tables)
    ensures !LiveLot(t.lots, id) ==> r == Ok(Commit(t, None))
    ensures LiveLot(t.lots, id) && IsReferenced(t.lines, id) ==> r == Err(Referenced)
    ensures LiveLot(t.lots, id) && !IsReferenced(t.lines, id) ==>
              && (r.Ok? <==> CheckInput(t, d).None?)
              && (r.Err? ==> Some(r.error) == CheckInput(t, d))
    ensures LiveLot(t.lots, id) && r.Ok? ==>
              var l := BuildLot(d, t.purchases[d.purchaseId].exchangeRate);
              r.value == Commit(t.(lots := t.lots[id := l]), Some(l))
  {
    if !LiveLot(t.lots, id) then Ok(Commit(t, None))
    else if IsReferenced(t.lines, id) then Err(Referenced)
    else match CheckInput(t, d)
      case Some(e) => Err(e)
      case None =>
        var l := BuildLot(d, t.purchases[d.purchaseId].exchangeRate);
        Ok(Commit(t.(lots := t.lots[id := l]), Some(l)))
  }

  method UpdateLot(db: Ledger, id: int, d: LotInput) returns (r: Result<Option<Lot>>)
    requires db.Valid()
    modifies db
    ensures db.Valid()
    ensures var s := UpdateLotSpec(old(db.Snapshot()), id, d);
            r == Outcome(s) && db.Snapshot() == After(s, old(db.Snapshot()))
  {
    ghost var t := db.Snapshot();
    if !LiveLot(db.lots, id) {
      return Ok(None);
    }
    if IsReferenced(db.lines, id) {
      return Err(Referenced);
    }
    if !LiveProduct(db.products, d.productId) {
      return Err(NotFound(Products, d.productId));
    }
    if !LivePurchase(db.purchases, d.purchaseId) {
      return Err(NotFound(Purchases, d.purchaseId));
    }
    if d.purchaseQuantity <= 0 {
      return Err(InvalidQuantity);
    }
    if d.stockQuantity < 0 {
      return Err(NegativeStock);
    }
    var l := BuildLot(d, db.purchases[d.purchaseId].exchangeRate);
    db.lots := db.lots[id := l];
    assert db.Snapshot() == UpdateLotSpec(t, id, d).value.tables;
    r := Ok(Some(l));
  }

  /** Soft-deletes a live, unreferenced lot; false, and no change, for a missing or deleted one. */
  function DeleteLotSpec(t: Tables, id: int): (r: Result<Commit<bool>>)
    ensures Consistent(t) && r.Ok? ==> Consistent(r.value.tables)
    ensures !LiveLot(t.lots, id) ==> r == Ok(Commit(t, false))
    ensures LiveLot(t.lots, id) ==> (r.Err? <==> IsReferenced(t.lines, id))
    ensures r.Err? ==> r.error == Referenced
    ensures LiveLot(t.lots, id) && r.Ok? ==>
              r.value == Commit(t.(lots := t.lots[id := t.lots[id].(deleted := true)]), true)
  {
    if !LiveLot(t.lots, id) then Ok(Commit(t, false))
    else if IsReferenced(t.lines, id) then Err(Referenced)
    else Ok(Commit(t.(lots := t.lots[id := t.lots[id].(deleted := true)]), true))
  }

  method DeleteLot(db: Ledger, id: int) returns (r: Result<bool>)
    requires db.Valid()
    modifies db
    ensures db.Valid()
    ensures var s := DeleteLotSpec(old(db.Snapshot()), id);
            r == Outcome(s) && db.Snapshot() == After(s, old(db.Snapshot()))
  {
    ghost var t := db.Snapshot();
    if !LiveLot(db.lots, id) {
      return Ok(false);
    }
    if IsReferenced(db.lines, id) {
      return Err(Referenced);
    }
    db.lots := db.lots[id := db.lots[id].(deleted := true)];
    assert db.Snapshot() == DeleteLotSpec(t, id).value.tables;
    r := Ok(true);
  }

  /** A lot some live line draws on is frozen: neither update nor delete changes anything. */
  lemma ReferencedLotIsFrozen(t: Tables, id: int, d: LotInput)
    requires IsReferenced(t.lines, id)
    ensures After(UpdateLotSpec(t, id, d), t) == t
    ensures After(DeleteLotSpec(t, id), t) == t
  {
  }

  /** Deleting a lot keeps the stock invariant: no live line can be left on a deleted lot. */
  lemma DeleteLotKeepsStockInvariant(t: Tables, id: int)
    requires StockInvariant(t)
    requires DeleteLotSpec(t, id).Ok?
    ensures StockInvariant(DeleteLotSpec(t, id).value.tables)
  {
    var u := DeleteLotSpec(t, id).value.tables;
    forall i | 0 <= i < |u.lines| && !u.lines[i].deleted ensures LiveLot(u.lots, u.lines[i].inventoryId) {
    }
  }

  // ---------------------------------------------------------------------------
  // Purchase totals
  // ---------------------------------------------------------------------------

  /** GetPurchaseTotalAmount: the JPY amount of the purchase's live lots. */
  function AllocatedTotal(lots: seq<Lot>, purchaseId: int): Money
    decreases |lots|
  {
    if lots == [] then 0.0
    else
      var l := lots[|lots| - 1];
      AllocatedTotal(lots[..|lots| - 1], purchaseId) + (if !l.deleted && l.purchaseId == purchaseId then l.purchaseAmount else 0.0)
  }

  /** The source-currency amount of the purchase's live lots. */
  function AllocatedCny(lots: seq<Lot>, purchaseId: int): Money
    decreases |lots|
  {
    if lots == [] then 0.0
    else
      var l := lots[|lots| - 1];
      AllocatedCny(lots[..|lots| - 1], purchaseId) + (if !l.deleted && l.purchaseId == purchaseId then l.purchaseAmountCny else 0.0)
  }

  /** GetPurchaseExpectedTotalJpy: the purchase's total at its rate, or 0 for a missing or deleted purchase. */
  function ExpectedTotalJpy(t: Tables, purchaseId: int): (r: Money)
    ensures !LivePurchase(t.purchases, purchaseId) ==> r == 0.0
    ensures LivePurchase(t.purchases, purchaseId) ==>
              r == ToJpy(t.purchases[purchaseId].totalAmount, t.purchases[purchaseId].exchangeRate)
  {
    if LivePurchase(t.purchases, purchaseId) then ToJpy(t.purchases[purchaseId].totalAmount, t.purchases[purchaseId].exchangeRate)
    else 0.0
  }

  /** When every live lot of a purchase was converted at the same rate, the JPY allocation is the
      source-currency allocation at that rate. */
  lemma {:induction false} AllocatedAtOneRate(lots: seq<Lot>, purchaseId: int, rate: Money)
    requires forall k :: 0 <= k < |lots| && !lots[k].deleted && lots[k].purchaseId == purchaseId ==>
               lots[k].purchaseAmount == ToJpy(lots[k].purchaseAmountCny, rate)
    ensures AllocatedTotal(lots, purchaseId) == ToJpy(AllocatedCny(lots, purchaseId), rate)
    decreases |lots|
  {
    if lots != [] {
      AllocatedAtOneRate(lots[..|lots| - 1], purchaseId, rate);
    }
  }

  /** So, with a non-zero rate, the allocated JPY total meets the expected total exactly when the
      lots' source-currency amounts add up to the purchase's total. */
  lemma AllocationBalances(t: Tables, purchaseId: int)
    requires LivePurchase(t.purchases, purchaseId) && t.purchases[purchaseId].exchangeRate != 0.0
    requires forall k :: 0 <= k < |t.lots| && !t.lots[k].deleted && t.lots[k].purchaseId == purchaseId ==>
               t.lots[k].purchaseAmount == ToJpy(t.lots[k].purchaseAmountCny, t.purchases[purchaseId].exchangeRate)
    ensures AllocatedTotal(t.lots, purchaseId) == ExpectedTotalJpy(t, purchaseId)
            <==> AllocatedCny(t.lots, purchaseId) == t.purchases[purchaseId].totalAmount
  {
    var rate := t.purchases[purchaseId].exchangeRate;
    AllocatedAtOneRate(t.lots, purchaseId, rate);
    var a := AllocatedCny(t.lots, purchaseId);
    var total := t.purchases[purchaseId].totalAmount;
    assert a * rate == total * rate ==> a == total by {
      if a * rate == total * rate {
        assert (a - total) * rate == 0.0;
      }
    }
  }

  /** A created lot adds its converted amount to its purchase's allocation and nothing to any other. */
  lemma CreateLotAllocation(t: Tables, d: LotInput, p: int)
    requires CreateLotSpec(t, d).Ok?
    ensures AllocatedTotal(CreateLotSpec(t, d).value.tables.lots, p)
            == AllocatedTotal(t.lots, p)
               + (if p == d.purchaseId then ToJpy(d.purchaseAmountCny, t.purchases[d.purchaseId].exchangeRate) else 0.0)
  {
    var u := CreateLotSpec(t, d).value.tables;
    assert u.lots[..|u.lots| - 1] == t.lots;
  }
}
