/** Worked examples on a small shop: one category, supplier, product and purchase at an exchange
    rate of 20, and the lot it allocates. */
module Scenarios {
  import opened Models
  import opened Store
  import opened InventoryService
  import opened OrderService

  /** The shop before any stock arrives. */
  function EmptyShop(): Tables {
    EmptyTables().(
      categories := [Category("Toys", false)],
      suppliers := [Supplier("Yiwu Trading", false)],
      products := [Product(0, "Robot", false)],
      purchases := [Purchase(0, 0, "P-001", 1000.0, "CNY", 20.0, false)])
  }

  /** 1000 CNY for 50 units at 20 JPY/CNY: 20000 JPY, 400 JPY a unit. */
  lemma LotAllocationExample()
    ensures CreateLotSpec(EmptyShop(), LotInput(0, 0, 1000.0, 50, 50))
            == Ok(Commit(EmptyShop().(lots := [Lot(0, 0, 20000.0, 1000.0, 50, 400.0, 50, false)]), 0))
  {
    var d := LotInput(0, 0, 1000.0, 50, 50);
    assert CheckInput(EmptyShop(), d).None?;
    var l := BuildLot(d, 20.0);
    assert l.purchaseAmount == 20000.0;
    assert l == Lot(0, 0, 20000.0, 1000.0, 50, 400.0, 50, false);
    assert EmptyShop().lots + [l] == [l];
  }

  /** Unit cost 100, quantity 2, packaging 10 and other cost 5 make a subtotal of 215. */
  lemma SubtotalExample()
    ensures Subtotal(100.0, DetailInput(0, 0, 150.0, 2, 10.0, 5.0, None)) == 215.0
  {
  }

  function Shop(stock: int): Tables {
    EmptyShop().(lots := [Lot(0, 0, 20000.0, 1000.0, 50, 400.0, stock, false)])
  }

  /** An order for 5 robots leaves 45 in the lot and costs 2000; deleting it puts the 5 back. */
  lemma OrderExample()
    ensures var c := CreateOrderWithDetailsSpec(Shop(50), OrderHeader("A-1", None, 3000.0, 0),
                                                [DetailInput(0, 0, 600.0, 5, 0.0, 0.0, None)]);
            && c.Ok?
            && c.value.tables.lots[0].stockQuantity == 45
            && TotalCost(c.value.tables.lines, 0) == 2000.0
            && DeleteOrderSpec(c.value.tables, 0).tables.lots == Shop(50).lots
  {
    var h := OrderHeader("A-1", None, 3000.0, 0);
    var ds := [DetailInput(0, 0, 600.0, 5, 0.0, 0.0, None)];
    CreateOrderWithDetailsOkIff(Shop(50), h, ds);
    assert Feasible(Shop(50).lots, ds) by {
      assert Demand(ds[..0], 0) == 0;
      assert FeasibleAt(Shop(50).lots, ds, 0);
    }
    CreateOrderWithDetailsStock(Shop(50), h, ds);
    assert Demand(ds, 0) == 5 by {
      assert ds[..|ds| - 1] == [];
    }
    CreateOrderWithDetailsCost(Shop(50), h, ds);
    CreateThenDeleteOrder(Shop(50), h, ds);
  }

  /** Nothing rejects a negative quantity, and the stock invariant does not survive one: on an
      empty lot, a line of -5 raises the stock to 5, a line of 5 takes it back to 0, and deleting
      the first line gives back -5, leaving the lot at -5 though every step succeeded. */
  lemma NegativeQuantityBreaksStock()
    ensures var t := Shop(0).(orders := [Order("A-1", "", None, 0.0, 0.0, 0, false)]);
            var minus := DetailInput(0, 0, 0.0, -5, 0.0, 0.0, None);
            var plus := DetailInput(0, 0, 0.0, 5, 0.0, 0.0, None);
            && StockInvariant(t)
            && var c1 := CreateOrderDetailSpec(t, 0, minus);
            && c1.Ok? && c1.value.tables.lots[0].stockQuantity == 5
            && var c2 := CreateOrderDetailSpec(c1.value.tables, 0, plus);
            && c2.Ok? && c2.value.tables.lots[0].stockQuantity == 0
            && var d := DeleteOrderDetailSpec(c2.value.tables, c1.value.value);
            && d.value && d.tables.lots[0].stockQuantity == -5
            && !StockInvariant(d.tables)
  {
    var t := Shop(0).(orders := [Order("A-1", "", None, 0.0, 0.0, 0, false)]);
    var minus := DetailInput(0, 0, 0.0, -5, 0.0, 0.0, None);
    var plus := DetailInput(0, 0, 0.0, 5, 0.0, 0.0, None);
    var c1 := CreateOrderDetailSpec(t, 0, minus);
    CreateOrderDetailEffect(t, 0, minus, 0);
    var c2 := CreateOrderDetailSpec(c1.value.tables, 0, plus);
    CreateOrderDetailEffect(c1.value.tables, 0, plus, 0);
    DeleteOrderDetailEffect(c2.value.tables, 0, 0);
  }
}
