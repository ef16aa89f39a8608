// The checks of test_pos_system.py, restated as verified client code over the model,
// and one added client (CancelRestores) for the cancel path, which that script does not exercise.
// Money is in cents: 5.50 is 550, 27.50 is 2750.
module Scenarios {
  import opened Wrappers
  import opened Products
  import opened SaleItems
  import opened Sales
  import opened InventoryServices
  import opened SaleServices
  import opened ReturnServices
  import StockLedger

  /** test_product: reduce then increase the stock of a fresh product. */
  method ProductStockRoundTrip() {
    var product := new Product("P001", "苹果", 550, 100);
    assert product.productId == "P001" && product.name == "苹果";
    assert product.price == 550 && product.stock == 100;
    var ok := product.ReduceStock(10);
    assert ok && product.stock == 90;
    product.IncreaseStock(5);
    assert product.stock == 95;
  }

  /** test_sale: five units at 550 total 2750; paying 3000 leaves 250 change. */
  method SaleTotalAndChange(clock: string) {
    var product := new Product("P001", "苹果", 550, 100);
    var sale := new Sale(None, clock);
    sale.AddItem(SaleItem(product, 5));
    assert |sale.items| == 1 && sale.Total() == 2750;
    sale.CompleteSale("cash", 3000);
    assert sale.isCompleted && sale.Change() == 250;
  }

  /** test_inventory_service: drawing 10 of P001 from the sample catalog leaves 90. */
  method InventoryDraw() {
    var inventory := new InventoryService();
    assert inventory.order[0] == "P001";
    var product := inventory.GetProduct("P001");
    assert product.Some? && product.value.stock == 100;
    var ok := inventory.UpdateStock("P001", 10);
    assert ok;
    product := inventory.GetProduct("P001");
    assert product.Some? && product.value.stock == 90;
  }

  /** test_sale_service: adding 5 of P001 draws stock at once; completion leaves it at 95. */
  method SaleServiceDraw(clock: string) {
    var inventory := new InventoryService();
    assert inventory.order[0] == "P001" && Describes(inventory.products["P001"], SampleCatalog[0]);
    ghost var apple := inventory.products["P001"];
    var sales := new SaleService(inventory);
    var sale := sales.CreateSale(clock);
    var added := sales.AddItemToSale(sale, "P001", 5);
    assert added && sale.items == [SaleItem(apple, 5)];
    assert apple.price == 550;
    assert SaleItem(apple, 5).Subtotal() == 2750;
    assert sale.items[..0] == [];
    assert SumOfSubtotals(sale.items) == 2750;
    assert sale.Total() == 2750;
    var completed := sales.CompleteSale(sale, "cash", 3000);
    assert completed && sale.isCompleted;
    assert inventory.Stocks()["P001"] == 95;
  }

  /** The sale half of test_return_service: ten units of P001 sold and paid for. */
  method SellTenApples(clock: string) returns (inventory: InventoryService, sales: SaleService, ghost apple: Product)
    ensures fresh(inventory) && fresh(inventory.products.Values)
    ensures inventory.Filed() && sales.inventory == inventory
    ensures "P001" in inventory.products && inventory.products["P001"] == apple && apple.price == 550
    ensures inventory.Stocks()["P001"] == 90
  {
    inventory := new InventoryService();
    assert inventory.order[0] == "P001" && Describes(inventory.products["P001"], SampleCatalog[0]);
    apple := inventory.products["P001"];
    sales := new SaleService(inventory);
    var sale := sales.CreateSale(clock);
    var added := sales.AddItemToSale(sale, "P001", 10);
    assert added;
    var completed := sales.CompleteSale(sale, "cash", 10000);
  }

  /** test_return_service: returning 3 of P001 after a sale of 10 adds 3 to its stock. */
  method ReturnRestores(clock: string) {
    var inventory, sales, apple := SellTenApples(clock);
    var returnService := new ReturnService(inventory, sales);
    var initialStock := inventory.Stocks()["P001"];
    var ret := returnService.CreateReturn(Some("SALE-" + clock), clock);
    var accepted := returnService.AddItemToReturn(ret, "P001", 3);
    assert accepted && ret.items == [SaleItem(apple, 3)];
    assert SaleItem(apple, 3).Subtotal() == 1650;
    assert ret.items[..0] == [];
    assert SumOfSubtotals(ret.items) == 1650;
    assert ret.TotalRefund() == 1650;
    ghost var before := inventory.Stocks();
    var done := returnService.CompleteReturn(ret);
    assert done;
    StockLedger.RestoreAllAt(before, ret.items, "P001");
    assert inventory.Stocks()["P001"] == initialStock + 3;
  }

  /**
   * Added client, not in the test script: on any catalog, a sale built by any run of
   * adds (each one may fail) and then cancelled leaves every stock as it was.
   */
  method CancelRestores(sales: SaleService, sale: Sale, ids: seq<string>, quantities: seq<int>)
    requires sales.Valid() && sale.items == [] && |ids| == |quantities|
    modifies sale`items, sales.inventory.products.Values
    ensures sales.inventory.Stocks() == old(sales.inventory.Stocks())
  {
    ghost var initial := sales.inventory.Stocks();
    for i := 0 to |ids|
      invariant sales.Valid()
      invariant StockLedger.DrawAll(initial, sale.items) == Some(sales.inventory.Stocks())
    {
      ghost var before := sale.items;
      ghost var drawn := sales.inventory.Stocks();
      var added := sales.AddItemToSale(sale, ids[i], quantities[i]);
      if added {
        assert sale.items[..|sale.items| - 1] == before;
        assert sale.items[|sale.items| - 1].product.productId == ids[i];
        assert StockLedger.DrawAll(initial, sale.items) == StockLedger.Draw(drawn, ids[i], quantities[i]);
      }
    }
    StockLedger.CancelUndoesDraws(initial, sale.items);
    sales.CancelSale(sale);
  }
}
