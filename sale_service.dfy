// service/sale_service.py: the sale lifecycle. Stock is reserved when an item is
// added, payment is checked on completion, and cancelling gives the stock back.
module SaleServices {
  import opened Wrappers
  import opened SaleItems
  import opened Sales
  import opened InventoryServices
  import StockLedger

  class SaleService {
    const inventory: InventoryService
    /** Completed sales, oldest first; only ever extended at the end. */
    var salesHistory: seq<Sale>

    ghost predicate Valid()
      reads this, inventory
    {
      inventory.Filed()
    }

    constructor (inventory: InventoryService)
      requires inventory.Filed()
      ensures Valid() && this.inventory == inventory && salesHistory == []
    {
      this.inventory := inventory;
      salesHistory := [];
    }

    /** A fresh open sale whose id is generated from the clock reading. */
    method CreateSale(clock: string) returns (sale: Sale)
      ensures fresh(sale) && sale.saleId == "SALE-" + clock
      ensures sale.items == [] && !sale.isCompleted
      ensures sale.paymentMethod == None && sale.paymentAmount == 0
    {
      sale := new Sale(None, clock);
    }

    /**
     * Reserves stock at once: fails, changing nothing, on an unknown product or
     * when the stock does not cover the quantity.
     */
    method AddItemToSale(sale: Sale, productId: string, quantity: int) returns (ok: bool)
      requires Valid()
      modifies sale`items, inventory.products.Values
      ensures Valid()
      ensures ok == StockLedger.Draw(old(inventory.Stocks()), productId, quantity).Some?
      ensures inventory.Stocks() ==
        if ok then StockLedger.Draw(old(inventory.Stocks()), productId, quantity).value
        else old(inventory.Stocks())
      ensures sale.items ==
        if ok then old(sale.items) + [SaleItem(inventory.products[productId], quantity)]
        else old(sale.items)
    {
      var product := inventory.GetProduct(productId);
      if product.None? {
        return false;
      }
      assert forall k :: k in inventory.products && k != productId ==> inventory.products[k] != product.value;
      var reduced := product.value.ReduceStock(quantity);
      assert inventory.Stocks() == old(inventory.Stocks())[productId := product.value.stock];
      if !reduced {
        assert old(inventory.Stocks())[productId := product.value.stock] == old(inventory.Stocks());
        return false;
      }
      sale.AddItem(SaleItem(product.value, quantity));
      return true;
    }

    /**
     * Succeeds exactly when the payment covers the total; then the sale is
     * completed and appended to the history. Stock is not touched.
     */
    method CompleteSale(sale: Sale, paymentMethod: string, paymentAmount: int) returns (ok: bool)
      requires Valid()
      modifies this, sale`paymentMethod, sale`paymentAmount, sale`isCompleted
      ensures Valid()
      ensures ok == (paymentAmount >= sale.Total())
      ensures ok ==> sale.isCompleted && sale.paymentMethod == Some(paymentMethod)
      ensures ok ==> sale.paymentAmount == paymentAmount && sale.Change() == paymentAmount - sale.Total() >= 0
      ensures !ok ==> unchanged(sale)
      ensures salesHistory == if ok then old(salesHistory) + [sale] else old(salesHistory)
      ensures inventory.Stocks() == old(inventory.Stocks())
    {
      var total := sale.Total();
      if paymentAmount < total {
        return false;
      }
      sale.CompleteSale(paymentMethod, paymentAmount);
      salesHistory := salesHistory + [sale];
      return true;
    }

    /** Gives back the quantity of every item, in item order; the sale and the history are untouched. */
    method CancelSale(sale: Sale)
      requires Valid()
      modifies inventory.products.Values
      ensures Valid()
      ensures inventory.Stocks() == StockLedger.RestoreAll(old(inventory.Stocks()), sale.items)
    {
      ghost var before := inventory.Stocks();
      var items := sale.items;
      for i := 0 to |items|
        invariant inventory.Filed()
        invariant inventory.Stocks() == StockLedger.RestoreAll(before, items[..i])
      {
        var item := items[i];
        inventory.RestoreStock(item.product.productId, item.quantity);
        StockLedger.RestoreAllStep(before, items, i);
      }
      assert items[..|items|] == items;
    }

    /** The history as a sequence value: later completions do not change a returned history. */
    function GetSalesHistory(): (h: seq<Sale>)
      reads this
      ensures h == salesHistory
    {
      salesHistory
    }
  }
}
