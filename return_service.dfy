// service/return_service.py: the return lifecycle. Items are accepted without a stock
// check, and completing a non-empty return puts their quantities back into stock.
module ReturnServices {
  import opened Wrappers
  import opened SaleItems
  import opened Sales
  import opened Returns
  import opened InventoryServices
  import opened SaleServices
  import StockLedger

  class ReturnService {
    const inventory: InventoryService
    const saleService: SaleService
    /** Completed returns, oldest first; only ever extended at the end. */
    var returnHistory: seq<ReturnTransaction>

    ghost predicate Valid()
      reads this, inventory
    {
      inventory.Filed()
    }

    constructor (inventory: InventoryService, saleService: SaleService)
      requires inventory.Filed()
      ensures Valid() && this.inventory == inventory && this.saleService == saleService
      ensures returnHistory == []
    {
      this.inventory := inventory;
      this.saleService := saleService;
      returnHistory := [];
    }

    /** A fresh open return tagged with the given sale id, which is not looked up. */
    method CreateReturn(originalSaleId: Option<string>, clock: string) returns (ret: ReturnTransaction)
      ensures fresh(ret) && ret.returnId == "RET-" + clock
      ensures ret.originalSaleId == originalSaleId
      ensures ret.items == [] && !ret.isCompleted
    {
      ret := new ReturnTransaction(None, originalSaleId, clock);
    }

    /** Fails only on an unknown product; any quantity is accepted and stock is not touched. */
    method AddItemToReturn(ret: ReturnTransaction, productId: string, quantity: int) returns (ok: bool)
      requires Valid()
      modifies ret`items
      ensures Valid()
      ensures ok == (productId in inventory.products)
      ensures ret.items ==
        if ok then old(ret.items) + [SaleItem(inventory.products[productId], quantity)]
        else old(ret.items)
      ensures inventory.Stocks() == old(inventory.Stocks())
    {
      var product := inventory.GetProduct(productId);
      if product.None? {
        return false;
      }
      ret.AddItem(SaleItem(product.value, quantity));
      return true;
    }

    /**
     * Fails, changing nothing, on an empty return. Otherwise restores the quantity
     * of every item, in item order, marks the return completed and appends it to
     * the history.
     */
    method CompleteReturn(ret: ReturnTransaction) returns (ok: bool)
      requires Valid()
      modifies this, ret`isCompleted, inventory.products.Values
      ensures Valid()
      ensures ok == (ret.items != [])
      ensures ok ==> inventory.Stocks() == StockLedger.RestoreAll(old(inventory.Stocks()), ret.items)
      ensures ok ==> ret.isCompleted && returnHistory == old(returnHistory) + [ret]
      ensures !ok ==> inventory.Stocks() == old(inventory.Stocks())
      ensures !ok ==> unchanged(ret) && returnHistory == old(returnHistory)
    {
      if ret.items == [] {
        return false;
      }
      RestoreItems(ret.items);
      ghost var restored := inventory.Stocks();
      ret.CompleteReturn();
      returnHistory := returnHistory + [ret];
      assert inventory.Stocks() == restored;
      return true;
    }

    /** The restore loop of a return's completion: one unconditional restore per item, in item order. */
    method RestoreItems(items: seq<SaleItem>)
      requires Valid()
      modifies inventory.products.Values
      ensures Valid()
      ensures inventory.Stocks() == StockLedger.RestoreAll(old(inventory.Stocks()), items)
    {
      ghost var before := inventory.Stocks();
      for i := 0 to |items|
        invariant inventory.Filed()
        invariant inventory.Stocks() == StockLedger.RestoreAll(before, items[..i])
      {
        var item := items[i];
        inventory.RestoreStock(item.product.productId, item.quantity);
        StockLedger.RestoreAllStep(before, items, i);
      }
      assert items[..|items|] == items;
    }

    /** The history as a sequence value: later completions do not change a returned history. */
    function GetReturnHistory(): (h: seq<ReturnTransaction>)
      reads this
      ensures h == returnHistory
    {
      returnHistory
    }

    /** Linear scan of the sales history: the earliest sale with the id, or None. */
    method FindSaleById(saleId: string) returns (r: Option<Sale>)
      ensures r.None? <==> forall i :: 0 <= i < |saleService.salesHistory| ==> saleService.salesHistory[i].saleId != saleId
      ensures r.Some? ==> r.value.saleId == saleId
      ensures r.Some? ==> exists i :: (0 <= i < |saleService.salesHistory| && saleService.salesHistory[i] == r.value
        && forall j :: 0 <= j < i ==> saleService.salesHistory[j].saleId != saleId)
    {
      var history := saleService.GetSalesHistory();
      for i := 0 to |history|
        invariant forall j :: 0 <= j < i ==> history[j].saleId != saleId
      {
        if history[i].saleId == saleId {
          return Some(history[i]);
        }
      }
      return None;
    }
  }
}
