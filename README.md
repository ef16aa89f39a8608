# POS consistency engine — a Dafny model

This project models the domain and service core of a small point-of-sale system.
A catalog of products has mutable stock counts. Sales draw stock item by item.
Returns put stock back. The sale and return services keep histories of the
transactions they completed.

The model follows the program's structure:

| file | module | models |
|---|---|---|
| `product.dfy` | `Products` | `domain/product.py`: a product whose stock is updated in place |
| `sale_item.dfy` | `SaleItems` | `domain/sale_item.py`: a (product, quantity) line and its subtotal |
| `transaction.dfy` | `Transactions` | `domain/transaction.py`: the common transaction base and the `id or generated` rule |
| `sale.dfy` | `Sales` | `domain/sale.py`: a sale, its total, payment and change |
| `return_transaction.dfy` | `Returns` | `domain/return_transaction.py`: a return and its refund |
| `inventory_service.dfy` | `InventoryServices` | `service/inventory_service.py`: the catalog |
| `sale_service.dfy` | `SaleServices` | `service/sale_service.py`: the sale lifecycle |
| `return_service.dfy` | `ReturnServices` | `service/return_service.py`: the return lifecycle |
| `stock_ledger.dfy` | `StockLedger` | the catalog's stock as a value, with the consistency lemmas |
| `scenarios.dfy` | `Scenarios` | the checks of `test_pos_system.py` written as verified client code, plus one added add-then-cancel client |

Objects keep their imperative form:

- Products, sales, returns, transactions and the services are classes.
- Methods change fields under `modifies` clauses.
- A product's stock is a mutable field. Many sale and return items point at the same product object.

The catalog is a `map<string, Product>` plus the list of ids in insertion
order. The order is the order in which a Python dictionary yields its values.

Every stock-changing operation is specified against `InventoryService.Stocks()`.
`Stocks()` maps each catalog id to the current stock of its product. The lemmas
in `StockLedger` then prove what the engine promises about stock:

- A run of draws removes exactly the quantities drawn.
- Cancelling restores exactly what was drawn.
- Restore order is irrelevant.
- Draws never drive stock negative.

Units and conventions:

- Money is integer cents: a price of 5.50 is `550`.
- `None` arguments are `Option` values.
- The clock that generates `SALE-…` and `RET-…` ids is a `clock: string` parameter. It stands for the formatted timestamp.

Three behaviours of the code that are easy to miss:

- **Empty sale.** `SaleService.complete_sale` has no empty-sale check (`service/sale_service.py:69-75`); only the front ends refuse to check out an empty sale (`ui/pos_ui.py:113`, `ui/pos_gui.py:260`). An empty sale therefore completes whenever the payment is at least 0. `SaleServices.SaleService.CompleteSale` states exactly that: `ok == (paymentAmount >= sale.Total())`, and the total of an empty sale is 0.
- **Negative stock.** Stock is non-negative only as long as every restored quantity is non-negative. Neither the service layer nor the domain layer rejects a negative return quantity (`service/return_service.py:52-58`); only the front ends refuse a non-positive quantity (`ui/pos_ui.py:198`, `ui/pos_gui.py:419`). `StockLedger.RestoreNegativeQuantity` exhibits a catalog that a single restore of -1 drives negative. `StockLedger.RestoreAllKeepsNonNegative` proves non-negativity under the condition that every quantity is non-negative.
- **Draws.** Draws through `reduce_stock` keep stock non-negative for any quantity (`StockLedger.DrawAllKeepsNonNegative`). A negative `update_stock` quantity counts as an increase (`StockLedger.UpdateKeepsNonNegative`).

## Model

| member | source | states |
|---|---|---|
| `Products.Product.constructor` | domain/product.py:9-22 | the four fields hold the given id, name, price and stock |
| `Products.Product.Unstocked` | domain/product.py:9 | the stock argument defaults to 0 |
| `Products.Product.ReduceStock` | domain/product.py:24-37 | succeeds exactly when the stock covers the quantity; it then subtracts the quantity and otherwise changes nothing; a non-negative stock stays non-negative |
| `Products.Product.IncreaseStock` | domain/product.py:39-46 | stock grows by the quantity, unconditionally |
| `SaleItems.SaleItem.Subtotal` | domain/sale_item.py:22-29 | the subtotal is non-negative for a non-negative price and quantity, and 0 for quantity 0 |
| `SaleItems.SumOfSubtotals` | domain/sale.py:36-43 | the sum of a list's subtotals is non-negative when every subtotal is |
| `SaleItems.SumOfSubtotalsAppend` | domain/sale.py:27-43 | appending an item adds exactly its subtotal to the total |
| `SaleItems.SumOfSubtotalsConcat` | domain/sale.py:36-43 | the total of two concatenated item lists is the sum of their totals |
| `Transactions.ResolveId` | domain/transaction.py:26 | a supplied non-empty id is kept; an absent or empty one is replaced by the generated id |
| `Transactions.Transaction.constructor` | domain/transaction.py:19-29 | the id follows the `or` rule; a new transaction is empty and not completed |
| `Transactions.Transaction.AddItem` | domain/transaction.py:42-49 | the item is appended; the count grows by one and the transaction is no longer empty |
| `Transactions.Transaction.ItemCount` | domain/transaction.py:74-81 | the count is the number of items |
| `Transactions.Transaction.IsEmpty` | domain/transaction.py:83-90 | empty exactly when the count is 0 |
| `Sales.Sale.constructor` | domain/sale.py:13-25 | the id follows the `or` rule with a `SALE-` clock id; no items, no payment method, amount 0, not completed |
| `Sales.Sale.AddItem` | domain/sale.py:27-34 | the item is appended and the total grows by its subtotal |
| `Sales.Sale.Total` | domain/sale.py:36-43 | the total is the sum of the item subtotals; 0 for no items |
| `Sales.Sale.CompleteSale` | domain/sale.py:45-55 | records the method and amount and marks the sale completed; the change is then amount minus total |
| `Sales.Sale.Change` | domain/sale.py:57-66 | 0 while open; amount minus total once completed |
| `Returns.ReturnTransaction.constructor` | domain/return_transaction.py:13-25 | the id follows the `or` rule with a `RET-` clock id; the sale id is kept unchecked; no items, not completed |
| `Returns.ReturnTransaction.AddItem` | domain/return_transaction.py:27-34 | the item is appended and the refund grows by its subtotal |
| `Returns.ReturnTransaction.TotalRefund` | domain/return_transaction.py:36-43 | the refund is the sum of the item subtotals; 0 for no items |
| `Returns.ReturnTransaction.CompleteReturn` | domain/return_transaction.py:45-47 | only the completion flag is set |
| `StockLedger.Draw` | domain/product.py:34-37 | fails exactly on an unknown id or insufficient stock; otherwise only that product's stock drops by the quantity, and non-negativity is kept |
| `StockLedger.Restore` | service/inventory_service.py:79-89 | a known product's stock grows by the quantity, others are untouched, an unknown id changes nothing |
| `StockLedger.Update` | service/inventory_service.py:59-77 | succeeds exactly for a known id whose quantity is non-positive or covered by stock; then stock becomes stock minus quantity, otherwise nothing changes |
| `StockLedger.UpdateKeepsNonNegative` | service/inventory_service.py:71-76 | no update, of either sign, makes a non-negative catalog negative |
| `StockLedger.UpdateUndo` | service/inventory_service.py:59-77 | a successful update followed by the update with the opposite quantity succeeds and gives back the original stock |
| `StockLedger.QuantityOfConcat` | service/sale_service.py:84-85 | the quantity of a product in two concatenated item lists is the sum of the two |
| `StockLedger.RestoreAll` | service/sale_service.py:84-85 | restoring every item keeps the catalog's ids |
| `StockLedger.RestoreAllStep` | service/return_service.py:74-75 | one more restore extends the restored prefix by one item |
| `StockLedger.RestoreAllAt` | service/sale_service.py:77-85 | after restoring a list, each product's stock has grown by its total quantity in the list |
| `StockLedger.RestoreAllOrderIrrelevant` | service/return_service.py:74-75 | restoring two item groups in either order gives the same stock |
| `StockLedger.RestoreAllKeepsNonNegative` | service/return_service.py:70-79 | restoring non-negative quantities keeps every stock non-negative |
| `StockLedger.RestoreNegativeQuantity` | service/return_service.py:52-58 | a single restore of -1 drives a stock of 0 to -1 |
| `StockLedger.DrawAll` | service/sale_service.py:46-55 | a run of successful draws keeps the catalog's ids |
| `StockLedger.DrawAllAt` | service/sale_service.py:46-55 | after a run of successful draws, each product's stock has dropped by its total quantity drawn |
| `StockLedger.DrawAllKeepsNonNegative` | service/sale_service.py:50-51 | successful draws keep every stock non-negative, whatever the quantities |
| `StockLedger.CancelUndoesDraws` | service/sale_service.py:77-85 | drawing a list of items and then restoring the same list gives back the original stock of every product |
| `InventoryServices.SampleIdsDistinct` | service/inventory_service.py:19-25 | the five sample ids are pairwise distinct |
| `InventoryServices.NewSampleProducts` | service/inventory_service.py:19-25 | five new products carrying the rows of the constant `SampleCatalog` (P001 Apple 5.50/100, P002 Banana 3.80/80, P003 Milk 12.00/50, P004 Bread 8.50/60, P005 Egg 15.00/40), in that order |
| `InventoryServices.NoDuplicatesAppend` | service/inventory_service.py:57 | adding an id not yet present keeps the id list free of duplicates |
| `InventoryServices.NoDuplicatesDistinct` | service/inventory_service.py:14 | in a duplicate-free id list, any two positions hold different ids |
| `InventoryServices.NoDuplicatesCardinality` | service/inventory_service.py:48 | a duplicate-free id list has as many ids as its set |
| `InventoryServices.InventoryService.Stocks` | service/inventory_service.py:14 | the stock view has exactly the catalog's ids |
| `InventoryServices.InventoryService.constructor` | service/inventory_service.py:12-15 | the catalog holds exactly the five sample products, in sample order, filed under their own ids |
| `InventoryServices.InventoryService.InitializeSampleProducts` | service/inventory_service.py:17-27 | the loop files each sample product under its id, in list order |
| `InventoryServices.InventoryService.GetProduct` | service/inventory_service.py:29-39 | found exactly when the id is in the catalog; the filed product, whose id is the key |
| `InventoryServices.InventoryService.GetAllProducts` | service/inventory_service.py:41-48 | every catalog product exactly once, in insertion order |
| `InventoryServices.InventoryService.ProductsAt` | service/inventory_service.py:48 | the products filed under a list of ids, position by position |
| `InventoryServices.InventoryService.AddProduct` | service/inventory_service.py:50-57 | the product is filed under its id, replacing any earlier one; a new id joins the end of the order, a replaced one keeps its place; the stock view changes only at that id |
| `InventoryServices.InventoryService.UpdateStock` | service/inventory_service.py:59-77 | the result and the new stock are those of the sign-dependent update |
| `InventoryServices.InventoryService.RestoreStock` | service/inventory_service.py:79-89 | the new stock is the restore of the old one |
| `SaleServices.SaleService.constructor` | service/sale_service.py:15-23 | bound to the given inventory, with an empty history |
| `SaleServices.SaleService.CreateSale` | service/sale_service.py:25-32 | a new open empty sale with a clock id and no payment |
| `SaleServices.SaleService.AddItemToSale` | service/sale_service.py:34-55 | succeeds exactly when the draw succeeds; then the stock is drawn and the item appended, otherwise neither |
| `SaleServices.SaleService.CompleteSale` | service/sale_service.py:57-75 | succeeds exactly when the payment covers the total; then the sale is completed with non-negative change and appended to the history; otherwise nothing changes; stock is never touched |
| `SaleServices.SaleService.CancelSale` | service/sale_service.py:77-85 | the new stock is every item restored, in item order |
| `SaleServices.SaleService.GetSalesHistory` | service/sale_service.py:87-94 | the history as a value |
| `ReturnServices.ReturnService.constructor` | service/return_service.py:15-25 | bound to the given services, with an empty history |
| `ReturnServices.ReturnService.CreateReturn` | service/return_service.py:27-37 | a new open empty return, with a clock id and the given sale id, not looked up |
| `ReturnServices.ReturnService.AddItemToReturn` | service/return_service.py:39-58 | succeeds exactly for a catalog id; then the item is appended with any quantity; stock is never touched |
| `ReturnServices.ReturnService.CompleteReturn` | service/return_service.py:60-79 | succeeds exactly for a non-empty return; then every item is restored, the return completed and appended to the history; otherwise nothing changes |
| `ReturnServices.ReturnService.RestoreItems` | service/return_service.py:74-75 | the new stock is every item restored, in item order |
| `ReturnServices.ReturnService.GetReturnHistory` | service/return_service.py:81-88 | the history as a value |
| `ReturnServices.ReturnService.FindSaleById` | service/return_service.py:90-103 | None exactly when no completed sale has the id; otherwise the earliest sale with that id |
| `Scenarios.ProductStockRoundTrip` | test_pos_system.py:15-32 | asserts a new product holds P001, "苹果", 5.50 and 100; reducing by 10 succeeds and leaves 90; increasing by 5 leaves 95 |
| `Scenarios.SaleTotalAndChange` | test_pos_system.py:35-53 | asserts one item of 5 at 5.50 totals 27.50, and completing with 30.00 marks the sale completed with change 2.50 |
| `Scenarios.InventoryDraw` | test_pos_system.py:56-71 | asserts the sample catalog has P001 with stock 100, and `update_stock("P001", 10)` succeeds and leaves 90 |
| `Scenarios.SaleServiceDraw` | test_pos_system.py:74-96 | asserts adding 5 of P001 succeeds with one item, completing with 30.00 succeeds and marks the sale completed, and P001's stock is 95 |
| `Scenarios.SellTenApples` | test_pos_system.py:99-111 | after selling ten of P001 from the sample catalog, its stock is 90 |
| `Scenarios.ReturnRestores` | test_pos_system.py:113-124 | asserts adding 3 of P001 to a return succeeds (refund 16.50), completing it succeeds, and P001's stock is then its stock before the return plus 3 |
| `Scenarios.CancelRestores` | service/sale_service.py:34-85 | added client, not in the test script: any run of adds to an empty sale, each of which may fail, followed by a cancellation leaves every stock as it was |

## Left out

- Timestamps: `transaction_time`, `sale_time` and `return_time` are not modelled. They are read from the clock, and only the GUI's history view displays them (`ui/pos_gui.py:612`, `ui/pos_gui.py:643`); no operation of the core reads them. The id clock is a parameter.
- Floating-point money: prices and payments are integer cents, so rounding of binary floats is not modelled.
- `__str__` and `__repr__` of every class: these only format text and decide nothing.
- The abstract methods `_generate_id`, `get_total_amount`, `complete` and `get_transaction_type` of `Transaction`. They have no body. `Sale` and `ReturnTransaction` do not inherit from `Transaction`, so no override exists to model.
- The command-line and GUI front ends (`main.py`, `main_gui.py`, `start.py`, `ui/`). They hold the only input checks: a quantity must be positive (`ui/pos_ui.py:96`, `ui/pos_ui.py:198`, `ui/pos_gui.py:192`, `ui/pos_gui.py:419`), and an empty sale or return cannot be checked out (`ui/pos_ui.py:113`, `ui/pos_ui.py:215`, `ui/pos_gui.py:260`, `ui/pos_gui.py:489`). See the empty-sale and negative-stock notes above.
- Product price and name are `const`: the source never assigns them after construction. Python would allow outside writes to these and to every public field; such writes are not modelled.
- `ReturnServices.ReturnService.RestoreItems`: the restore loop of `complete_return` is a method of its own, which `CompleteReturn` calls. The steps and their order are unchanged.
- The assertion at `test_pos_system.py:64` (product P001 is named "苹果") is not modelled. The sample catalog (`service/inventory_service.py:20`) names it "Apple", so that assertion does not hold of the code.
- `Scenarios.CancelRestores` takes any sale service and an empty sale instead of constructing the sample catalog, so that the proof stays small.
