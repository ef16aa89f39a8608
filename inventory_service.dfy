// service/inventory_service.py: the catalog, product id -> product, seeded with five
// products. Stock is changed only through the products it holds.
module InventoryServices {
  import opened Wrappers
  import opened Products
  import StockLedger

  /** The fields of a product, as a value. */
  datatype ProductRecord = ProductRecord(id: string, name: string, price: int, stock: int)

  /** The seed catalog, in insertion order; prices in cents. */
  const SampleCatalog: seq<ProductRecord> := [
    ProductRecord("P001", "Apple", 550, 100),
    ProductRecord("P002", "Banana", 380, 80),
    ProductRecord("P003", "Milk", 1200, 50),
    ProductRecord("P004", "Bread", 850, 60),
    ProductRecord("P005", "Egg", 1500, 40)
  ]

  lemma SampleIdsDistinct()
    ensures forall i, j :: 0 <= i < j < |SampleCatalog| ==> SampleCatalog[i].id != SampleCatalog[j].id
  {
    forall i, j | 0 <= i < j < |SampleCatalog|
      ensures SampleCatalog[i].id != SampleCatalog[j].id
    {
      assert SampleCatalog[i].id[3] != SampleCatalog[j].id[3];
    }
  }

  /** The five seed products, freshly allocated. */
  method NewSampleProducts() returns (samples: seq<Product>)
    ensures |samples| == |SampleCatalog|
    ensures forall i :: 0 <= i < |samples| ==> fresh(samples[i]) && Describes(samples[i], SampleCatalog[i])
  {
    var apple := new Product("P001", "Apple", 550, 100);
    var banana := new Product("P002", "Banana", 380, 80);
    var milk := new Product("P003", "Milk", 1200, 50);
    var bread := new Product("P004", "Bread", 850, 60);
    var egg := new Product("P005", "Egg", 1500, 40);
    samples := [apple, banana, milk, bread, egg];
  }

  predicate Describes(p: Product, r: ProductRecord)
    reads p
  {
    p.productId == r.id && p.name == r.name && p.price == r.price && p.stock == r.stock
  }

  /** No id occurs twice (stated on the last element, the way insertion extends the list). */
  predicate NoDuplicates(ids: seq<string>)
  {
    ids == [] || (ids[|ids| - 1] !in ids[..|ids| - 1] && NoDuplicates(ids[..|ids| - 1]))
  }

  lemma NoDuplicatesAppend(ids: seq<string>, id: string)
    requires NoDuplicates(ids) && id !in ids
    ensures NoDuplicates(ids + [id])
  {
    assert (ids + [id])[..|ids|] == ids;
  }

  lemma {:induction false} NoDuplicatesDistinct(ids: seq<string>, i: nat, j: nat)
    requires NoDuplicates(ids) && i < j < |ids|
    ensures ids[i] != ids[j]
    decreases |ids|
  {
    var init := ids[..|ids| - 1];
    if j < |ids| - 1 {
      NoDuplicatesDistinct(init, i, j);
    } else {
      assert ids[i] == init[i];
    }
  }

  lemma {:induction false} NoDuplicatesCardinality(ids: seq<string>)
    requires NoDuplicates(ids)
    ensures |set id | id in ids| == |ids|
    decreases |ids|
  {
    if ids != [] {
      var init := ids[..|ids| - 1];
      var last := ids[|ids| - 1];
      NoDuplicatesCardinality(init);
      assert ids == init + [last];
      assert (set id | id in ids) == (set id | id in init) + {last};
    }
  }

  class InventoryService {
    var products: map<string, Product>
    /** Keys of `products` in insertion order (a Python dict's iteration order). */
    var order: seq<string>

    /** Every product is filed under its own id (all the stock operations rely on). */
    ghost predicate Filed()
      reads this
    {
      forall id :: id in products ==> products[id].productId == id
    }

    /** Filed, and `order` lists every key exactly once. */
    ghost predicate Valid()
      reads this
    {
      && Filed()
      && (forall id :: id in products <==> id in order)
      && NoDuplicates(order)
    }

    /** The stock of every catalog product. */
    function Stocks(): (s: StockLedger.StockMap)
      reads this, products.Values
      ensures s.Keys == products.Keys
    {
      map id | id in products :: products[id].stock
    }

    constructor ()
      ensures Valid() && fresh(products.Values)
      ensures |order| == |SampleCatalog|
      ensures forall i :: 0 <= i < |SampleCatalog| ==> order[i] == SampleCatalog[i].id
      ensures forall i :: 0 <= i < |SampleCatalog| ==> Describes(products[order[i]], SampleCatalog[i])
    {
      products := map[];
      order := [];
      new;
      InitializeSampleProducts();
    }

    /** Files the five seed products, in catalog order, into an empty catalog. */
    method InitializeSampleProducts()
      requires products == map[] && order == []
      modifies this
      ensures Valid() && fresh(products.Values)
      ensures |order| == |SampleCatalog|
      ensures forall i :: 0 <= i < |SampleCatalog| ==> order[i] == SampleCatalog[i].id
      ensures forall i :: 0 <= i < |SampleCatalog| ==> Describes(products[order[i]], SampleCatalog[i])
    {
      var samples := NewSampleProducts();
      SampleIdsDistinct();
      for i := 0 to |samples|
        invariant Valid()
        invariant |order| == i && forall j :: 0 <= j < i ==> order[j] == SampleCatalog[j].id
        invariant forall j :: 0 <= j < i ==> products[order[j]] == samples[j]
        invariant forall id :: id in products ==> fresh(products[id])
        invariant forall j :: 0 <= j < |samples| ==> Describes(samples[j], SampleCatalog[j])
      {
        var product := samples[i];
        assert product.productId !in order;
        if product.productId !in products {
          NoDuplicatesAppend(order, product.productId);
          order := order + [product.productId];
        }
        products := products[product.productId := product];
        assert forall k :: k in products <==> k in order;
      }
    }

    /** Lookup that never fails: None for an unknown id. */
    function GetProduct(id: string): (r: Option<Product>)
      reads this
      ensures r.Some? <==> id in products
      ensures r.Some? ==> r.value == products[id]
      ensures Filed() && r.Some? ==> r.value.productId == id
    {
      if id in products then Some(products[id]) else None
    }

    /** Every catalog product once, in insertion order. */
    function GetAllProducts(): (r: seq<Product>)
      requires Valid()
      reads this
      ensures |r| == |order| == |products|
      ensures forall i :: 0 <= i < |r| ==> r[i] == products[order[i]]
      ensures forall id :: id in products ==> products[id] in r
      ensures forall i, j :: 0 <= i < j < |r| ==> r[i] != r[j]
    {
      NoDuplicatesCardinality(order);
      assert (set id | id in order) == products.Keys;
      var r := ProductsAt(order);
      assert forall id :: id in products ==> products[id] in r by {
        forall id | id in products ensures products[id] in r {
          var i :| 0 <= i < |order| && order[i] == id;
          assert r[i] == products[id];
        }
      }
      assert forall i, j :: 0 <= i < j < |r| ==> r[i] != r[j] by {
        forall i, j | 0 <= i < j < |r| ensures r[i] != r[j] {
          NoDuplicatesDistinct(order, i, j);
        }
      }
      r
    }

    function ProductsAt(ids: seq<string>): (r: seq<Product>)
      requires forall id :: id in ids ==> id in products
      reads this
      ensures |r| == |ids| && forall i :: 0 <= i < |ids| ==> r[i] == products[ids[i]]
    {
      if ids == [] then [] else [products[ids[0]]] + ProductsAt(ids[1..])
    }

    /** Inserts or replaces the entry under the product's id; a replaced key keeps its position. */
    method AddProduct(product: Product)
      requires Valid()
      modifies this
      ensures Valid()
      ensures products == old(products)[product.productId := product]
      ensures order == if product.productId in old(products) then old(order) else old(order) + [product.productId]
      ensures Stocks() == old(Stocks())[product.productId := product.stock]
    {
      var id := product.productId;
      if id !in products {
        NoDuplicatesAppend(order, id);
        order := order + [id];
      }
      products := products[id := product];
      assert forall k :: k in products <==> k in order;
    }

    /** Positive quantity: capacity-checked decrease. Zero or negative: increase by its magnitude. */
    method UpdateStock(productId: string, quantity: int) returns (ok: bool)
      requires Filed()
      modifies products.Values
      ensures (ok, Stocks()) == StockLedger.Update(old(Stocks()), productId, quantity)
    {
      var product := GetProduct(productId);
      if product.Some? {
        // Distinct keys hold distinct products, so only the stock under `productId` moves.
        assert forall k :: k in products && k != productId ==> products[k] != product.value;
        if quantity > 0 {
          ok := product.value.ReduceStock(quantity);
          assert Stocks() == old(Stocks())[productId := product.value.stock];
          assert !ok ==> old(Stocks())[productId := product.value.stock] == old(Stocks());
        } else {
          product.value.IncreaseStock(-quantity);
          assert Stocks() == old(Stocks())[productId := product.value.stock];
          ok := true;
        }
      } else {
        ok := false;
      }
    }

    /** Unconditional increase; an unknown id is a no-op. */
    method RestoreStock(productId: string, quantity: int)
      requires Filed()
      modifies products.Values
      ensures Stocks() == StockLedger.Restore(old(Stocks()), productId, quantity)
    {
      var product := GetProduct(productId);
      if product.Some? {
        assert forall k :: k in products && k != productId ==> products[k] != product.value;
        product.value.IncreaseStock(quantity);
        assert Stocks() == old(Stocks())[productId := product.value.stock];
      }
    }
  }
}
