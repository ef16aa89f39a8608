// domain/product.py: a catalog product whose stock count is updated in place.
module Products {

  class Product {
    const productId: string
    const name: string
    /** Unit price in cents. */
    const price: int
    var stock: int

    constructor (productId: string, name: string, price: int, stock: int)
      ensures this.productId == productId && this.name == name
      ensures this.price == price && this.stock == stock
    {
      this.productId := productId;
      this.name := name;
      this.price := price;
      this.stock := stock;
    }

    /** The constructor called without a stock argument: stock defaults to 0. */
    constructor Unstocked(productId: string, name: string, price: int)
      ensures this.productId == productId && this.name == name
      ensures this.price == price && this.stock == 0
    {
      this.productId := productId;
      this.name := name;
      this.price := price;
      this.stock := 0;
    }

    /** Capacity-checked draw: succeeds exactly when the stock covers the quantity. */
    method ReduceStock(quantity: int) returns (ok: bool)
      modifies this
      ensures ok <==> old(stock) >= quantity
      ensures stock == if ok then old(stock) - quantity else old(stock)
      ensures old(stock) >= 0 ==> stock >= 0
    {
      if stock >= quantity {
        stock := stock - quantity;
        return true;
      }
      return false;
    }

    /** Unconditional increase; no bound is checked. */
    method IncreaseStock(quantity: int)
      modifies this
      ensures stock == old(stock) + quantity
    {
      stock := stock + quantity;
    }
  }
}
