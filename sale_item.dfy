// domain/sale_item.py: a line item is a product reference and a quantity.
module SaleItems {
  import opened Products

  datatype SaleItem = SaleItem(product: Product, quantity: int) {
    /** Unit price of the referenced product times the quantity, in cents. */
    function Subtotal(): (r: int)
      ensures product.price >= 0 && quantity >= 0 ==> r >= 0
      ensures quantity == 0 ==> r == 0
    {
      product.price * quantity
    }
  }

  /** Sum of the subtotals of a list of items (Python's `sum` over a generator). */
  function SumOfSubtotals(items: seq<SaleItem>): (t: int)
    ensures (forall i :: 0 <= i < |items| ==> items[i].Subtotal() >= 0) ==> t >= 0
  {
    if items == [] then 0
    else SumOfSubtotals(items[..|items| - 1]) + items[|items| - 1].Subtotal()
  }

  /** Appending one item adds exactly its subtotal. */
  lemma SumOfSubtotalsAppend(items: seq<SaleItem>, item: SaleItem)
    ensures SumOfSubtotals(items + [item]) == SumOfSubtotals(items) + item.Subtotal()
  {
    assert (items + [item])[..|items|] == items;
  }

  /** The total of a concatenation is the sum of the totals. */
  lemma {:induction false} SumOfSubtotalsConcat(a: seq<SaleItem>, b: seq<SaleItem>)
    ensures SumOfSubtotals(a + b) == SumOfSubtotals(a) + SumOfSubtotals(b)
    decreases |b|
  {
    if b == [] {
      assert a + b == a;
    } else {
      var b' := b[..|b| - 1];
      var last := b[|b| - 1];
      assert a + b == (a + b') + [last];
      assert b == b' + [last];
      SumOfSubtotalsAppend(a + b', last);
      SumOfSubtotalsAppend(b', last);
      SumOfSubtotalsConcat(a, b');
    }
  }
}
