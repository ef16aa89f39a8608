// domain/return_transaction.py: a return is an append-only item list, optionally tagged
// with the id of the sale it refers to.
module Returns {
  import opened Wrappers
  import opened SaleItems
  import opened Transactions

  class ReturnTransaction {
    const returnId: string
    /** Not checked against the sales history. */
    const originalSaleId: Option<string>
    var items: seq<SaleItem>
    var isCompleted: bool

    /** `clock` is the `%Y%m%d%H%M%S` reading used when no id is supplied. */
    constructor (returnId: Option<string>, originalSaleId: Option<string>, clock: string)
      ensures this.returnId == ResolveId(returnId, "RET-" + clock)
      ensures returnId.None? || returnId.value == "" ==> this.returnId[..4] == "RET-"
      ensures this.originalSaleId == originalSaleId
      ensures items == [] && !isCompleted
    {
      this.returnId := ResolveId(returnId, "RET-" + clock);
      this.originalSaleId := originalSaleId;
      items := [];
      isCompleted := false;
    }

    method AddItem(item: SaleItem)
      modifies this`items
      ensures items == old(items) + [item]
      ensures TotalRefund() == old(TotalRefund()) + item.Subtotal()
    {
      SumOfSubtotalsAppend(items, item);
      items := items + [item];
    }

    function TotalRefund(): (t: int)
      reads this
      ensures t == SumOfSubtotals(items)
      ensures items == [] ==> t == 0
    {
      SumOfSubtotals(items)
    }

    /** Only sets the flag, so calling it again changes nothing. */
    method CompleteReturn()
      modifies this`isCompleted
      ensures isCompleted
    {
      isCompleted := true;
    }
  }
}
