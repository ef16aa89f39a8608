// domain/sale.py: a sale is an append-only item list with payment details.
module Sales {
  import opened Wrappers
  import opened SaleItems
  import opened Transactions

  class Sale {
    const saleId: string
    var items: seq<SaleItem>
    var paymentMethod: Option<string>
    /** Amount paid, in cents. */
    var paymentAmount: int
    var isCompleted: bool

    /** `clock` is the `%Y%m%d%H%M%S` reading used when no id is supplied. */
    constructor (saleId: Option<string>, clock: string)
      ensures this.saleId == ResolveId(saleId, "SALE-" + clock)
      ensures saleId.None? || saleId.value == "" ==> this.saleId[..5] == "SALE-"
      ensures items == [] && paymentMethod == None && paymentAmount == 0 && !isCompleted
    {
      this.saleId := ResolveId(saleId, "SALE-" + clock);
      items := [];
      paymentMethod := None;
      paymentAmount := 0;
      isCompleted := false;
    }

    method AddItem(item: SaleItem)
      modifies this`items
      ensures items == old(items) + [item]
      ensures Total() == old(Total()) + item.Subtotal()
    {
      SumOfSubtotalsAppend(items, item);
      items := items + [item];
    }

    /** The total is recomputed from the live item list on every call. */
    function Total(): (t: int)
      reads this
      ensures t == SumOfSubtotals(items)
      ensures items == [] ==> t == 0
    {
      SumOfSubtotals(items)
    }

    /** Records the payment; it does not compare the amount with the total. */
    method CompleteSale(paymentMethod: string, paymentAmount: int)
      modifies this`paymentMethod, this`paymentAmount, this`isCompleted
      ensures this.paymentMethod == Some(paymentMethod) && this.paymentAmount == paymentAmount
      ensures isCompleted
      ensures Change() == paymentAmount - Total()
    {
      this.paymentMethod := Some(paymentMethod);
      this.paymentAmount := paymentAmount;
      isCompleted := true;
    }

    function Change(): (c: int)
      reads this
      ensures !isCompleted ==> c == 0
      ensures isCompleted ==> c == paymentAmount - Total()
    {
      if isCompleted then paymentAmount - Total() else 0
    }
  }
}
