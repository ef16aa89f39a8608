// domain/transaction.py: the abstract transaction base with its shared item-list helpers.
// Neither Sale nor ReturnTransaction derives from it; its abstract members have no bodies
// and are not modelled, so the generated id is passed in.
module Transactions {
  import opened Wrappers
  import opened SaleItems

  /** Python's `supplied or generated`: an absent or empty supplied id falls back to the generated one. */
  function ResolveId(supplied: Option<string>, generated: string): (id: string)
    ensures supplied.Some? && supplied.value != "" ==> id == supplied.value
    ensures supplied.None? || supplied.value == "" ==> id == generated
  {
    if supplied.Some? && supplied.value != "" then supplied.value else generated
  }

  class Transaction {
    const transactionId: string
    var items: seq<SaleItem>
    var isCompleted: bool

    constructor (transactionId: Option<string>, generatedId: string)
      ensures this.transactionId == ResolveId(transactionId, generatedId)
      ensures items == [] && !isCompleted
      ensures IsEmpty()
    {
      this.transactionId := ResolveId(transactionId, generatedId);
      items := [];
      isCompleted := false;
    }

    method AddItem(item: SaleItem)
      modifies this`items
      ensures items == old(items) + [item]
      ensures ItemCount() == old(ItemCount()) + 1 && !IsEmpty()
    {
      items := items + [item];
    }

    function ItemCount(): (n: nat)
      reads this
      ensures n == |items|
    {
      |items|
    }

    function IsEmpty(): (b: bool)
      reads this
      ensures b <==> ItemCount() == 0
    {
      |items| == 0
    }
  }
}
