// The catalog's stock seen as a value: product id -> stock count. The inventory,
// sale and return services are specified in terms of these functions, and the
// consistency properties of the engine are proved about them.
module StockLedger {
  import opened Wrappers
  import opened SaleItems

  type StockMap = map<string, int>

  predicate NonNegative(s: StockMap)
  {
    forall id :: id in s ==> s[id] >= 0
  }

  /** Capacity-checked draw on a catalog product: fails on an unknown id or insufficient stock. */
  function Draw(s: StockMap, id: string, quantity: int): (r: Option<StockMap>)
    ensures r.Some? <==> id in s && s[id] >= quantity
    ensures r.Some? ==> r.value.Keys == s.Keys && r.value[id] == s[id] - quantity
    ensures r.Some? ==> forall k :: k in s && k != id ==> r.value[k] == s[k]
    ensures r.Some? && NonNegative(s) ==> NonNegative(r.value)
  {
    if id in s && s[id] >= quantity then Some(s[id := s[id] - quantity]) else None
  }

  /** Unconditional increase of a known product's stock; an unknown id changes nothing. */
  function Restore(s: StockMap, id: string, quantity: int): (r: StockMap)
    ensures r.Keys == s.Keys
    ensures id in s ==> r[id] == s[id] + quantity
    ensures forall k :: k in s && k != id ==> r[k] == s[k]
    ensures NonNegative(s) && quantity >= 0 ==> NonNegative(r)
  {
    if id in s then s[id := s[id] + quantity] else s
  }

  /**
   * The sign-dependent stock update: a positive quantity is a capacity-checked
   * draw, a zero or negative one adds its magnitude and always succeeds.
   */
  function Update(s: StockMap, id: string, quantity: int): (r: (bool, StockMap))
    ensures r.0 <==> id in s && (quantity <= 0 || s[id] >= quantity)
    ensures r.1 == if r.0 then s[id := s[id] - quantity] else s
  {
    if id !in s then (false, s)
    else if quantity > 0 then
      match Draw(s, id, quantity)
      case Some(t) => (true, t)
      case None => (false, s)
    else (true, Restore(s, id, -quantity))
  }

  /** Whatever the quantity, an update never makes a non-negative stock negative. */
  lemma UpdateKeepsNonNegative(s: StockMap, id: string, quantity: int)
    requires NonNegative(s)
    ensures NonNegative(Update(s, id, quantity).1)
  {
    var r := Update(s, id, quantity);
    if r.0 {
      forall k | k in r.1 ensures r.1[k] >= 0 {
        if k == id {
          assert s[id] - quantity >= 0;
        }
      }
    }
  }

  /**
   * On a non-negative catalog a successful update is undone by the update with
   * the opposite sign (a negative stock could not cover the reverse draw).
   */
  lemma UpdateUndo(s: StockMap, id: string, quantity: int)
    requires NonNegative(s) && Update(s, id, quantity).0
    ensures Update(Update(s, id, quantity).1, id, -quantity) == (true, s)
  {
    var t := Update(s, id, quantity).1;
    assert t[id := t[id] + quantity] == s;
  }

  /** Sum of the quantities of the items whose product has the given id. */
  function QuantityOf(items: seq<SaleItem>, id: string): int
  {
    if items == [] then 0
    else
      var last := items[|items| - 1];
      QuantityOf(items[..|items| - 1], id) + (if last.product.productId == id then last.quantity else 0)
  }

  lemma {:induction false} QuantityOfConcat(a: seq<SaleItem>, b: seq<SaleItem>, id: string)
    ensures QuantityOf(a + b, id) == QuantityOf(a, id) + QuantityOf(b, id)
    decreases |b|
  {
    if b == [] {
      assert a + b == a;
    } else {
      var b' := b[..|b| - 1];
      assert (a + b)[..|a + b| - 1] == a + b';
      assert (a + b)[|a + b| - 1] == b[|b| - 1];
      QuantityOfConcat(a, b', id);
    }
  }

  /** Restoring every item in list order, as the cancel and return loops do. */
  function RestoreAll(s: StockMap, items: seq<SaleItem>): (r: StockMap)
    ensures r.Keys == s.Keys
  {
    if items == [] then s
    else
      var last := items[|items| - 1];
      Restore(RestoreAll(s, items[..|items| - 1]), last.product.productId, last.quantity)
  }

  /** One more step of the restore loop. */
  lemma RestoreAllStep(s: StockMap, items: seq<SaleItem>, i: nat)
    requires i < |items|
    ensures RestoreAll(s, items[..i + 1])
      == Restore(RestoreAll(s, items[..i]), items[i].product.productId, items[i].quantity)
  {
    assert items[..i + 1][..i] == items[..i];
  }

  /** Restoring a list adds, to each known product, the total quantity the list holds of it. */
  lemma {:induction false} RestoreAllAt(s: StockMap, items: seq<SaleItem>, id: string)
    requires id in s
    ensures RestoreAll(s, items)[id] == s[id] + QuantityOf(items, id)
    decreases |items|
  {
    if items != [] {
      RestoreAllAt(s, items[..|items| - 1], id);
    }
  }

  /** So the order of restoring does not matter. */
  lemma RestoreAllOrderIrrelevant(s: StockMap, a: seq<SaleItem>, b: seq<SaleItem>)
    ensures RestoreAll(s, a + b) == RestoreAll(s, b + a)
  {
    forall id | id in s ensures RestoreAll(s, a + b)[id] == RestoreAll(s, b + a)[id] {
      RestoreAllAt(s, a + b, id);
      RestoreAllAt(s, b + a, id);
      QuantityOfConcat(a, b, id);
      QuantityOfConcat(b, a, id);
    }
  }

  /** Restoring non-negative quantities keeps every stock non-negative. */
  lemma {:induction false} RestoreAllKeepsNonNegative(s: StockMap, items: seq<SaleItem>)
    requires NonNegative(s)
    requires forall i :: 0 <= i < |items| ==> items[i].quantity >= 0
    ensures NonNegative(RestoreAll(s, items))
    decreases |items|
  {
    if items != [] {
      RestoreAllKeepsNonNegative(s, items[..|items| - 1]);
    }
  }

  /** One restore of a negative quantity can drive a stock below zero. */
  lemma RestoreNegativeQuantity()
    ensures NonNegative(map["P001" := 0])
    ensures !NonNegative(Restore(map["P001" := 0], "P001", -1))
  {
    assert Restore(map["P001" := 0], "P001", -1)["P001"] == -1;
  }

  /** Drawing every item in list order, as a run of successful sale adds does; None once one fails. */
  function DrawAll(s: StockMap, items: seq<SaleItem>): (r: Option<StockMap>)
    ensures r.Some? ==> r.value.Keys == s.Keys
  {
    if items == [] then Some(s)
    else
      var last := items[|items| - 1];
      match DrawAll(s, items[..|items| - 1])
      case None => None
      case Some(t) => Draw(t, last.product.productId, last.quantity)
  }

  /** A run of successful draws removes, from each product, the total quantity drawn of it. */
  lemma {:induction false} DrawAllAt(s: StockMap, items: seq<SaleItem>, id: string)
    requires DrawAll(s, items).Some? && id in s
    ensures DrawAll(s, items).value[id] == s[id] - QuantityOf(items, id)
    decreases |items|
  {
    if items != [] {
      DrawAllAt(s, items[..|items| - 1], id);
    }
  }

  /** Successful draws keep every stock non-negative, whatever the quantities. */
  lemma {:induction false} DrawAllKeepsNonNegative(s: StockMap, items: seq<SaleItem>)
    requires NonNegative(s) && DrawAll(s, items).Some?
    ensures NonNegative(DrawAll(s, items).value)
    decreases |items|
  {
    if items != [] {
      DrawAllKeepsNonNegative(s, items[..|items| - 1]);
    }
  }

  /** Adding items to a sale and then cancelling it gives back the original stock of every product. */
  lemma CancelUndoesDraws(s: StockMap, items: seq<SaleItem>)
    requires DrawAll(s, items).Some?
    ensures RestoreAll(DrawAll(s, items).value, items) == s
  {
    var t := DrawAll(s, items).value;
    forall id | id in s ensures RestoreAll(t, items)[id] == s[id] {
      DrawAllAt(s, items, id);
      RestoreAllAt(t, items, id);
    }
  }
}
