/** Where the Python matcher, the Python ledger and the Swift manager
    disagree, stated side by side. */
module Comparisons {
  import opened Common
  import PM = PickMatcher
  import OS = OrderStore
  import M = Models
  import S = Services

  /** Two lines with the same SKU: the Python matcher keeps the quantity of
      the last one, while the Python ledger reports the quantity of the
      first one and the Swift manager credits the first one. */
  lemma DuplicateSkuPolicies(sku: string, first: int, last: int, picked: int)
    requires picked < first
    ensures PM.Loaded([PM.LineItem(sku, first), PM.LineItem(sku, last)])[sku].quantityRequired == last
    ensures OS.RecordPick(OS.ActiveOrder("O", [OS.PayloadItem(sku, first), OS.PayloadItem(sku, last)], map[]), sku).Ok?
    ensures OS.RecordPick(OS.ActiveOrder("O", [OS.PayloadItem(sku, first), OS.PayloadItem(sku, last)], map[]), sku).value.1.required == first
    ensures
      var order := M.Order("O", "", "", [M.OrderItem(sku, "", first, picked), M.OrderItem(sku, "", last, 0)]);
      var after := S.ApplyScan(order, sku);
      after.Some? && after.value.items[0].quantityPicked == picked + 1 && after.value.items[1] == order.items[1]
  {
    var items := [PM.LineItem(sku, first), PM.LineItem(sku, last)];
    PM.LoadedKeepsLastOccurrence(items, 1);
  }

  /** A SKU whose line is already fully picked: the Python ledger still
      counts the scan, past the requirement, while the Swift manager
      refuses it and leaves the order as it was. */
  lemma LedgerCountsPastRequirementSwiftDoesNot(sku: string, quantity: int, picked: int)
    requires picked >= quantity
    ensures
      var r := OS.RecordPick(OS.ActiveOrder("O", [OS.PayloadItem(sku, quantity)], map[sku := picked]), sku);
      r.Ok? && r.value.1.picked == picked + 1 > quantity && r.value.1.complete
    ensures S.ApplyScan(M.Order("O", "", "", [M.OrderItem(sku, "", quantity, picked)]), sku).None?
  {
  }

  /** An order with no lines: the Python ledger refuses to load it, the
      Python matcher loaded with it refuses every scan (its map is empty),
      and to the Swift manager it is an order that is already complete. */
  lemma EmptyItemListPolicies(orderId: string)
    ensures OS.ValidateOrderData(OS.Payload(Some(orderId), Some([]))) == Some(OS.NoItems)
    ensures PM.Loaded([]) == map[]
    ensures M.Order(orderId, "", "", []).IsComplete()
  {
  }
}
