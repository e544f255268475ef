/** The Swift order manager (Services/OrderManager.swift): one optional
    current order whose lines carry their own picked counts. A scan credits
    the first line with that SKU, and only while that line is short, so
    this manager is ledger and ceiling in one. */
module Services {
  import opened Common
  import opened Models

  /** What `loadOrder(from:)` makes of a barcode, decoding abstracted away:
      the order decoded from the barcode text itself, and the order decoded
      from the file named after it; `None` where that step failed (text not
      an order, file missing or undecodable). */
  datatype BarcodeReading = BarcodeReading(inlineOrder: Option<Order>, fileOrder: Option<Order>)

  /** The value `completeOrder` encodes and writes. */
  datatype OrderCompletion = OrderCompletion(order: Order, completedAt: string)

  /** The digit character for `d`. */
  function DigitChar(d: nat): (c: char)
    requires d < 10
    ensures '0' <= c <= '9'
  {
    ('0' as int + d) as char
  }

  /** The decimal rendering of a non-negative number, without leading zeros. */
  function NatToDecimal(n: nat): (s: string)
    ensures |s| >= 1 && (n >= 10 <==> |s| >= 2)
    ensures forall i :: 0 <= i < |s| ==> '0' <= s[i] <= '9'
  {
    if n < 10 then [DigitChar(n)] else NatToDecimal(n / 10) + [DigitChar(n % 10)]
  }

  /** How string interpolation renders an `Int`: a minus sign for a negative
      number, then its magnitude in decimal. The rendering has no '_'. */
  function IntToDecimal(n: int): (s: string)
    ensures '_' !in s
    ensures |s| >= 1 && (n < 0 <==> s[0] == '-')
  {
    if n < 0 then "-" + NatToDecimal(-n) else NatToDecimal(n)
  }

  /** Different numbers render differently. */
  lemma {:induction false} NatToDecimalInjective(a: nat, b: nat)
    requires NatToDecimal(a) == NatToDecimal(b)
    ensures a == b
  {
    var s := NatToDecimal(a);
    if a >= 10 {
      assert b >= 10;
      assert s[|s| - 1] == DigitChar(a % 10) == DigitChar(b % 10);
      assert s[..|s| - 1] == NatToDecimal(a / 10) == NatToDecimal(b / 10);
      NatToDecimalInjective(a / 10, b / 10);
    } else {
      assert DigitChar(a) == s[0] == DigitChar(b);
    }
  }

  lemma IntToDecimalInjective(a: int, b: int)
    requires IntToDecimal(a) == IntToDecimal(b)
    ensures a == b
  {
    if a < 0 {
      assert IntToDecimal(a)[1..] == NatToDecimal(-a);
      assert IntToDecimal(b)[1..] == NatToDecimal(-b);
      NatToDecimalInjective(-a, -b);
    } else {
      NatToDecimalInjective(a, b);
    }
  }

  /** The file name `completeOrder` writes to: "completed_", the order
      identifier, "_", the whole seconds since 1970, ".json". */
  function SwiftCompletionFileName(orderId: string, seconds: int): (name: string)
    ensures "completed_" <= name && EndsWith(name, ".json")
  {
    CompletionFileName(orderId, IntToDecimal(seconds))
  }

  /** Two completions share a file name only if they have the same
      identifier and happen in the same second. */
  lemma SwiftCompletionFileNameInjective(id1: string, seconds1: int, id2: string, seconds2: int)
    requires SwiftCompletionFileName(id1, seconds1) == SwiftCompletionFileName(id2, seconds2)
    ensures id1 == id2 && seconds1 == seconds2
  {
    CompletionFileNameInjective(id1, IntToDecimal(seconds1), id2, IntToDecimal(seconds2));
    IntToDecimalInjective(seconds1, seconds2);
  }

  /** `items.firstIndex(where: { $0.sku == sku })`. */
  function FirstIndexOfSku(items: seq<OrderItem>, sku: string): (r: Option<nat>)
    ensures r.None? <==> forall i :: 0 <= i < |items| ==> items[i].sku != sku
    ensures r.Some? ==> r.value < |items| && items[r.value].sku == sku
    ensures r.Some? ==> forall j :: 0 <= j < r.value ==> items[j].sku != sku
  {
    if items == [] then None
    else if items[0].sku == sku then Some(0)
    else match FirstIndexOfSku(items[1..], sku)
      case None => None
      case Some(i) => Some(i + 1)
  }

  /** The order after a scan of `sku`, or `None` when `updateItem` answers
      false. The scan is taken exactly when some line has the SKU and the
      first such line is still short; it then adds one to that line's
      picked count and changes nothing else. */
  function ApplyScan(order: Order, sku: string): (r: Option<Order>)
    ensures r.Some? <==> (FirstIndexOfSku(order.items, sku).Some? &&
                          !order.items[FirstIndexOfSku(order.items, sku).value].IsComplete())
    ensures r.Some? ==>
      var i := FirstIndexOfSku(order.items, sku).value;
      var after := r.value;
      && after.orderId == order.orderId && after.customer == order.customer && after.date == order.date
      && |after.items| == |order.items|
      && (forall j :: 0 <= j < |order.items| && j != i ==> after.items[j] == order.items[j])
      && after.items[i].sku == sku
      && after.items[i].name == order.items[i].name
      && after.items[i].quantity == order.items[i].quantity
      && after.items[i].quantityPicked == order.items[i].quantityPicked + 1
  {
    match FirstIndexOfSku(order.items, sku)
    case None => None
    case Some(i) =>
      var item := order.items[i];
      if item.IsComplete() then None
      else Some(order.(items := order.items[i := item.(quantityPicked := item.quantityPicked + 1)]))
  }

  /** No line has been picked past its quantity. */
  predicate NeverOverPicked(order: Order) {
    forall i :: 0 <= i < |order.items| ==> order.items[i].quantityPicked <= order.items[i].quantity
  }

  /** Every count of the order fits a Swift `Int`. */
  predicate FitsInt(order: Order) {
    forall i :: 0 <= i < |order.items| ==> IsInt(order.items[i].quantity) && IsInt(order.items[i].quantityPicked)
  }

  /** A scan keeps every line within its quantity, and the `+= 1` it does
      can never overflow an `Int`: it only runs while the count is below a
      quantity that itself fits. */
  lemma ScanKeepsCeiling(order: Order, sku: string)
    ensures ApplyScan(order, sku).Some? && NeverOverPicked(order) ==> NeverOverPicked(ApplyScan(order, sku).value)
    ensures ApplyScan(order, sku).Some? && FitsInt(order) ==> FitsInt(ApplyScan(order, sku).value)
  {
  }

  /** The order after `n` scans of `sku`, or `None` once one is refused. */
  ghost function ScanRepeatedly(order: Order, sku: string, n: nat): Option<Order>
  {
    if n == 0 then Some(order)
    else
      match ScanRepeatedly(order, sku, n - 1)
      case None => None
      case Some(before) => ApplyScan(before, sku)
  }

  /** A scan only changes picked counts, so the line a SKU resolves to does
      not move. */
  lemma ScanKeepsFirstIndex(order: Order, sku: string)
    requires ApplyScan(order, sku).Some?
    ensures FirstIndexOfSku(ApplyScan(order, sku).value.items, sku) == FirstIndexOfSku(order.items, sku)
  {
    var i := FirstIndexOfSku(order.items, sku).value;
    var after := ApplyScan(order, sku).value.items;
    assert forall j :: 0 <= j < |after| ==> after[j].sku == order.items[j].sku;
    assert after[i].sku == sku;
  }

  /** The line the SKU first names, holding `picked` of `quantity` with
      picked <= quantity, takes exactly quantity - picked scans to
      complete: each of them is accepted, the line is complete after the
      last one and not before, and the next scan is refused. */
  lemma {:induction false} ScansUntilLineComplete(order: Order, sku: string, n: nat)
    requires FirstIndexOfSku(order.items, sku).Some?
    requires n <= order.items[FirstIndexOfSku(order.items, sku).value].quantity
                  - order.items[FirstIndexOfSku(order.items, sku).value].quantityPicked
    ensures ScanRepeatedly(order, sku, n).Some?
    ensures
      var i := FirstIndexOfSku(order.items, sku).value;
      var line := order.items[i];
      var after := ScanRepeatedly(order, sku, n).value;
      && FirstIndexOfSku(after.items, sku) == Some(i)
      && after.items[i].quantity == line.quantity
      && after.items[i].quantityPicked == line.quantityPicked + n
      && (after.items[i].IsComplete() <==> n == line.quantity - line.quantityPicked)
    ensures
      var line := order.items[FirstIndexOfSku(order.items, sku).value];
      n == line.quantity - line.quantityPicked ==> ScanRepeatedly(order, sku, n + 1).None?
  {
    var i := FirstIndexOfSku(order.items, sku).value;
    if n > 0 {
      ScansUntilLineComplete(order, sku, n - 1);
      var before := ScanRepeatedly(order, sku, n - 1).value;
      ScanKeepsFirstIndex(before, sku);
    }
  }

  class OrderManager {
    /** `currentOrder`: absent, or the order being picked. */
    var currentOrder: Option<Order>

    constructor ()
      ensures currentOrder == None
    {
      currentOrder := None;
    }

    /** Takes the order decoded from the barcode text if there is one, else
        the one decoded from the file named after it; when both fail the
        current order is left as it was. The item list is not checked, so
        an order with no lines is accepted. */
    method LoadOrder(barcode: BarcodeReading)
      modifies this
      ensures barcode.inlineOrder.Some? ==> currentOrder == barcode.inlineOrder
      ensures barcode.inlineOrder.None? && barcode.fileOrder.Some? ==> currentOrder == barcode.fileOrder
      ensures barcode.inlineOrder.None? && barcode.fileOrder.None? ==> currentOrder == old(currentOrder)
    {
      if barcode.inlineOrder.Some? {
        currentOrder := barcode.inlineOrder;
        return;
      }
      if barcode.fileOrder.Some? {
        currentOrder := barcode.fileOrder;
      }
    }

    /** Credits one unit of `sku` (see `ApplyScan`). Answers false and
        changes nothing when no order is loaded, no line has the SKU, or the
        first such line is already complete. Keeps every line within its
        quantity and every count within `Int`. */
    method UpdateItem(sku: string) returns (updated: bool)
      modifies this
      ensures old(currentOrder).None? ==> !updated
      ensures old(currentOrder).Some? ==> updated == ApplyScan(old(currentOrder).value, sku).Some?
      ensures currentOrder == if updated then ApplyScan(old(currentOrder).value, sku) else old(currentOrder)
      ensures old(currentOrder).Some? && NeverOverPicked(old(currentOrder).value) ==> NeverOverPicked(currentOrder.value)
      ensures old(currentOrder).Some? && FitsInt(old(currentOrder).value) ==> FitsInt(currentOrder.value)
    {
      if currentOrder.None? {
        return false;
      }
      var order := currentOrder.value;
      ScanKeepsCeiling(order, sku);
      var itemIndex := FirstIndexOfSku(order.items, sku);
      if itemIndex.None? {
        return false;
      }
      if order.items[itemIndex.value].IsComplete() {
        return false;
      }
      var item := order.items[itemIndex.value];
      order := order.(items := order.items[itemIndex.value := item.(quantityPicked := item.quantityPicked + 1)]);
      currentOrder := Some(order);
      updated := true;
    }

    /** Writes the completion of the current order and only then drops it.
        Does nothing without an order; when the write fails the order stays
        loaded. `completedAt` is the encoded completion time, `seconds` the
        whole seconds of the clock reading used in the file name (Swift
        reads the clock twice), and `write` stands for encoding and writing
        the file and says whether both succeeded. */
    method CompleteOrder(completedAt: string, seconds: int, write: (string, OrderCompletion) -> bool)
      modifies this
      ensures old(currentOrder).None? ==> currentOrder == None
      ensures old(currentOrder).Some? ==>
                var order := old(currentOrder).value;
                currentOrder == if write(SwiftCompletionFileName(order.orderId, seconds), OrderCompletion(order, completedAt))
                                then None else old(currentOrder)
    {
      if currentOrder.None? {
        return;
      }
      var order := currentOrder.value;
      var completion := OrderCompletion(order, completedAt);
      var fileName := SwiftCompletionFileName(order.orderId, seconds);
      if write(fileName, completion) {
        currentOrder := None;
      }
    }
  }
}
