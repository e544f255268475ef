/** The Python order store (`OrderManager` in app/order_manager.py): the
    ledger that holds the one current order, validates a loaded payload,
    counts picks per SKU without any ceiling, reports shortfalls and writes
    a completion record before it lets go of the order. */
module OrderStore {
  import opened Common

  /** One entry of the payload's `items` list. */
  datatype PayloadItem = PayloadItem(sku: string, quantity: int)

  /** A parsed order payload; a key the JSON object lacks is `None`. */
  datatype Payload = Payload(orderId: Option<string>, items: Option<seq<PayloadItem>>)

  /** What `load_order` was given, once parsing is abstracted away: text
      that parsed as a payload, or a key naming a file in the data
      directory together with the payload stored there (`None` when no
      such file exists). */
  datatype OrderCode = InlineJson(payload: Payload) | FileKey(key: string, stored: Option<Payload>)

  /** The loaded order: the payload's identifier and items plus the
      `picked_items` ledger. */
  datatype ActiveOrder = ActiveOrder(orderId: string, items: seq<PayloadItem>, pickedItems: map<string, int>)

  /** The dictionary `update_order` answers with. */
  datatype PickUpdate = PickUpdate(sku: string, picked: int, required: int, complete: bool)

  /** One entry of `get_remaining_items`. */
  datatype Shortfall = Shortfall(sku: string, remaining: int)

  /** The data `complete_order` writes. */
  datatype CompletionRecord = CompletionRecord(orderId: string, completedAt: string, pickedItems: map<string, int>)

  /** Failures of `load_order`: a ValueError naming the missing keys, a
      ValueError for an empty item list, a FileNotFoundError. */
  datatype LoadError = MissingFields(fields: seq<string>) | NoItems | OrderNotFound(key: string)

  /** Failures of the other operations: a RuntimeError when no order is
      loaded, a ValueError for an unknown SKU or a mismatching identifier,
      an error from writing the completion file. */
  datatype StoreError = NoOrderLoaded | UnknownSku(sku: string) | OrderIdMismatch | WriteFailed

  /** The payload `load_order` goes on to validate. */
  function Resolve(code: OrderCode): Result<Payload, LoadError> {
    match code
    case InlineJson(p) => Ok(p)
    case FileKey(key, stored) =>
      match stored
      case Some(p) => Ok(p)
      case None => Err(OrderNotFound(key))
  }

  /** The required keys the payload lacks, in the order they are checked. */
  function MissingKeys(data: Payload): (missing: seq<string>)
    ensures "order_id" in missing <==> data.orderId.None?
    ensures "items" in missing <==> data.items.None?
    ensures |missing| <= 2
  {
    (if data.orderId.None? then ["order_id"] else [])
    + (if data.items.None? then ["items"] else [])
  }

  /** `_validate_order_data`: `None` when the payload may be loaded, else
      the error it raises. A payload passes exactly when it has both keys
      and a non-empty item list; missing keys are reported before an empty
      list. */
  function ValidateOrderData(data: Payload): (r: Option<LoadError>)
    ensures r.None? <==> data.orderId.Some? && data.items.Some? && data.items.value != []
    ensures r.Some? && r.value.MissingFields? ==>
              r.value.fields != [] && r.value.fields == MissingKeys(data)
    ensures r == Some(NoItems) <==> data.orderId.Some? && data.items == Some([])
    ensures r.Some? ==> r.value.MissingFields? || r.value.NoItems?
  {
    var missing := MissingKeys(data);
    if missing != [] then Some(MissingFields(missing))
    else if data.items.value == [] then Some(NoItems)
    else None
  }

  /** The position of the first item carrying `sku`, as `next(...)` finds it. */
  function FirstItemWithSku(items: seq<PayloadItem>, sku: string): (r: Option<nat>)
    ensures r.None? <==> forall i :: 0 <= i < |items| ==> items[i].sku != sku
    ensures r.Some? ==> r.value < |items| && items[r.value].sku == sku
    ensures r.Some? ==> forall j :: 0 <= j < r.value ==> items[j].sku != sku
  {
    if items == [] then None
    else if items[0].sku == sku then Some(0)
    else match FirstItemWithSku(items[1..], sku)
      case None => None
      case Some(i) => Some(i + 1)
  }

  /** The ledger's count for `sku`; a SKU never picked counts as 0. */
  function PickedCount(picked: map<string, int>, sku: string): int {
    if sku in picked then picked[sku] else 0
  }

  /** One pick of `sku` recorded in the ledger. It is refused only for a SKU
      no item carries; otherwise the count grows by one whatever the item
      requires, and the answer reports the requirement of the first item
      with that SKU. Nothing but that one count changes. */
  function RecordPick(order: ActiveOrder, sku: string): (r: Result<(ActiveOrder, PickUpdate), StoreError>)
    ensures r.Err? <==> FirstItemWithSku(order.items, sku).None?
    ensures r.Err? ==> r.error == UnknownSku(sku)
    ensures r.Ok? ==>
      var (next, update) := r.value;
      var first := order.items[FirstItemWithSku(order.items, sku).value];
      && next.orderId == order.orderId && next.items == order.items
      && next.pickedItems.Keys == order.pickedItems.Keys + {sku}
      && (forall s :: s in order.pickedItems && s != sku ==> next.pickedItems[s] == order.pickedItems[s])
      && update.sku == sku
      && update.picked == PickedCount(next.pickedItems, sku) == PickedCount(order.pickedItems, sku) + 1
      && update.required == first.quantity
      && (update.complete <==> update.picked >= first.quantity)
  {
    match FirstItemWithSku(order.items, sku)
    case None => Err(UnknownSku(sku))
    case Some(i) =>
      var picked := PickedCount(order.pickedItems, sku) + 1;
      var required := order.items[i].quantity;
      Ok((order.(pickedItems := order.pickedItems[sku := picked]),
          PickUpdate(sku, picked, required, picked >= required)))
  }

  /** The ledger after `n` picks of `sku`. */
  ghost function PickRepeatedly(order: ActiveOrder, sku: string, n: nat): ActiveOrder
  {
    if n == 0 then order
    else
      var before := PickRepeatedly(order, sku, n - 1);
      match RecordPick(before, sku)
      case Ok((next, _)) => next
      case Err(_) => before
  }

  /** The ledger has no ceiling: for a SKU the order carries, every one of
      `n` picks is accepted and the count grows by exactly `n`, however far
      past the requirement that takes it; items and identifier stay put. */
  lemma {:induction false} LedgerHasNoCeiling(order: ActiveOrder, sku: string, n: nat)
    requires FirstItemWithSku(order.items, sku).Some?
    ensures PickRepeatedly(order, sku, n).items == order.items
    ensures PickRepeatedly(order, sku, n).orderId == order.orderId
    ensures PickedCount(PickRepeatedly(order, sku, n).pickedItems, sku) == PickedCount(order.pickedItems, sku) + n
  {
    if n > 0 {
      LedgerHasNoCeiling(order, sku, n - 1);
    }
  }

  /** The shortfalls of the ledger, one per item in item order: each item
      whose quantity exceeds the count of its SKU, with the difference. */
  function Shortfalls(items: seq<PayloadItem>, picked: map<string, int>): (r: seq<Shortfall>)
    ensures |r| <= |items|
  {
    if items == [] then []
    else
      var item := items[|items| - 1];
      var rest := Shortfalls(items[..|items| - 1], picked);
      var missing := item.quantity - PickedCount(picked, item.sku);
      if missing > 0 then rest + [Shortfall(item.sku, missing)] else rest
  }

  /** An entry is listed exactly when some item of that SKU is short by
      exactly that amount. */
  lemma {:induction false} ShortfallsExact(items: seq<PayloadItem>, picked: map<string, int>, sku: string, n: int)
    ensures Shortfall(sku, n) in Shortfalls(items, picked) <==>
            exists i :: 0 <= i < |items| && items[i].sku == sku && n == items[i].quantity - PickedCount(picked, sku) && n > 0
  {
    if items != [] {
      var front := items[..|items| - 1];
      ShortfallsExact(front, picked, sku, n);
      assert forall i :: 0 <= i < |front| ==> front[i] == items[i];
    }
  }

  class OrderManager {
    /** The `current_order` slot: empty, or the loaded order with its ledger. */
    var currentOrder: Option<ActiveOrder>

    constructor ()
      ensures currentOrder == None
    {
      currentOrder := None;
    }

    /** Loads and validates an order. On success the slot holds the new
        order with an empty ledger, whatever it held before; on any failure
        the slot is left as it was. */
    method LoadOrder(code: OrderCode) returns (r: Result<ActiveOrder, LoadError>)
      modifies this
      ensures Resolve(code).Err? ==> r == Err(Resolve(code).error)
      ensures Resolve(code).Ok? && ValidateOrderData(Resolve(code).value).Some? ==>
                r == Err(ValidateOrderData(Resolve(code).value).value)
      ensures r.Ok? <==> Resolve(code).Ok? && ValidateOrderData(Resolve(code).value).None?
      ensures r.Err? ==> currentOrder == old(currentOrder)
      ensures r.Ok? ==>
                var data := Resolve(code).value;
                && ValidateOrderData(data).None?
                && r.value == ActiveOrder(data.orderId.value, data.items.value, map[])
                && currentOrder == Some(r.value)
    {
      var resolved := Resolve(code);
      if resolved.Err? {
        return Err(resolved.error);
      }
      var data := resolved.value;
      var invalid := ValidateOrderData(data);
      if invalid.Some? {
        return Err(invalid.value);
      }
      var order := ActiveOrder(data.orderId.value, data.items.value, map[]);
      currentOrder := Some(order);
      r := Ok(order);
    }

    /** Records one pick of `sku` in the ledger (see `RecordPick`); refused
        with no change when nothing is loaded or no item has that SKU. */
    method UpdateOrder(sku: string) returns (r: Result<PickUpdate, StoreError>)
      modifies this
      ensures old(currentOrder).None? ==> r == Err(NoOrderLoaded)
      ensures r.Err? ==> currentOrder == old(currentOrder)
      ensures old(currentOrder).Some? ==>
                match RecordPick(old(currentOrder).value, sku)
                case Err(e) => r == Err(e)
                case Ok((next, update)) => r == Ok(update) && currentOrder == Some(next)
    {
      if currentOrder.None? {
        return Err(NoOrderLoaded);
      }
      match RecordPick(currentOrder.value, sku)
      case Err(e) =>
        r := Err(e);
      case Ok((next, update)) =>
        currentOrder := Some(next);
        r := Ok(update);
    }

    /** Lists, in item order, every item still short of its quantity with
        the amount it is short by. */
    method GetRemainingItems() returns (r: Result<seq<Shortfall>, StoreError>)
      ensures currentOrder.None? ==> r == Err(NoOrderLoaded)
      ensures currentOrder.Some? ==>
                r == Ok(Shortfalls(currentOrder.value.items, currentOrder.value.pickedItems))
      ensures r.Ok? ==> forall sku, n :: Shortfall(sku, n) in r.value <==>
                exists i :: 0 <= i < |currentOrder.value.items| && currentOrder.value.items[i].sku == sku
                  && n == currentOrder.value.items[i].quantity - PickedCount(currentOrder.value.pickedItems, sku)
                  && n > 0
    {
      if currentOrder.None? {
        return Err(NoOrderLoaded);
      }
      var items, picked := currentOrder.value.items, currentOrder.value.pickedItems;
      var remaining := [];
      for i := 0 to |items|
        invariant remaining == Shortfalls(items[..i], picked)
      {
        assert items[..i + 1][..i] == items[..i];
        var missing := items[i].quantity - PickedCount(picked, items[i].sku);
        if missing > 0 {
          remaining := remaining + [Shortfall(items[i].sku, missing)];
        }
      }
      assert items[..|items|] == items;
      forall sku, n ensures Shortfall(sku, n) in remaining <==>
          exists i :: 0 <= i < |items| && items[i].sku == sku && n == items[i].quantity - PickedCount(picked, sku) && n > 0
      {
        ShortfallsExact(items, picked, sku, n);
      }
      r := Ok(remaining);
    }

    /** Completes the loaded order: checks that one is loaded and that
        `orderId` names it, writes the record {identifier, time stamp,
        ledger} under its completion file name, and only when that write
        succeeds empties the slot. `write` stands for the file write and
        says whether it succeeded. */
    method CompleteOrder(orderId: string, completedAt: string, write: (string, CompletionRecord) -> bool)
      returns (r: Result<(), StoreError>)
      modifies this
      ensures old(currentOrder).None? ==> r == Err(NoOrderLoaded)
      ensures old(currentOrder).Some? && old(currentOrder).value.orderId != orderId ==> r == Err(OrderIdMismatch)
      ensures old(currentOrder).Some? && old(currentOrder).value.orderId == orderId ==>
                var written := write(CompletionFileName(orderId, completedAt),
                                     CompletionRecord(orderId, completedAt, old(currentOrder).value.pickedItems));
                r == (if written then Ok(()) else Err(WriteFailed))
      ensures currentOrder == if r.Ok? then None else old(currentOrder)
    {
      if currentOrder.None? {
        return Err(NoOrderLoaded);
      }
      if currentOrder.value.orderId != orderId {
        return Err(OrderIdMismatch);
      }
      var record := CompletionRecord(orderId, completedAt, currentOrder.value.pickedItems);
      var fileName := CompletionFileName(orderId, completedAt);
      if !write(fileName, record) {
        return Err(WriteFailed);
      }
      currentOrder := None;
      r := Ok(());
    }
  }
  /** The ledger's own test scenario: order TEST001 needs two ABC123 and one
      XYZ789. Nothing works before a load; picks of ABC123 report 1 of 2
      and then 2 of 2 and complete; an unknown SKU and a wrong identifier
      are refused without losing the order; completing under the right
      identifier with a working write empties the slot. */
  method SampleLedgerScenario(completedAt: string) returns (manager: OrderManager)
    ensures manager.currentOrder == None
  {
    manager := new OrderManager();
    var u := manager.UpdateOrder("ABC123");
    assert u == Err(NoOrderLoaded);
    var done := manager.CompleteOrder("TEST001", completedAt, (name, record) => true);
    assert done == Err(NoOrderLoaded);
    var items := [PayloadItem("ABC123", 2), PayloadItem("XYZ789", 1)];
    var loaded := manager.LoadOrder(InlineJson(Payload(Some("TEST001"), Some(items))));
    assert manager.currentOrder == Some(ActiveOrder("TEST001", items, map[]));
    u := manager.UpdateOrder("ABC123");
    assert u == Ok(PickUpdate("ABC123", 1, 2, false));
    var left := manager.GetRemainingItems();
    assert items[..1] == [PayloadItem("ABC123", 2)] && items[..1][..0] == [];
    assert manager.currentOrder == Some(ActiveOrder("TEST001", items, map["ABC123" := 1]));
    assert "XYZ789" != "ABC123";
    var picked := map["ABC123" := 1];
    assert Shortfalls(items[..1], picked) == [Shortfall("ABC123", 1)];
    assert PickedCount(picked, "XYZ789") == 0;
    assert Shortfalls(items, picked) == Shortfalls(items[..1], picked) + [Shortfall("XYZ789", 1)];
    assert [Shortfall("ABC123", 1)] + [Shortfall("XYZ789", 1)] == [Shortfall("ABC123", 1), Shortfall("XYZ789", 1)];
    assert left == Ok([Shortfall("ABC123", 1), Shortfall("XYZ789", 1)]);
    u := manager.UpdateOrder("ABC123");
    assert u == Ok(PickUpdate("ABC123", 2, 2, true));
    assert "INVALID"[0] != "ABC123"[0] && "INVALID"[0] != "XYZ789"[0];
    u := manager.UpdateOrder("INVALID");
    assert u == Err(UnknownSku("INVALID"));
    done := manager.CompleteOrder("WRONG_ID", completedAt, (name, record) => true);
    assert done == Err(OrderIdMismatch) && manager.currentOrder.Some?;
    done := manager.CompleteOrder("TEST001", completedAt, (name, record) => true);
    assert done == Ok(()) && manager.currentOrder == None;
  }
}
