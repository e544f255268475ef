# Pick-order lifecycle, modelled in Dafny

The system checks a warehouse pick order. An order is a list of SKU and
quantity lines. Each scanned SKU is checked against the order, pick counts
are kept, completion is detected, and a completion record is written when
the operator finishes the order. This logic exists twice: once in the
Python app and once in the Swift app. Both versions are modelled here,
each in its own form.

- `common.dfy` (`Common`): `Option` and `Result`, a few string facts, and
  the completion file name that both apps share
  (`completed_<id>_<stamp>.json`), with a proof that it is unambiguous.
- `pick_matcher.dfy` (`PickMatcher`): the Python `ItemMatcher`. This is the
  policy gate. It is a class holding a `map` from SKU to a working record,
  plus the map's iteration order. It refuses unknown SKUs and SKUs that are
  already fully picked, and it answers completion and shortfall queries.
- `order_store.dfy` (`OrderStore`): the Python `OrderManager`. This is the
  ledger. It is a class with one optional current order and a
  `picked_items` counter map. It validates payloads, counts picks with no
  ceiling, reports shortfalls, and writes the completion record before it
  clears the slot.
- `models.dfy` (`Models`): the Swift `OrderItem` and `Order` structs and
  their `isComplete` properties.
- `services.dfy` (`Services`): the Swift `OrderManager`. It is a class with
  an optional current order. A scan credits the first line with the SKU,
  and only while that line is short.
- `comparisons.dfy` (`Comparisons`): the places where the three disagree.
  These are duplicate SKUs (the matcher keeps the last line, the ledger
  and the Swift manager use the first), the ceiling (the Python ledger has
  none, the Swift manager has one), and empty item lists (only the Python
  loader refuses them).

Inputs the code reads from the outside world become parameters:
- parsed payloads, or the fact that none was found;
- the completion time stamp and the clock seconds;
- the outcome of the file write, as a function from the file name and the
  record to success or failure.

Where the code departs from what one would expect, the model follows the code:
- The order of `get_remaining_items` is fixed. The ledger uses item order.
  The matcher uses the order in which the dictionary first saw each SKU.
- Quantities are not required to be positive.
- Duplicate SKUs are handled as each implementation actually handles them.

## Model

| member | source | states |
|---|---|---|
| `Common.CompletionFileName` | app/order_manager.py:137-140 | the completion file name starts with "completed_", ends with ".json", and is 16 characters longer than identifier and stamp together |
| `Common.CompletionFileNameInjective` | app/order_manager.py:137-140 | two completions get the same file name only when identifier and stamp are both equal, as long as stamps contain no "_" (identifiers may) |
| `PickMatcher.NotInOrderMessage` | app/matcher.py:50-56 | the refusal for an unknown SKU names the SKU and ends in "not in order" |
| `PickMatcher.AlreadyPickedMessage` | app/matcher.py:60-66 | the refusal for a fully picked SKU names the SKU and ends in "already picked" |
| `PickMatcher.Loaded` | app/matcher.py:24-30 | loading builds one record per SKU of the items, keyed by that SKU, with nothing picked |
| `PickMatcher.KeyOrder` | app/matcher.py:24-30 | the map's iteration order lists every SKU of the items exactly once |
| `PickMatcher.LoadedKeepsLastOccurrence` | app/matcher.py:24-30 | with duplicate SKUs the last line wins: the record carries the quantity of the last line naming the SKU |
| `PickMatcher.KeyOrderFollowsFirstOccurrence` | app/matcher.py:24-30 | SKUs are iterated in the order of their first occurrence among the items |
| `PickMatcher.Shortfalls` | app/matcher.py:87-97 | the remaining list has no more entries than there are keys |
| `PickMatcher.ShortfallsExact` | app/matcher.py:87-97 | an entry (sku, n) is listed exactly when the SKU is tracked, n is required minus picked, and n > 0 |
| `PickMatcher.ShortfallSkusDistinct` | app/matcher.py:87-97 | over distinct keys, the remaining list names each SKU at most once |
| `PickMatcher.AllPickedIffNoShortfall` | app/matcher.py:80-97 | every record has reached its requirement exactly when the remaining list is empty |
| `PickMatcher.ItemMatcher.constructor` | app/matcher.py:12-15 | a new matcher has an empty working map |
| `PickMatcher.ItemMatcher.LoadOrderItems` | app/matcher.py:17-30 | the working map becomes exactly the one built from the items, with nothing of an earlier load left |
| `PickMatcher.ItemMatcher.CheckItem` | app/matcher.py:33-78 | an empty map fails; an unknown SKU gets (false, false, "SKU … not in order") and a fully picked one gets (false, false, "… already picked"), both with no change; otherwise exactly that SKU's count goes up by one and the answer is (true, whole-order completion after the increment); no record is ever credited past its requirement |
| `PickMatcher.ItemMatcher.IsOrderComplete` | app/matcher.py:80-85 | an empty map counts as complete, and in a complete order every record with a requirement that is not negative was picked exactly that often |
| `PickMatcher.ItemMatcher.CompleteIffNothingRemains` | app/matcher.py:80-85 | whole-order completion holds exactly when nothing remains to pick, and holds vacuously for an empty map |
| `PickMatcher.ItemMatcher.NeverOverCredited` | app/matcher.py:60-69 | with a requirement that is not negative, the picked count never exceeds it |
| `PickMatcher.ItemMatcher.GetRemainingItems` | app/matcher.py:87-97 | returns, in map order, exactly the SKUs with required minus picked above zero, each with that difference and each SKU once |
| `PickMatcher.ItemMatcher.Reset` | app/matcher.py:99-101 | the working map is emptied, so the next check fails |
| `PickMatcher.SampleItemsLoad` | tests/test_matcher.py:8-15 | the sample order loads as ABC123 (2) then XYZ789 (1), nothing picked |
| `PickMatcher.SampleScenarioFirstScans` | tests/test_matcher.py:93-97 | a fresh matcher refuses a scan; loading the sample order gives two records with nothing picked |
| `PickMatcher.SampleScenarioRefusesUnknown` | tests/test_matcher.py:23-30 | INVALID is refused with "SKU INVALID not in order" and nothing changes |
| `PickMatcher.SampleScenarioScanAbc` | tests/test_matcher.py:17-39 | an ABC123 scan below its requirement of two is accepted, adds one, and does not complete the order |
| `PickMatcher.SampleScenarioOnePick` | tests/test_matcher.py:62-83 | with one ABC123 picked the remaining list is exactly ABC123 (1) then XYZ789 (1), and an XYZ789 scan is then accepted without completing the order |
| `PickMatcher.SampleScenarioRefusesThird` | tests/test_matcher.py:41-50 | with both ABC123 picked a third is refused as already picked with nothing changed, and the remaining list is exactly XYZ789 (1) |
| `PickMatcher.SampleScenarioCompletion` | tests/test_matcher.py:52-60 | with both ABC123 picked the XYZ789 scan is accepted and completes the order |
| `PickMatcher.SampleScenarioReset` | tests/test_matcher.py:85-91 | after a reset the map and its order are empty and a scan is refused |
| `PickMatcher.SampleScenarioOrderCompletion` | tests/test_matcher.py:41-60 | the steps chained on one fresh matcher: load, refuse INVALID, two accepted ABC123 scans, a refused third, the completing XYZ789 scan, then reset |
| `OrderStore.MissingKeys` | app/order_manager.py:48-51 | lists "order_id" exactly when it is absent and "items" exactly when it is absent |
| `OrderStore.ValidateOrderData` | app/order_manager.py:46-54 | a payload passes exactly when both keys are present and the item list is non-empty; missing keys are reported by name before an empty list |
| `OrderStore.FirstItemWithSku` | app/order_manager.py:70-77 | finds the first item with the SKU, or reports that no item has it |
| `OrderStore.RecordPick` | app/order_manager.py:79-96 | refused only for a SKU no item has; otherwise that SKU's count (0 if absent, `PickedCount` being the `.get(sku, 0)` of line 106) goes up by one with no ceiling, other counts and the items are unchanged, and the answer reports the new count, the first matching item's quantity, and whether the count has reached it |
| `OrderStore.LedgerHasNoCeiling` | app/order_manager.py:80-82 | n picks of a known SKU raise its count by exactly n, however far past the requirement |
| `OrderStore.Shortfalls` | app/order_manager.py:103-115 | the remaining list has no more entries than there are items |
| `OrderStore.ShortfallsExact` | app/order_manager.py:103-115 | an entry (sku, n) is listed exactly when some item has that SKU and is short by n > 0, a SKU never picked counting 0 (`PickedCount`, `.get(sku, 0)` at line 106) |
| `OrderStore.OrderManager.constructor` | app/order_manager.py:8-11 | a new manager has no current order |
| `OrderStore.OrderManager.LoadOrder` | app/order_manager.py:18-44 | the payload is the inline JSON or the stored file's contents (`Resolve`, lines 27-37); a missing file fails naming the code, and an invalid payload fails with the validator's error, both leaving the slot as it was; otherwise the slot holds the payload's order with an empty ledger, replacing any earlier order |
| `OrderStore.OrderManager.UpdateOrder` | app/order_manager.py:56-96 | fails with no order loaded or an unknown SKU and changes nothing; otherwise records the pick as `RecordPick` says |
| `OrderStore.OrderManager.GetRemainingItems` | app/order_manager.py:98-115 | fails with no order loaded; otherwise lists, in item order, exactly the items short of their quantity with the shortfall |
| `OrderStore.OrderManager.CompleteOrder` | app/order_manager.py:117-146 | fails with no order loaded or a different identifier; otherwise writes {id, time stamp, ledger} under its completion file name and clears the slot only if the write succeeds; on any failure the order stays loaded |
| `OrderStore.SampleLedgerScenario` | tests/test_order_manager.py:56-122 | with no order, a pick and a completion are both refused; after loading TEST001 the first ABC123 pick reports 1 of 2, the remaining list is then exactly ABC123 (1) and XYZ789 (1), the second pick reports 2 of 2 (complete); INVALID is refused; a wrong identifier is refused with the order kept; the right identifier with a working write empties the slot |
| `Models.NewOrderItem` | Models/OrderItem.swift:1-9 | a new line starts with nothing picked and is complete at once (`OrderItem.IsComplete`, picked >= quantity, lines 7-9) exactly when its quantity is not positive |
| `Models.Order.IsComplete` | Models/Order.swift:7-9 | an order with no lines is complete, and an incomplete order has a line that is not complete |
| `Models.IncompleteIffSomeLineShort` | Models/Order.swift:7-9 | an order is incomplete exactly when some line is short, short meaning not `OrderItem.IsComplete` (Models/OrderItem.swift:7-9); an order with no lines is complete |
| `Models.CompletionIsMonotone` | Models/Order.swift:7-9 | raising picked counts never turns a complete order incomplete |
| `Services.IntToDecimal` | Services/OrderManager.swift:65 | the seconds as rendered in the file name: no "_", a leading "-" exactly for negatives |
| `Services.IntToDecimalInjective` | Services/OrderManager.swift:65 | different seconds render differently |
| `Services.SwiftCompletionFileName` | Services/OrderManager.swift:65 | the file name starts with "completed_" and ends with ".json" |
| `Services.SwiftCompletionFileNameInjective` | Services/OrderManager.swift:65 | two completions share a file name only with the same order identifier in the same second |
| `Services.FirstIndexOfSku` | Services/OrderManager.swift:37 | finds the first line with the SKU, or reports that none has it |
| `Services.ApplyScan` | Services/OrderManager.swift:36-46 | a scan is taken exactly when some line has the SKU and the first such line is short; it then adds one to that line's picked count and leaves every other line and every other field unchanged |
| `Services.ScanKeepsCeiling` | Services/OrderManager.swift:41-45 | a scan keeps every line within its quantity, and its `+= 1` never overflows `Int` |
| `Services.ScansUntilLineComplete` | Services/OrderManager.swift:36-46 | the first line with the SKU, holding picked of quantity with picked <= quantity (a negative picked count included), takes exactly quantity - picked accepted scans to complete: each is accepted, the line (`OrderItem.isComplete`, Models/OrderItem.swift:7-9) is complete after the last and not before, and the next scan is refused |
| `Services.OrderManager.constructor` | Services/OrderManager.swift:10 | a new manager has no current order |
| `Services.OrderManager.LoadOrder` | Services/OrderManager.swift:16-33 | the inline order wins, else the file's order; the item list is not checked; when both fail the current order is unchanged |
| `Services.OrderManager.UpdateItem` | Services/OrderManager.swift:35-54 | false with no change when no order is loaded, no line has the SKU, or the first one is complete; otherwise true with the scan applied; "no line over its quantity" and "all counts fit Int" are preserved |
| `Services.OrderManager.CompleteOrder` | Services/OrderManager.swift:56-74 | a no-op without an order; otherwise the order is cleared exactly when writing its completion under "completed_<id>_<seconds>.json" succeeds |
| `Comparisons.DuplicateSkuPolicies` | app/matcher.py:24-30 | with two lines for one SKU, the matcher requires the last line's quantity, while the ledger reports and the Swift manager credits the first line |
| `Comparisons.LedgerCountsPastRequirementSwiftDoesNot` | app/order_manager.py:80-96 | on a fully picked line the Python ledger still counts past the requirement, while the Swift manager refuses the scan |
| `Comparisons.EmptyItemListPolicies` | app/order_manager.py:53-54 | an empty item list is refused by the Python loader, gives the Python matcher an empty map (which `CheckItem` then refuses), and is a complete order in Swift |

## Left out

- JSON parsing and file reading are not modelled. The Python loader sees a
  parsed payload or "no such file". The Swift loader sees the order decoded
  from the barcode text or from the file, or nothing. This leaves out the
  case where an all-digit code parses as a JSON number and then fails in
  validation with a TypeError.
- A payload key that is present but null reads as absent in the model.
  The Python validator only checks that the key exists, so `"order_id":
  null` passes it, and so does a truthy `items` value that is not a list.
  `Payload` cannot represent either case.
- Payload items are taken to have a string `sku` and an integer
  `quantity`. The KeyError or TypeError a malformed item would raise is
  not modelled.
- The Python ledger returns and stores the same dictionary it was given.
  The model stores a value, so aliasing between the returned order and
  the stored one is not captured.
- A Swift order decoded from JSON is taken as given, including any
  `quantityPicked` it carries. Codable's rules for missing keys are not
  modelled.
- `datetime.now()`, `Date()` and the conversion of a time interval to
  whole seconds are parameters (`completedAt`, `seconds`). The Swift code
  reads the clock twice, so the two values are independent.
- The file write (Python `open`/`json.dump`, Swift `JSONEncoder`/`write`)
  is a parameter that says whether the write succeeded. The bytes written
  and the data directory path are not modelled.
- Logging calls and the Swift delegate callbacks are left out. This
  includes the `didCompleteOrder` notification that `updateItem` sends
  when a scan completes the order. They have no effect on state.
- The unused `order` argument of `check_item` and `is_order_complete` is
  left out.
- Python integers are unbounded, and so are the model's. Swift `Int`
  overflow is only tracked for the `+= 1` in `updateItem` (`FitsInt`).
- Barcode capture (camera and decoding), the UI, the process entry point
  and the configuration constants are not part of this model.
- Services.FirstIndexOfSku: SKUs are compared as character sequences.
  Swift's `==` on `String` compares by Unicode canonical equivalence, so a
  precomposed and a decomposed spelling of the same SKU match in Swift but
  not in the model. This also affects `Services.ApplyScan` and
  `Services.OrderManager.UpdateItem`. Python compares code points, as the
  model does.
- Concurrency is not modelled, because every operation is synchronous.
- PickMatcher.Shortfalls: its own contract only bounds the length; the
  exact contents are stated by `PickMatcher.ShortfallsExact`.
- OrderStore.Shortfalls: its own contract only bounds the length; the
  exact contents are stated by `OrderStore.ShortfallsExact`.
