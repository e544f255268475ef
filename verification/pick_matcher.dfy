/** The Python pick matcher (`ItemMatcher`): the policy gate that keeps a
    working copy of required and picked counts per SKU, refuses a scan of
    an unknown SKU or of a SKU whose requirement is already met, and
    answers completion and shortfall queries. */
module PickMatcher {
  import opened Common

  /** One line of an order as handed to `load_order_items`. */
  datatype LineItem = LineItem(sku: string, quantity: int)

  /** The matcher's working record for one SKU (the `OrderItem` dataclass). */
  datatype OrderItem = OrderItem(sku: string, quantityRequired: int, quantityPicked: int)

  /** The dictionary `check_item` answers with. */
  datatype Verdict = Verdict(valid: bool, orderComplete: bool, message: string)

  /** `check_item` raises a ValueError when the working map is empty. */
  datatype MatcherError = NoOrderItemsLoaded

  /** One entry of `get_remaining_items`. */
  datatype Remaining = Remaining(sku: string, remaining: int)

  type PickState = map<string, OrderItem>

  const ItemValidated: string := "Item validated"

  /** The message for a SKU that is not in the order. */
  function NotInOrderMessage(sku: string): (msg: string)
    ensures Contains(msg, sku) && EndsWith(msg, " not in order")
  {
    ContainsMiddle("SKU ", sku, " not in order");
    "SKU " + sku + " not in order"
  }

  /** The message for a SKU whose required quantity is already met. */
  function AlreadyPickedMessage(sku: string): (msg: string)
    ensures Contains(msg, sku) && EndsWith(msg, "already picked")
  {
    ContainsMiddle("Required quantity for ", sku, " already picked");
    "Required quantity for " + sku + " already picked"
  }

  /** The SKUs that occur in `items`. */
  function Skus(items: seq<LineItem>): set<string> {
    set i | 0 <= i < |items| :: items[i].sku
  }

  /** The working map that loading `items` builds: one entry per SKU, keyed
      by that SKU, with nothing picked; for a SKU that occurs more than
      once, a later line overwrites an earlier one. */
  function Loaded(items: seq<LineItem>): (m: PickState)
    ensures m.Keys == Skus(items)
    ensures forall k :: k in m ==> m[k].sku == k && m[k].quantityPicked == 0
  {
    if items == [] then map[]
    else
      var front, last := items[..|items| - 1], items[|items| - 1];
      assert Skus(items) == Skus(front) + {last.sku} by {
        assert forall i :: 0 <= i < |front| ==> front[i] == items[i];
      }
      Loaded(front)[last.sku := OrderItem(last.sku, last.quantity, 0)]
  }

  /** The iteration order of that map: each SKU once, at the position of
      its first occurrence (a dictionary keeps a key where it was first
      inserted, even when a later line overwrites its value). */
  function KeyOrder(items: seq<LineItem>): (keys: seq<string>)
    ensures Distinct(keys)
    ensures forall k :: k in keys <==> k in Skus(items)
  {
    if items == [] then []
    else
      var front, last := items[..|items| - 1], items[|items| - 1];
      assert Skus(items) == Skus(front) + {last.sku} by {
        assert forall i :: 0 <= i < |front| ==> front[i] == items[i];
      }
      var keys := KeyOrder(front);
      if last.sku in keys then keys else keys + [last.sku]
  }

  /** With duplicate SKUs the last line wins: the required quantity of a SKU
      is the quantity of the last line that names it. */
  lemma {:induction false} LoadedKeepsLastOccurrence(items: seq<LineItem>, i: nat)
    requires i < |items|
    requires forall j :: i < j < |items| ==> items[j].sku != items[i].sku
    ensures items[i].sku in Loaded(items)
    ensures Loaded(items)[items[i].sku] == OrderItem(items[i].sku, items[i].quantity, 0)
  {
    if i < |items| - 1 {
      var front := items[..|items| - 1];
      LoadedKeepsLastOccurrence(front, i);
    }
  }

  /** A SKU that occurs first at line `i` sits in the key order before every
      SKU whose first occurrence is later. */
  lemma {:induction false} KeyOrderFollowsFirstOccurrence(items: seq<LineItem>, i: nat, j: nat)
    requires i < j < |items|
    requires forall k :: 0 <= k < i ==> items[k].sku != items[i].sku
    requires forall k :: 0 <= k < j ==> items[k].sku != items[j].sku
    ensures exists p, q :: 0 <= p < q < |KeyOrder(items)|
              && KeyOrder(items)[p] == items[i].sku && KeyOrder(items)[q] == items[j].sku
  {
    var front := items[..|items| - 1];
    if j < |items| - 1 {
      KeyOrderFollowsFirstOccurrence(front, i, j);
      var p, q :| 0 <= p < q < |KeyOrder(front)|
                  && KeyOrder(front)[p] == items[i].sku && KeyOrder(front)[q] == items[j].sku;
      assert KeyOrder(front) <= KeyOrder(items);
    } else {
      assert items[i].sku in Skus(front) by { assert front[i] == items[i]; }
      var keys := KeyOrder(front);
      assert items[j].sku !in Skus(front) by {
        assert forall k :: 0 <= k < |front| ==> front[k].sku != items[j].sku;
      }
      var p :| 0 <= p < |keys| && keys[p] == items[i].sku;
      assert KeyOrder(items) == keys + [items[j].sku];
      assert KeyOrder(items)[p] == items[i].sku && KeyOrder(items)[|keys|] == items[j].sku;
    }
  }

  /** No working record has been over-credited: the picked count is never
      negative and only goes past zero while it stays within the requirement
      (so picked <= required whenever required >= 0). */
  predicate WithinRequirement(item: OrderItem) {
    0 <= item.quantityPicked && (item.quantityPicked == 0 || item.quantityPicked <= item.quantityRequired)
  }

  /** The working map and its key order agree, and every record is keyed
      by its own SKU and within its requirement. */
  ghost predicate WellFormed(keys: seq<string>, m: PickState) {
    && Distinct(keys)
    && (forall k :: k in keys <==> k in m)
    && (forall k :: k in m ==> m[k].sku == k && WithinRequirement(m[k]))
  }

  /** The shortfalls of `m`, listed in the order of `keys`. */
  function Shortfalls(keys: seq<string>, m: PickState): (r: seq<Remaining>)
    requires forall k :: k in keys ==> k in m
    ensures |r| <= |keys|
  {
    if keys == [] then []
    else
      var front, item := keys[..|keys| - 1], m[keys[|keys| - 1]];
      var rest := Shortfalls(front, m);
      var missing := item.quantityRequired - item.quantityPicked;
      if missing > 0 then rest + [Remaining(item.sku, missing)] else rest
  }

  /** The shortfall list holds exactly the SKUs of `keys` that still miss
      something, each with required minus picked. */
  lemma {:induction false} ShortfallsExact(keys: seq<string>, m: PickState, sku: string, n: int)
    requires forall k :: k in keys ==> k in m && m[k].sku == k
    ensures Remaining(sku, n) in Shortfalls(keys, m) <==>
            sku in keys && n == m[sku].quantityRequired - m[sku].quantityPicked && n > 0
  {
    if keys != [] {
      var front := keys[..|keys| - 1];
      assert forall k :: k in front ==> k in keys;
      ShortfallsExact(front, m, sku, n);
      assert keys == front + [keys[|keys| - 1]];
    }
  }

  /** The shortfall list names each SKU at most once, since the keys do. */
  lemma {:induction false} ShortfallSkusDistinct(keys: seq<string>, m: PickState)
    requires Distinct(keys)
    requires forall k :: k in keys ==> k in m && m[k].sku == k
    ensures forall i, j :: 0 <= i < j < |Shortfalls(keys, m)| ==> Shortfalls(keys, m)[i].sku != Shortfalls(keys, m)[j].sku
  {
    if keys != [] {
      var front, last := keys[..|keys| - 1], keys[|keys| - 1];
      assert forall k :: k in front ==> k in keys;
      ShortfallSkusDistinct(front, m);
      var rest := Shortfalls(front, m);
      forall e | e in rest
        ensures e.sku != last
      {
        ShortfallsExact(front, m, e.sku, e.remaining);
        var p :| 0 <= p < |front| && front[p] == e.sku;
      }
    }
  }

  /** Every record has met its requirement exactly when nothing is short. */
  lemma AllPickedIffNoShortfall(keys: seq<string>, m: PickState)
    requires forall k :: k in keys <==> k in m
    requires forall k :: k in m ==> m[k].sku == k
    ensures (forall k :: k in m ==> m[k].quantityPicked >= m[k].quantityRequired)
            <==> Shortfalls(keys, m) == []
  {
    var r := Shortfalls(keys, m);
    if r != [] {
      ShortfallsExact(keys, m, r[0].sku, r[0].remaining);
    } else {
      forall k | k in m ensures m[k].quantityPicked >= m[k].quantityRequired {
        ShortfallsExact(keys, m, k, m[k].quantityRequired - m[k].quantityPicked);
      }
    }
  }

  class ItemMatcher {
    /** SKU -> working record (`current_items`). */
    var currentItems: PickState
    /** The iteration order of `current_items`. */
    var keyOrder: seq<string>

    ghost predicate Valid()
      reads this
    {
      WellFormed(keyOrder, currentItems)
    }

    constructor ()
      ensures Valid() && currentItems == map[] && keyOrder == []
    {
      currentItems, keyOrder := map[], [];
    }

    /** Replaces the whole working map by a fresh one built from `items`;
        nothing of an earlier load survives. */
    method LoadOrderItems(items: seq<LineItem>)
      modifies this
      ensures Valid()
      ensures currentItems == Loaded(items) && keyOrder == KeyOrder(items)
    {
      var m: PickState := map[];
      var keys: seq<string> := [];
      for n := 0 to |items|
        invariant m == Loaded(items[..n]) && keys == KeyOrder(items[..n])
      {
        var item := items[n];
        assert items[..n + 1][..n] == items[..n];
        if item.sku !in m {
          keys := keys + [item.sku];
        }
        m := m[item.sku := OrderItem(item.sku, item.quantity, 0)];
      }
      assert items[..|items|] == items;
      currentItems, keyOrder := m, keys;
    }

    /** Validates one scanned SKU against the order: refuses when nothing is
        loaded, reports an unknown SKU or one already fully picked without
        touching any count, and otherwise credits exactly one unit. */
    method CheckItem(sku: string) returns (r: Result<Verdict, MatcherError>)
      requires Valid()
      modifies this
      ensures Valid() && keyOrder == old(keyOrder)
      ensures old(currentItems) == map[] ==>
                r == Err(NoOrderItemsLoaded) && currentItems == old(currentItems)
      ensures old(currentItems) != map[] && sku !in old(currentItems) ==>
                r == Ok(Verdict(false, false, NotInOrderMessage(sku))) && currentItems == old(currentItems)
      ensures sku in old(currentItems) &&
              old(currentItems)[sku].quantityPicked >= old(currentItems)[sku].quantityRequired ==>
                r == Ok(Verdict(false, false, AlreadyPickedMessage(sku))) && currentItems == old(currentItems)
      ensures sku in old(currentItems) &&
              old(currentItems)[sku].quantityPicked < old(currentItems)[sku].quantityRequired ==>
                && currentItems == old(currentItems)[sku := old(currentItems)[sku].(quantityPicked := old(currentItems)[sku].quantityPicked + 1)]
                && r == Ok(Verdict(true, IsOrderComplete(), ItemValidated))
    {
      if currentItems == map[] {
        return Err(NoOrderItemsLoaded);
      }
      if sku !in currentItems {
        return Ok(Verdict(false, false, NotInOrderMessage(sku)));
      }
      var item := currentItems[sku];
      if item.quantityPicked >= item.quantityRequired {
        return Ok(Verdict(false, false, AlreadyPickedMessage(sku)));
      }
      currentItems := currentItems[sku := item.(quantityPicked := item.quantityPicked + 1)];
      r := Ok(Verdict(true, IsOrderComplete(), ItemValidated));
    }

    /** Whole-order completion: every record has reached its requirement,
        which is the same as having no shortfall left. An empty map is
        vacuously complete, and in a complete order every record with a
        requirement that is not negative was picked exactly that often. */
    predicate IsOrderComplete()
      reads this
      ensures currentItems == map[] ==> IsOrderComplete()
      ensures Valid() && IsOrderComplete() ==>
                forall k :: k in currentItems && currentItems[k].quantityRequired >= 0 ==>
                  currentItems[k].quantityPicked == currentItems[k].quantityRequired
    {
      forall k :: k in currentItems ==> currentItems[k].quantityPicked >= currentItems[k].quantityRequired
    }

    /** `IsOrderComplete` holds exactly when `GetRemainingItems` would list nothing. */
    lemma CompleteIffNothingRemains()
      requires Valid()
      ensures IsOrderComplete() <==> Shortfalls(keyOrder, currentItems) == []
      ensures currentItems == map[] ==> IsOrderComplete()
    {
      AllPickedIffNoShortfall(keyOrder, currentItems);
    }

    /** Given a requirement that is not negative, no record is ever credited
        past it. */
    lemma NeverOverCredited()
      requires Valid()
      ensures forall k :: k in currentItems && currentItems[k].quantityRequired >= 0 ==>
                currentItems[k].quantityPicked <= currentItems[k].quantityRequired
    {
    }

    /** Lists, in map order, every SKU with required minus picked above
        zero, paired with that difference. */
    method GetRemainingItems() returns (remaining: seq<Remaining>)
      requires Valid()
      ensures remaining == Shortfalls(keyOrder, currentItems)
      ensures forall sku, n :: Remaining(sku, n) in remaining <==>
                sku in currentItems && n == currentItems[sku].quantityRequired - currentItems[sku].quantityPicked && n > 0
      ensures forall i, j :: 0 <= i < j < |remaining| ==> remaining[i].sku != remaining[j].sku
    {
      remaining := [];
      for i := 0 to |keyOrder|
        invariant remaining == Shortfalls(keyOrder[..i], currentItems)
      {
        assert keyOrder[..i + 1][..i] == keyOrder[..i];
        var item := currentItems[keyOrder[i]];
        var missing := item.quantityRequired - item.quantityPicked;
        if missing > 0 {
          remaining := remaining + [Remaining(item.sku, missing)];
        }
      }
      assert keyOrder[..|keyOrder|] == keyOrder;
      forall sku, n ensures Remaining(sku, n) in remaining <==>
          sku in currentItems && n == currentItems[sku].quantityRequired - currentItems[sku].quantityPicked && n > 0
      {
        ShortfallsExact(keyOrder, currentItems, sku, n);
      }
      ShortfallSkusDistinct(keyOrder, currentItems);
    }

    /** Clears the working map, so that `CheckItem` refuses until the next load. */
    method Reset()
      modifies this
      ensures Valid() && currentItems == map[] && keyOrder == []
    {
      currentItems, keyOrder := map[], [];
    }
  }
  /** The order of the matcher's own tests. */
  const SampleItems: seq<LineItem> := [LineItem("ABC123", 2), LineItem("XYZ789", 1)]

  /** What loading the sample order builds. */
  lemma SampleItemsLoad()
    ensures Loaded(SampleItems) == map["ABC123" := OrderItem("ABC123", 2, 0), "XYZ789" := OrderItem("XYZ789", 1, 0)]
    ensures KeyOrder(SampleItems) == ["ABC123", "XYZ789"]
  {
    assert SampleItems[..1] == [LineItem("ABC123", 2)];
    assert [LineItem("ABC123", 2)][..0] == [];
  }

  /** The working map of the sample order after `abc` ABC123 and `xyz`
      XYZ789 accepted scans. */
  const SampleKeys: seq<string> := ["ABC123", "XYZ789"]

  function SampleState(abc: int, xyz: int): PickState {
    map["ABC123" := OrderItem("ABC123", 2, abc), "XYZ789" := OrderItem("XYZ789", 1, xyz)]
  }

  /** The matcher's own test scenario, first step: a fresh matcher refuses
      every scan, and loading the sample order gives two records with
      nothing picked. */
  method SampleScenarioFirstScans() returns (matcher: ItemMatcher)
    ensures fresh(matcher)
    ensures matcher.Valid() && matcher.currentItems == SampleState(0, 0) && matcher.keyOrder == SampleKeys
  {
    matcher := new ItemMatcher();
    var r := matcher.CheckItem("ABC123");
    assert r == Err(NoOrderItemsLoaded);
    matcher.LoadOrderItems(SampleItems);
    SampleItemsLoad();
    assert matcher.currentItems == SampleState(0, 0);
  }

  /** An unknown SKU is refused by name and changes nothing. */
  method SampleScenarioRefusesUnknown(matcher: ItemMatcher)
    requires matcher.Valid() && matcher.currentItems == SampleState(0, 0) && matcher.keyOrder == SampleKeys
    modifies matcher
    ensures matcher.Valid() && matcher.currentItems == SampleState(0, 0) && matcher.keyOrder == SampleKeys
  {
    assert "ABC123" in matcher.currentItems && "INVALID" !in matcher.currentItems by {
      assert "INVALID"[0] != "ABC123"[0] && "INVALID"[0] != "XYZ789"[0];
    }
    var r := matcher.CheckItem("INVALID");
    assert r == Ok(Verdict(false, false, NotInOrderMessage("INVALID")));
  }

  /** One ABC123 scan below its requirement of two is accepted and does
      not complete the order, XYZ789 being still unpicked. */
  method SampleScenarioScanAbc(matcher: ItemMatcher, abc: int)
    requires 0 <= abc < 2
    requires matcher.Valid() && matcher.currentItems == SampleState(abc, 0) && matcher.keyOrder == SampleKeys
    modifies matcher
    ensures matcher.Valid() && matcher.currentItems == SampleState(abc + 1, 0) && matcher.keyOrder == SampleKeys
  {
    var r := matcher.CheckItem("ABC123");
    assert matcher.currentItems == SampleState(abc + 1, 0);
    assert !matcher.IsOrderComplete() by { assert matcher.currentItems["XYZ789"].quantityPicked == 0; }
    assert r == Ok(Verdict(true, false, ItemValidated));
  }

  /** The sample order with one ABC123 picked: both SKUs miss exactly one
      unit, and an XYZ789 scan is then accepted without completing the
      order. */
  method SampleScenarioOnePick(matcher: ItemMatcher)
    requires matcher.Valid() && matcher.currentItems == SampleState(1, 0) && matcher.keyOrder == SampleKeys
    modifies matcher
    ensures matcher.Valid() && matcher.currentItems == SampleState(1, 1) && matcher.keyOrder == SampleKeys
  {
    var left := matcher.GetRemainingItems();
    assert SampleKeys[..1] == ["ABC123"] && ["ABC123"][..0] == [];
    assert left == [Remaining("ABC123", 1), Remaining("XYZ789", 1)];
    var r := matcher.CheckItem("XYZ789");
    assert matcher.currentItems == SampleState(1, 1);
    assert !matcher.IsOrderComplete() by { assert matcher.currentItems["ABC123"].quantityPicked == 1; }
    assert r == Ok(Verdict(true, false, ItemValidated));
  }

  /** A third ABC123 is refused as already picked and changes nothing;
      the remaining list is then exactly XYZ789 (1). */
  method SampleScenarioRefusesThird(matcher: ItemMatcher)
    requires matcher.Valid() && matcher.currentItems == SampleState(2, 0) && matcher.keyOrder == SampleKeys
    modifies matcher
    ensures matcher.Valid() && matcher.currentItems == SampleState(2, 0) && matcher.keyOrder == SampleKeys
  {
    var r := matcher.CheckItem("ABC123");
    assert r == Ok(Verdict(false, false, AlreadyPickedMessage("ABC123")));
    var left := matcher.GetRemainingItems();
    assert SampleKeys[..1] == ["ABC123"] && ["ABC123"][..0] == [];
    assert left == [Remaining("XYZ789", 1)];
  }

  /** With both ABC123 picked, the XYZ789 scan is accepted and completes
      the order. */
  method SampleScenarioCompletion(matcher: ItemMatcher)
    requires matcher.Valid() && matcher.currentItems == SampleState(2, 0) && matcher.keyOrder == SampleKeys
    modifies matcher
    ensures matcher.Valid() && matcher.currentItems == SampleState(2, 1) && matcher.keyOrder == SampleKeys
  {
    var r := matcher.CheckItem("XYZ789");
    assert matcher.currentItems == SampleState(2, 1);
    assert r == Ok(Verdict(true, true, ItemValidated));
  }

  /** After a reset the map is empty and every scan is refused again. */
  method SampleScenarioReset(matcher: ItemMatcher)
    requires matcher.Valid()
    modifies matcher
    ensures matcher.Valid() && matcher.currentItems == map[] && matcher.keyOrder == []
  {
    matcher.Reset();
    var r := matcher.CheckItem("ABC123");
    assert r == Err(NoOrderItemsLoaded);
  }


  /** The whole run: load, refuse INVALID, two accepted ABC123 scans, a
      refused third one, the XYZ789 scan that completes the order, and the
      reset. */
  method SampleScenarioOrderCompletion() returns (matcher: ItemMatcher)
    ensures matcher.Valid() && matcher.currentItems == map[] && matcher.keyOrder == []
  {
    matcher := SampleScenarioFirstScans();
    SampleScenarioRefusesUnknown(matcher);
    SampleScenarioScanAbc(matcher, 0);
    SampleScenarioScanAbc(matcher, 1);
    SampleScenarioRefusesThird(matcher);
    SampleScenarioCompletion(matcher);
    SampleScenarioReset(matcher);
  }
}
