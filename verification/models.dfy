/** The Swift app's value types: an order line that carries its own picked
    count, and an order made of such lines. Both are structs; a `let`
    property is fixed for the life of the value, so the only thing that
    ever changes is a line's `quantityPicked`, by building a new value. */
module Models {

  /** The range of Swift's `Int` on the 64-bit platforms the app runs on. */
  const IntMin: int := -0x8000_0000_0000_0000
  const IntMax: int := 0x7FFF_FFFF_FFFF_FFFF

  predicate IsInt(x: int) {
    IntMin <= x <= IntMax
  }

  /** `OrderItem`: a line of the order and how many of it have been picked. */
  datatype OrderItem = OrderItem(sku: string, name: string, quantity: int, quantityPicked: int)
  {
    /** The line is done once the picked count has reached the quantity. */
    predicate IsComplete() {
      quantityPicked >= quantity
    }
  }

  /** The memberwise initialiser, which gives `quantityPicked` its default 0.
      Such a fresh line is complete from the start exactly when its
      quantity is not positive. */
  function NewOrderItem(sku: string, name: string, quantity: int): (item: OrderItem)
    ensures item.sku == sku && item.name == name && item.quantity == quantity
    ensures item.quantityPicked == 0
    ensures item.IsComplete() <==> quantity <= 0
  {
    OrderItem(sku, name, quantity, 0)
  }

  /** `Order`: fixed identifier, customer and date, and the lines. */
  datatype Order = Order(orderId: string, customer: string, date: string, items: seq<OrderItem>)
  {
    /** `items.allSatisfy { $0.isComplete }`: an order with no lines is
        complete, and an incomplete order has a line that is not done. */
    predicate IsComplete()
      ensures items == [] ==> IsComplete()
      ensures !IsComplete() ==> exists i :: 0 <= i < |items| && !items[i].IsComplete()
    {
      forall i :: 0 <= i < |items| ==> items[i].IsComplete()
    }
  }

  /** The lines of `after` are those of `before` with picked counts that are
      never lower; everything else about the lines is the same. */
  predicate PickedAtLeast(before: Order, after: Order) {
    && |after.items| == |before.items|
    && forall i :: 0 <= i < |before.items| ==>
         && after.items[i].quantity == before.items[i].quantity
         && after.items[i].quantityPicked >= before.items[i].quantityPicked
  }

  /** An order is incomplete exactly when some line is still short, so an
      order with no lines at all is complete. */
  lemma IncompleteIffSomeLineShort(order: Order)
    ensures !order.IsComplete() <==>
              exists i :: 0 <= i < |order.items| && order.items[i].quantityPicked < order.items[i].quantity
    ensures order.items == [] ==> order.IsComplete()
  {
  }

  /** Completion is monotone: raising picked counts never turns a complete
      order incomplete. */
  lemma CompletionIsMonotone(before: Order, after: Order)
    requires PickedAtLeast(before, after)
    requires before.IsComplete()
    ensures after.IsComplete()
  {
    forall i | 0 <= i < |after.items| ensures after.items[i].IsComplete() {
      assert before.items[i].IsComplete();
    }
  }
}
