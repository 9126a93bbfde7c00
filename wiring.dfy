/** How a message the composite adapter publishes reaches a core service's
    consumer: the consumer deserializes each payload into its own entity
    type, then routes the event. A payload that does not deserialize into
    that entity never reaches the consumer. */
module Wiring {
  import opened Common
  import opened Api
  import opened Events
  import opened Integration
  import InventoryProcessor
  import ShippingProcessor
  import OrderProcessor

  /** The inventory consumer's view of a payload. */
  function DecodeStock(p: OutPayload): (r: Option<InventoryProcessor.StockRecord>)
    ensures r.Some? <==> p.Adjustment?
    ensures r.Some? ==> InventoryProcessor.ToAdjustment(r.value) == p.req
  {
    match p
    case Adjustment(req) => Some(InventoryProcessor.StockRecord(req.productId, req.quantity))
    case _ => None
  }

  /** The shipping consumer's view of a payload. A bare string is no
      shipping record; a record that names only the order and the status
      leaves the address empty. */
  function DecodeShipping(p: OutPayload): (r: Option<ShippingProcessor.ShippingRecord>)
    ensures r.Some? <==> p.NewShipping? || p.ShippingChange?
    ensures p.NewShipping? ==> r.Some? && ShippingProcessor.ToCreate(r.value) == p.dto
    ensures p.ShippingChange? ==> r.Some? && r.value.orderId == p.orderId && r.value.status == p.status
  {
    match p
    case NewShipping(dto) => Some(ShippingProcessor.ShippingRecord(dto.orderId, dto.shippingAddress, dto.status))
    case ShippingChange(orderId, status) => Some(ShippingProcessor.ShippingRecord(orderId, "", status))
    case _ => None
  }

  /** The order consumer's view of a payload. */
  function DecodeOrder(p: OutPayload): (r: Option<OrderProcessor.OrderRecord>)
    ensures r.Some? <==> p.OrderChange?
    ensures r.Some? ==> r.value.status == p.update.status
  {
    match p
    case OrderChange(update) => Some(OrderProcessor.OrderRecord(update.status))
    case _ => None
  }

  /** Every element decodes, or the list does not. */
  function DecodeAll<T>(xs: seq<OutPayload>, decode: OutPayload -> Option<T>): (r: Option<seq<T>>)
    ensures r.Some? <==> forall i :: 0 <= i < |xs| ==> decode(xs[i]).Some?
    ensures r.Some? ==> |r.value| == |xs| && forall i :: 0 <= i < |xs| ==> r.value[i] == decode(xs[i]).value
    decreases |xs|
  {
    if xs == [] then Some([])
    else
      match decode(xs[0])
      case None => None
      case Some(v) =>
        match DecodeAll(xs[1..], decode)
        case None => None
        case Some(rest) => Some([v] + rest)
  }

  /** The event as the consumer receives it, if its payload deserializes:
      tag and key are carried over. */
  function Deliver<T>(m: Message, decode: OutPayload -> Option<T>): (r: Option<Event<T>>)
    ensures r.Some? ==> r.value.eventType == m.event.eventType && r.value.key == m.event.key
    ensures m.event.payload.Single? ==>
              (r.Some? <==> decode(m.event.payload.data).Some?) &&
              (r.Some? ==> r.value.payload == Single(decode(m.event.payload.data).value))
    ensures m.event.payload.Batch? ==>
              (r.Some? <==> DecodeAll(m.event.payload.dataList, decode).Some?) &&
              (r.Some? ==> r.value.payload == Batch(DecodeAll(m.event.payload.dataList, decode).value))
  {
    match m.event.payload
    case Single(data) =>
      (match decode(data)
       case None => None
       case Some(v) => Some(Event(m.event.eventType, m.event.key, Single(v))))
    case Batch(list) =>
      (match DecodeAll(list, decode)
       case None => None
       case Some(vs) => Some(Event(m.event.eventType, m.event.key, Batch(vs))))
  }

  /** An increase published by the adapter makes the inventory consumer
      increase the same product by the same quantity. */
  lemma IncreaseStockReachesInventory(req: StockAdjustment)
    ensures var e := Deliver(IncreaseStockMessage(req), DecodeStock);
            e.Some? && InventoryProcessor.Route(e.value) == InventoryProcessor.Increase(req)
  {
  }

  /** A batch of reductions published by the adapter makes the inventory
      consumer apply the same requests in the same order. */
  lemma ReduceStocksReachesInventory(reqs: seq<StockAdjustment>)
    ensures var e := Deliver(ReduceStocksMessage(reqs), DecodeStock);
            e.Some? && InventoryProcessor.Route(e.value) == InventoryProcessor.Reduce(reqs)
  {
    var m := ReduceStocksMessage(reqs);
    var list := m.event.payload.dataList;
    assert forall i :: 0 <= i < |list| ==> list[i] == Adjustment(reqs[i]);
    var e := Deliver(m, DecodeStock);
    var c := InventoryProcessor.Route(e.value);
    assert c.reqs == reqs;
  }

  /** A shipment published by the adapter makes the shipping consumer
      create the same shipment. */
  lemma CreateShippingReachesShipping(dto: ShippingCreate)
    ensures var e := Deliver(CreateShippingMessage(dto), DecodeShipping);
            e.Some? && ShippingProcessor.Route(e.value) == ShippingProcessor.Create(dto)
  {
  }

  /** An order update published by the adapter makes the order consumer
      update the same order with the same status. */
  lemma OrderUpdateReachesOrders(orderId: int, update: OrderUpdate)
    ensures var e := Deliver(OrderUpdateMessage(orderId, update), DecodeOrder);
            e.Some? && OrderProcessor.Route(e.value) == OrderProcessor.Update(orderId, update)
  {
  }

  /** As written, the status update's payload is a bare string, which the
      shipping consumer cannot read as a shipping record: the update never
      reaches the shipping service. */
  lemma ShippingStatusAsWrittenUndelivered(orderId: int, status: string)
    ensures Deliver(ShippingStatusMessageAsWritten(orderId, status), DecodeShipping).None?
  {
  }

  /** With the order id in the payload, the shipping consumer updates the
      status of the order the adapter named. */
  lemma ShippingStatusReachesShipping(orderId: int, status: string)
    ensures var e := Deliver(ShippingStatusMessage(orderId, status), DecodeShipping);
            e.Some? && ShippingProcessor.Route(e.value) == ShippingProcessor.UpdateStatus(orderId, status)
  {
  }
}
