/** The order service's message consumer: an UPDATE event sets an order's
    status; any other tag (CREATE included) is refused. */
module OrderProcessor {
  import opened Common
  import opened Api
  import opened Events
  import Orders

  /** The order entity the consumer deserializes the payload into; only its
      status is read. */
  datatype OrderRecord = OrderRecord(status: Option<string>)

  datatype OrderCommand =
    | Update(orderId: int, update: OrderUpdate)
    | Reject(error: Error)

  /** The switch on the event's tag. The order id is the event key, unboxed
      to an `int`, so a missing key is a null dereference, as is a batch
      payload. */
  function Route(event: Event<OrderRecord>): (c: OrderCommand)
    ensures event.eventType == UPDATE && event.key.Some? && event.payload.Single? ==>
              c == Update(event.key.value, OrderUpdate(event.payload.data.status))
    ensures event.eventType == UPDATE && (event.key.None? || event.payload.Batch?) ==> c == Reject(NullPointer)
    ensures event.eventType != UPDATE ==> c == Reject(IncorrectType(event.eventType))
  {
    match event.eventType
    case UPDATE =>
      if event.key.None? || event.payload.Batch? then Reject(NullPointer)
      else Update(event.key.value, OrderUpdate(event.payload.data.status))
    case _ => Reject(IncorrectType(event.eventType))
  }

  /** `messageProcessor`. The update validates the order id before it builds
      its pipeline, so an invalid id escapes the consumer while a missing
      order is only logged. */
  method ProcessMessage(service: Orders.OrderService, event: Event<OrderRecord>) returns (c: Completion)
    requires service.Valid()
    modifies service
    ensures service.Valid()
    ensures match Route(event)
            case Update(orderId, update) =>
              var spec := Orders.AfterUpdate(old(service.orders), orderId, update);
              service.orders == (if spec.Success? then spec.value else old(service.orders)) &&
              c == (if orderId >= 1 then Completed else Thrown(spec.error))
            case Reject(e) =>
              service.orders == old(service.orders) && c == Thrown(e)
  {
    match Route(event)
    case Update(orderId, update) =>
      var reply := service.UpdateOrder(orderId, update);
      c := if reply.Failure? && orderId < 1 then Thrown(reply.error) else Completed;
    case Reject(e) =>
      c := Thrown(e);
  }
}
