/** The shipping service's message consumer: a CREATE event stores a
    shipment, an UPDATE event changes a shipment's status, and any other tag
    (DELETE included) is refused. */
module ShippingProcessor {
  import opened Common
  import opened Api
  import opened Events
  import Shipping

  /** The shipping entity the consumer deserializes each payload into. */
  datatype ShippingRecord = ShippingRecord(orderId: int, shippingAddress: string, status: string)

  /** `entityToCreateDto`: a field-by-field copy. */
  function ToCreate(rec: ShippingRecord): (dto: ShippingCreate)
    ensures dto.orderId == rec.orderId && dto.shippingAddress == rec.shippingAddress && dto.status == rec.status
  {
    ShippingCreate(rec.orderId, rec.shippingAddress, rec.status)
  }

  datatype ShippingCommand =
    | Create(dto: ShippingCreate)
    | UpdateStatus(orderId: int, status: string)
    | Reject(error: Error)

  /** The switch on the event's tag. Both handled tags read the single
      payload; a batch payload reads as null there. The key is not used. */
  function Route(event: Event<ShippingRecord>): (c: ShippingCommand)
    ensures event.eventType == CREATE && event.payload.Single? ==> c == Create(ToCreate(event.payload.data))
    ensures event.eventType == UPDATE && event.payload.Single? ==>
              c == UpdateStatus(event.payload.data.orderId, event.payload.data.status)
    ensures (event.eventType == CREATE || event.eventType == UPDATE) && event.payload.Batch? ==> c == Reject(NullPointer)
    ensures event.eventType != CREATE && event.eventType != UPDATE ==> c == Reject(IncorrectType(event.eventType))
  {
    match event.eventType
    case CREATE =>
      if event.payload.Single? then Create(ToCreate(event.payload.data)) else Reject(NullPointer)
    case UPDATE =>
      if event.payload.Single? then UpdateStatus(event.payload.data.orderId, event.payload.data.status)
      else Reject(NullPointer)
    case _ => Reject(IncorrectType(event.eventType))
  }

  /** `messageProcessor`. Creation validates nothing up front, so a duplicate
      is only logged; the status update validates the order id before it
      builds its pipeline, so an invalid id escapes the consumer while a
      missing shipment is only logged. */
  method ProcessMessage(service: Shipping.ShippingService, event: Event<ShippingRecord>) returns (c: Completion)
    modifies service
    ensures match Route(event)
            case Create(dto) =>
              var spec := Shipping.AfterCreate(old(service.shipments), dto);
              service.shipments == (if spec.Success? then spec.value else old(service.shipments)) && c == Completed
            case UpdateStatus(orderId, status) =>
              var spec := Shipping.AfterStatusUpdate(old(service.shipments), orderId, status);
              service.shipments == (if spec.Success? then spec.value else old(service.shipments)) &&
              c == (if orderId >= 1 then Completed else Thrown(spec.error))
            case Reject(e) =>
              service.shipments == old(service.shipments) && c == Thrown(e)
  {
    match Route(event)
    case Create(dto) =>
      var _ := service.CreateShippingOrder(dto);
      c := Completed;
    case UpdateStatus(orderId, status) =>
      var reply := service.UpdateShippingStatusByOrderId(orderId, status);
      c := if reply.Failure? && orderId < 1 then Thrown(reply.error) else Completed;
    case Reject(e) =>
      c := Thrown(e);
  }
}
