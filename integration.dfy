/** The composite service's adapter to the four core services: it publishes
    events on three output bindings, reads back through HTTP, and translates
    HTTP error responses into the domain's exceptions. */
module Integration {
  import opened Common
  import opened Text
  import opened Api
  import opened Events
  import opened Urls

  // ---------------------------------------------------------------------
  // Error translation
  // ---------------------------------------------------------------------

  /** What reaches the error handler: an HTTP error response (status code,
      body and the exception's own message) or any other exception. */
  datatype Throwable =
    | ResponseError(statusCode: int, body: string, message: string)
    | Raised(error: Error)

  /** The status codes `HttpStatus.resolve` knows; every other code resolves
      to null. */
  predicate Registered(code: int) {
    (100 <= code <= 103) || (200 <= code <= 208) || code == 226 ||
    (300 <= code <= 305) || code == 307 || code == 308 ||
    (400 <= code <= 426) || code == 428 || code == 429 || code == 431 || code == 451 ||
    (500 <= code <= 511)
  }

  /** `getErrorMessage`: the `message` field of the body read as an error
      record, or the exception's own message when the body does not parse.
      The JSON reader is the parameter `parse`. */
  function ErrorMessage(ex: Throwable, parse: string -> Option<string>): (m: string)
    requires ex.ResponseError?
    ensures parse(ex.body).Some? ==> m == parse(ex.body).value
    ensures parse(ex.body).None? ==> m == ex.message
  {
    match parse(ex.body)
    case Some(msg) => msg
    case None => ex.message
  }

  /** `handleException` as written: the switch is on the resolved status, so
      an unregistered code dereferences null inside the handler. */
  function HandleExceptionAsWritten(ex: Throwable, parse: string -> Option<string>): (r: Result<Throwable>)
    ensures r.Failure? <==> ex.ResponseError? && !Registered(ex.statusCode)
    ensures r.Failure? ==> r.error == NullPointer
  {
    match ex
    case Raised(_) => Success(ex)
    case ResponseError(code, _, _) =>
      if !Registered(code) then Failure(NullPointer)
      else if code == 404 then Success(Raised(NotFound(ErrorMessage(ex, parse))))
      else if code == 422 then Success(Raised(InvalidInput(ErrorMessage(ex, parse))))
      else Success(ex)
  }

  /** `handleException` as intended: 404 becomes NotFound and 422 becomes
      InvalidInput, both carrying the error message; every other response,
      and every other exception, passes through unchanged. */
  function HandleException(ex: Throwable, parse: string -> Option<string>): (r: Throwable)
    ensures ex.ResponseError? && ex.statusCode == 404 ==> r == Raised(NotFound(ErrorMessage(ex, parse)))
    ensures ex.ResponseError? && ex.statusCode == 422 ==> r == Raised(InvalidInput(ErrorMessage(ex, parse)))
    ensures r != ex <==> ex.ResponseError? && (ex.statusCode == 404 || ex.statusCode == 422)
  {
    match ex
    case Raised(_) => ex
    case ResponseError(code, _, _) =>
      if code == 404 then Raised(NotFound(ErrorMessage(ex, parse)))
      else if code == 422 then Raised(InvalidInput(ErrorMessage(ex, parse)))
      else ex
  }

  /** The handler as written and as intended agree on every exception the
      written one does not crash on; translating twice is translating once. */
  lemma HandleExceptionAgrees(ex: Throwable, parse: string -> Option<string>)
    ensures (ex.Raised? || Registered(ex.statusCode)) ==>
              HandleExceptionAsWritten(ex, parse) == Success(HandleException(ex, parse))
    ensures HandleException(HandleException(ex, parse), parse) == HandleException(ex, parse)
  {
  }

  /** A 499 response (a code servers and proxies do send, but which
      `HttpStatus` does not register) makes the handler as written throw a
      null dereference instead of passing the response on. */
  lemma UnregisteredStatusCrashesHandler(parse: string -> Option<string>)
    ensures var ex := ResponseError(499, "", "499 Client Closed Request");
            HandleExceptionAsWritten(ex, parse) == Failure(NullPointer) &&
            HandleException(ex, parse) == ex
  {
  }

  // ---------------------------------------------------------------------
  // Publishing
  // ---------------------------------------------------------------------

  /** What the adapter publishes: stock adjustments, a shipment to create, a
      shipment's new status (as written, a bare status string; as intended,
      the order id with the status), or an order change. */
  datatype OutPayload =
    | Adjustment(req: StockAdjustment)
    | NewShipping(dto: ShippingCreate)
    | ShippingStatus(status: string)
    | ShippingChange(orderId: int, status: string)
    | OrderChange(update: OrderUpdate)

  /** A message handed to the stream bridge: the output binding, the event
      as payload and the "partitionKey" header. */
  datatype Message = Message(binding: string, event: Event<OutPayload>, partitionKey: Option<int>)

  const InventoriesOut := "inventories-out-0"
  const ShipmentsOut := "shipments-out-0"
  const OrdersOut := "orders-out-0"

  /** The partition key header is the event's key. */
  predicate Partitioned(m: Message) {
    m.partitionKey == m.event.key
  }

  /** `sendEvent` followed by `sendMessage`: the envelope built from tag,
      key and payload, sent with its key as the partition key. */
  function Envelope(binding: string, eventType: EventType, key: Option<int>, payload: Payload<OutPayload>): (m: Message)
    ensures Partitioned(m)
    ensures m.binding == binding && m.event == Event(eventType, key, payload)
  {
    Message(binding, Event(eventType, key, payload), key)
  }

  /** The message `increaseStock` publishes: keyed by the product. */
  function IncreaseStockMessage(req: StockAdjustment): (m: Message)
    ensures Partitioned(m) && m.partitionKey == Some(req.productId)
  {
    Envelope(InventoriesOut, INCREASE_STOCK, Some(req.productId), Single(Adjustment(req)))
  }

  /** The message `reduceStocks` publishes: the whole list under no key. */
  function ReduceStocksMessage(reqs: seq<StockAdjustment>): (m: Message)
    ensures Partitioned(m) && m.partitionKey == None
    ensures m.event.payload.Batch? && |m.event.payload.dataList| == |reqs|
  {
    Envelope(InventoriesOut, REDUCE_STOCKS, None, Batch(seq(|reqs|, i requires 0 <= i < |reqs| => Adjustment(reqs[i]))))
  }

  /** The message `createShippingOrder` publishes: keyed by the order. */
  function CreateShippingMessage(dto: ShippingCreate): (m: Message)
    ensures Partitioned(m) && m.partitionKey == Some(dto.orderId)
  {
    Envelope(ShipmentsOut, CREATE, Some(dto.orderId), Single(NewShipping(dto)))
  }

  /** The message `updateShippingStatusByOrderId` publishes as written: the
      order id is only the key, the payload is the bare status. */
  function ShippingStatusMessageAsWritten(orderId: int, status: string): (m: Message)
    ensures Partitioned(m) && m.partitionKey == Some(orderId)
  {
    Envelope(ShipmentsOut, UPDATE, Some(orderId), Single(ShippingStatus(status)))
  }

  /** The status update as intended: the payload names the order too. */
  function ShippingStatusMessage(orderId: int, status: string): (m: Message)
    ensures Partitioned(m) && m.partitionKey == Some(orderId)
  {
    Envelope(ShipmentsOut, UPDATE, Some(orderId), Single(ShippingChange(orderId, status)))
  }

  /** The message `updateOrder` publishes: keyed by the order. */
  function OrderUpdateMessage(orderId: int, update: OrderUpdate): (m: Message)
    ensures Partitioned(m) && m.partitionKey == Some(orderId)
  {
    Envelope(OrdersOut, UPDATE, Some(orderId), Single(OrderChange(update)))
  }

  /** The adapter as written: its configured base URLs and the messages it
      has handed to the stream bridge so far. Each operation that publishes
      returns the URL it reads back from afterwards. The intended URLs are
      `Urls.Url`, and the intended status message is `ShippingStatusMessage`. */
  class CompositeIntegration {
    const urls: ServiceUrls
    var outbox: seq<Message>

    ghost predicate Valid()
      reads this
    {
      forall i :: 0 <= i < |outbox| ==> Partitioned(outbox[i])
    }

    constructor (urls: ServiceUrls)
      ensures Valid() && this.urls == urls && outbox == []
    {
      this.urls := urls;
      outbox := [];
    }

    /** `sendMessage`. */
    method SendMessage(binding: string, event: Event<OutPayload>)
      requires Valid()
      modifies this
      ensures Valid()
      ensures outbox == old(outbox) + [Envelope(binding, event.eventType, event.key, event.payload)]
    {
      outbox := outbox + [Message(binding, event, event.key)];
    }

    /** `increaseStock`: publish, then read the product's stock back. */
    method IncreaseStock(req: StockAdjustment) returns (fetchUrl: string)
      requires Valid()
      modifies this
      ensures Valid()
      ensures outbox == old(outbox) + [IncreaseStockMessage(req)]
      ensures fetchUrl == Url(urls, InventoryStock(req.productId))
    {
      SendMessage(InventoriesOut, Event(INCREASE_STOCK, Some(req.productId), Single(Adjustment(req))));
      fetchUrl := Url(urls, InventoryStock(req.productId));
    }

    /** `reduceStocks`: publish only. */
    method ReduceStocks(reqs: seq<StockAdjustment>)
      requires Valid()
      modifies this
      ensures Valid()
      ensures outbox == old(outbox) + [ReduceStocksMessage(reqs)]
    {
      SendMessage(InventoriesOut, ReduceStocksMessage(reqs).event);
    }

    /** `createShippingOrder`: publish, then read back from the URL the
        adapter builds, which asks the product service for an order. */
    method CreateShippingOrder(dto: ShippingCreate) returns (fetchUrl: string)
      requires Valid()
      modifies this
      ensures Valid()
      ensures outbox == old(outbox) + [CreateShippingMessage(dto)]
      ensures fetchUrl == UrlAsWritten(urls, ShippingAfterCreate(dto.orderId))
      ensures fetchUrl == urls.product + "/orders/" + IntToString(dto.orderId)
    {
      SendMessage(ShipmentsOut, Event(CREATE, Some(dto.orderId), Single(NewShipping(dto))));
      fetchUrl := urls.product + "/orders/" + IntToString(dto.orderId);
    }

    /** `updateShippingStatusByOrderId`: publish the bare status under the
        order's key, then read the shipment back. */
    method UpdateShippingStatusByOrderId(orderId: int, status: string) returns (fetchUrl: string)
      requires Valid()
      modifies this
      ensures Valid()
      ensures outbox == old(outbox) + [ShippingStatusMessageAsWritten(orderId, status)]
      ensures fetchUrl == Url(urls, ShippingAfterStatusUpdate(orderId))
    {
      SendMessage(ShipmentsOut, Event(UPDATE, Some(orderId), Single(ShippingStatus(status))));
      fetchUrl := Url(urls, ShippingAfterStatusUpdate(orderId));
    }

    /** `updateOrder`: publish, then read the order back from the URL the
        adapter builds, on the product service's base. */
    method UpdateOrder(orderId: int, update: OrderUpdate) returns (fetchUrl: string)
      requires Valid()
      modifies this
      ensures Valid()
      ensures outbox == old(outbox) + [OrderUpdateMessage(orderId, update)]
      ensures fetchUrl == UrlAsWritten(urls, OrderAfterUpdate(orderId))
      ensures fetchUrl == urls.product + "/orders/" + IntToString(orderId)
    {
      SendMessage(OrdersOut, Event(UPDATE, Some(orderId), Single(OrderChange(update))));
      fetchUrl := urls.product + "/orders/" + IntToString(orderId);
    }

    /** `getShipmentsByOrderIds`: the batched read's URL, built in a loop. */
    method GetShipmentsByOrderIds(orderIds: seq<int>) returns (url: string)
      ensures url == Url(urls, ShipmentsByOrderIds(orderIds))
    {
      url := ShipmentsByOrderIdsUrl(urls.shipping, orderIds);
    }

    /** `getProductsByIds`: the batched read's URL. */
    function GetProductsByIds(ids: seq<int>): (url: string)
      ensures url == Url(urls, ProductsByIds(ids))
    {
      ProductsByIdsUrl(urls.product, ids)
    }
  }
}
