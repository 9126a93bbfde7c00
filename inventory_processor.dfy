/** The inventory service's message consumer: an INCREASE_STOCK event raises
    one product's stock, a REDUCE_STOCKS event reduces a batch of products,
    and any other tag is refused. */
module InventoryProcessor {
  import opened Common
  import opened Api
  import opened Events
  import Inventory

  /** The inventory entity the consumer deserializes each payload into. */
  datatype StockRecord = StockRecord(productId: int, quantity: int)

  /** `entityToStockAdjustmentRequestDto`: a field-by-field copy. */
  function ToAdjustment(rec: StockRecord): (req: StockAdjustment)
    ensures req.productId == rec.productId && req.quantity == rec.quantity
  {
    StockAdjustment(rec.productId, rec.quantity)
  }

  /** What the consumer asks the service to do for one event. */
  datatype StockCommand =
    | Increase(req: StockAdjustment)
    | Reduce(reqs: seq<StockAdjustment>)
    | Reject(error: Error)

  /** The switch on the event's tag. A payload of the wrong shape reads as
      null where the consumer dereferences it. */
  function Route(event: Event<StockRecord>): (c: StockCommand)
    ensures event.eventType == INCREASE_STOCK && event.payload.Single? ==>
              c == Increase(ToAdjustment(event.payload.data))
    ensures event.eventType == REDUCE_STOCKS && event.payload.Batch? ==>
              c.Reduce? && |c.reqs| == |event.payload.dataList| &&
              forall i :: 0 <= i < |c.reqs| ==> c.reqs[i] == ToAdjustment(event.payload.dataList[i])
    ensures event.eventType != INCREASE_STOCK && event.eventType != REDUCE_STOCKS ==>
              c == Reject(IncorrectType(event.eventType))
    ensures event.eventType == INCREASE_STOCK && event.payload.Batch? ==> c == Reject(NullPointer)
    ensures event.eventType == REDUCE_STOCKS && event.payload.Single? ==> c == Reject(NullPointer)
  {
    match event.eventType
    case INCREASE_STOCK =>
      if event.payload.Single? then Increase(ToAdjustment(event.payload.data)) else Reject(NullPointer)
    case REDUCE_STOCKS =>
      if event.payload.Batch? then
        Reduce(seq(|event.payload.dataList|, i requires 0 <= i < |event.payload.dataList| => ToAdjustment(event.payload.dataList[i])))
      else Reject(NullPointer)
    case _ => Reject(IncorrectType(event.eventType))
  }

  /** `messageProcessor`: routes the event and calls the service once. The
      increase validates its request before it builds its pipeline, so an
      invalid request escapes the consumer while a missing record is only
      logged; the batch reduction validates inside its pipeline, so every
      failure of it is only logged. The event key is read only for logging. */
  method ProcessMessage(service: Inventory.InventoryService, event: Event<StockRecord>) returns (c: Completion)
    modifies service
    ensures match Route(event)
            case Increase(req) =>
              var spec := Inventory.AfterIncrease(old(service.stock), req);
              service.stock == (if spec.Success? then spec.value else old(service.stock)) &&
              c == (if Inventory.ValidAdjustment(req) then Completed else Thrown(spec.error))
            case Reduce(reqs) =>
              service.stock == Inventory.AfterReductions(old(service.stock), reqs).stock && c == Completed
            case Reject(e) =>
              service.stock == old(service.stock) && c == Thrown(e)
  {
    match Route(event)
    case Increase(req) =>
      var reply := service.IncreaseStock(req);
      c := if reply.Failure? && !Inventory.ValidAdjustment(req) then Thrown(reply.error) else Completed;
    case Reduce(reqs) =>
      var _ := service.ReduceStocks(reqs);
      c := Completed;
    case Reject(e) =>
      c := Thrown(e);
  }

  /** A redelivered INCREASE_STOCK event raises the stock a second time:
      the consumer does not deduplicate. */
  lemma RedeliveredIncreaseCountsTwice(stock: Inventory.Stock, rec: StockRecord, key: Option<int>)
    requires Inventory.AfterIncrease(stock, ToAdjustment(rec)).Success?
    ensures var event := Event(INCREASE_STOCK, key, Single(rec));
            var once := Inventory.AfterIncrease(stock, Route(event).req).value;
            Inventory.AfterIncrease(once, Route(event).req).Success? &&
            Inventory.AfterIncrease(once, Route(event).req).value[rec.productId] == stock[rec.productId] + 2 * rec.quantity
  {
    Inventory.IncreaseTwice(stock, ToAdjustment(rec));
  }

  /** A REDUCE_STOCKS event whose entries name products the batch does not
      touch leaves those products' stock as it was, whatever the outcome. */
  lemma ReduceEventLeavesOthers(stock: Inventory.Stock, recs: seq<StockRecord>, key: Option<int>, p: int)
    requires p in stock
    requires forall i :: 0 <= i < |recs| ==> recs[i].productId != p
    ensures var c := Route(Event(REDUCE_STOCKS, key, Batch(recs)));
            c.Reduce? && Inventory.AfterReductions(stock, c.reqs).stock[p] == stock[p]
  {
    var c := Route(Event(REDUCE_STOCKS, key, Batch(recs)));
    Inventory.ReductionsUntouched(stock, c.reqs, p);
  }
}
