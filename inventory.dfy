/** The inventory service's stock ledger: one record per product id holding
    the quantity in stock. Requests are validated before any lookup; an
    increase adds the requested amount; a reduction first checks that the
    stock suffices; a batch of reductions is applied entry by entry and an
    entry that fails does not undo the entries before it. */
module Inventory {
  import opened Common
  import opened Text
  import opened Api

  /** productId -> quantity. The product id is the collection's unique key. */
  type Stock = map<int, int>

  /** No record holds a negative quantity. */
  predicate NonNegative(stock: Stock) {
    forall p :: p in stock ==> stock[p] >= 0
  }

  predicate ValidAdjustment(req: StockAdjustment) {
    req.productId >= 1 && req.quantity >= 1
  }

  /** `validateProductId`: ids below 1 are rejected. */
  function ValidateProductId(productId: int): (o: Outcome)
    ensures o.Pass? <==> productId >= 1
    ensures o.Fail? ==> o.error.InvalidInput?
  {
    if productId < 1 then Fail(InvalidInput("Invalid productId: " + IntToString(productId))) else Pass
  }

  /** `validateStockAdjustmentRequest`: both the id and the magnitude must be
      at least 1. */
  function ValidateStockAdjustmentRequest(req: StockAdjustment): (o: Outcome)
    ensures o.Pass? <==> ValidAdjustment(req)
    ensures o.Fail? ==> o.error.InvalidInput?
  {
    if req.productId < 1 || req.quantity < 1 then
      Fail(InvalidInput("Invalid input: productId = " + IntToString(req.productId) + ", quantity = " + IntToString(req.quantity)))
    else Pass
  }

  /** `findInventoryByProductId`: the stored quantity, or NotFound. */
  function FindInventory(stock: Stock, productId: int): (r: Result<int>)
    ensures r.Success? <==> productId in stock
    ensures r.Success? ==> r.value == stock[productId]
    ensures r.Failure? ==> r.error.NotFound?
  {
    if productId in stock then Success(stock[productId])
    else Failure(NotFound("No product found for productId: " + IntToString(productId)))
  }

  /** `ensureSufficientStock`: a reduction may not exceed the quantity held. */
  function EnsureSufficientStock(productId: int, available: int, requested: int): (o: Outcome)
    ensures o.Pass? <==> requested <= available
    ensures o.Fail? ==> o.error.OutOfStock?
  {
    if available < requested then Fail(OutOfStock("Insufficient stock for productId: " + IntToString(productId))) else Pass
  }

  /** The ledger after `increaseStock`, or the error it raises. */
  function AfterIncrease(stock: Stock, req: StockAdjustment): (r: Result<Stock>)
    ensures r.Success? <==> ValidAdjustment(req) && req.productId in stock
    ensures !ValidAdjustment(req) ==> r == Failure(ValidateStockAdjustmentRequest(req).error)
    ensures ValidAdjustment(req) && req.productId !in stock ==> r.Failure? && r.error.NotFound?
    ensures r.Success? ==> r.value.Keys == stock.Keys
    ensures r.Success? ==> r.value[req.productId] == stock[req.productId] + req.quantity
    ensures r.Success? ==> forall p :: p in stock && p != req.productId ==> r.value[p] == stock[p]
    ensures r.Success? && NonNegative(stock) ==> NonNegative(r.value)
  {
    if ValidateStockAdjustmentRequest(req).Fail? then Failure(ValidateStockAdjustmentRequest(req).error) else
    var quantity :- FindInventory(stock, req.productId);
    Success(stock[req.productId := quantity + req.quantity])
  }

  /** The ledger after one `processStockReduction`, or the error it raises. */
  function AfterReduction(stock: Stock, req: StockAdjustment): (r: Result<Stock>)
    ensures r.Success? <==> ValidAdjustment(req) && req.productId in stock && req.quantity <= stock[req.productId]
    ensures !ValidAdjustment(req) ==> r == Failure(ValidateStockAdjustmentRequest(req).error)
    ensures ValidAdjustment(req) && req.productId !in stock ==> r.Failure? && r.error.NotFound?
    ensures ValidAdjustment(req) && req.productId in stock && stock[req.productId] < req.quantity ==>
              r.Failure? && r.error.OutOfStock?
    ensures r.Success? ==> r.value.Keys == stock.Keys
    ensures r.Success? ==> r.value[req.productId] == stock[req.productId] - req.quantity
    ensures r.Success? ==> forall p :: p in stock && p != req.productId ==> r.value[p] == stock[p]
    ensures r.Success? && NonNegative(stock) ==> NonNegative(r.value)
  {
    if ValidateStockAdjustmentRequest(req).Fail? then Failure(ValidateStockAdjustmentRequest(req).error) else
    var quantity :- FindInventory(stock, req.productId);
    if EnsureSufficientStock(req.productId, quantity, req.quantity).Fail? then Failure(EnsureSufficientStock(req.productId, quantity, req.quantity).error) else
    Success(stock[req.productId := quantity - req.quantity])
  }

  /** Where a batch of reductions leaves the ledger, and the error of the
      entry that stopped it, if any. */
  datatype BatchResult = BatchResult(stock: Stock, failure: Option<Error>)

  /** `reduceStocks` taken as a sequential loop: each entry is applied in
      turn; the first failing entry ends the batch, and the entries applied
      before it stay applied. */
  function AfterReductions(stock: Stock, reqs: seq<StockAdjustment>): (r: BatchResult)
    ensures r.stock.Keys == stock.Keys
    ensures NonNegative(stock) ==> NonNegative(r.stock)
    ensures forall p :: p in stock ==> r.stock[p] <= stock[p]
    decreases |reqs|
  {
    if reqs == [] then BatchResult(stock, None)
    else
      match AfterReduction(stock, reqs[0])
      case Failure(e) => BatchResult(stock, Some(e))
      case Success(next) => AfterReductions(next, reqs[1..])
  }

  /** The ledger after `createInventoryStock`, or the error it raises. */
  function AfterCreate(stock: Stock, dto: InventoryCreate): (r: Result<Stock>)
    ensures r.Success? <==> dto.productId >= 1 && dto.productId !in stock
    ensures dto.productId < 1 ==> r.Failure? && r.error.InvalidInput?
    ensures dto.productId in stock ==> r.Failure? && r.error.InvalidInput?
    ensures r.Success? ==> r.value.Keys == stock.Keys + {dto.productId}
    ensures r.Success? ==> r.value[dto.productId] == dto.quantity
    ensures r.Success? ==> forall p :: p in stock ==> r.value[p] == stock[p]
  {
    if ValidateProductId(dto.productId).Fail? then Failure(ValidateProductId(dto.productId).error) else
    if dto.productId in stock then
      Failure(InvalidInput("Inventory item already exists for productId: " + IntToString(dto.productId)))
    else
      Success(stock[dto.productId := dto.quantity])
  }

  /** The ledger after `deleteInventoryStock`, or the error it raises. */
  function AfterDelete(stock: Stock, productId: int): (r: Result<Stock>)
    ensures r.Success? <==> productId >= 1 && productId in stock
    ensures productId < 1 ==> r.Failure? && r.error.InvalidInput?
    ensures productId >= 1 && productId !in stock ==> r.Failure? && r.error.NotFound?
    ensures r.Success? ==> r.value.Keys == stock.Keys - {productId}
    ensures r.Success? ==> forall p :: p in r.value ==> r.value[p] == stock[p]
  {
    if ValidateProductId(productId).Fail? then Failure(ValidateProductId(productId).error) else
    var _ :- FindInventory(stock, productId);
    Success(stock - {productId})
  }

  /** The effect a service method has: on success the new ledger and a reply
      carrying the record of `productId`; on failure the ledger unchanged and
      the error. */
  ghost predicate Committed(before: Stock, spec: Result<Stock>, productId: int, after: Stock, reply: Result<InventoryDto>) {
    if spec.Success? then
      after == spec.value && productId in after && reply == Success(InventoryDto(productId, after[productId]))
    else
      after == before && reply == Failure(spec.error)
  }

  class InventoryService {
    var stock: Stock

    constructor (initial: Stock)
      ensures stock == initial
    {
      stock := initial;
    }

    /** `getInventoryStock`. */
    function GetInventoryStock(productId: int): (r: Result<InventoryDto>)
      reads this
      ensures r.Success? <==> productId >= 1 && productId in stock
      ensures r.Success? ==> r.value == InventoryDto(productId, stock[productId])
      ensures productId < 1 ==> r.Failure? && r.error.InvalidInput?
      ensures productId >= 1 && productId !in stock ==> r.Failure? && r.error.NotFound?
    {
      if ValidateProductId(productId).Fail? then Failure(ValidateProductId(productId).error) else
      var quantity :- FindInventory(stock, productId);
      Success(InventoryDto(productId, quantity))
    }

    /** `adjustStock`: sets the record's quantity to its old value plus `delta`. */
    method AdjustStock(productId: int, delta: int)
      requires productId in stock
      modifies this
      ensures stock == old(stock)[productId := old(stock)[productId] + delta]
    {
      stock := stock[productId := stock[productId] + delta];
    }

    method CreateInventoryStock(dto: InventoryCreate) returns (r: Result<InventoryDto>)
      modifies this
      ensures Committed(old(stock), AfterCreate(old(stock), dto), dto.productId, stock, r)
    {
      var valid := ValidateProductId(dto.productId);
      if valid.Fail? {
        return Failure(valid.error);
      }
      if dto.productId in stock {
        return Failure(InvalidInput("Inventory item already exists for productId: " + IntToString(dto.productId)));
      }
      stock := stock[dto.productId := dto.quantity];
      r := Success(InventoryDto(dto.productId, dto.quantity));
    }

    method DeleteInventoryStock(productId: int) returns (o: Outcome)
      modifies this
      ensures var spec := AfterDelete(old(stock), productId);
              if spec.Success? then stock == spec.value && o == Pass
              else stock == old(stock) && o == Fail(spec.error)
    {
      var valid := ValidateProductId(productId);
      if valid.Fail? {
        return valid;
      }
      var found := FindInventory(stock, productId);
      if found.Failure? {
        return Fail(found.error);
      }
      stock := stock - {productId};
      o := Pass;
    }

    method IncreaseStock(req: StockAdjustment) returns (r: Result<InventoryDto>)
      modifies this
      ensures Committed(old(stock), AfterIncrease(old(stock), req), req.productId, stock, r)
    {
      var valid := ValidateStockAdjustmentRequest(req);
      if valid.Fail? {
        return Failure(valid.error);
      }
      var found := FindInventory(stock, req.productId);
      if found.Failure? {
        return Failure(found.error);
      }
      AdjustStock(req.productId, req.quantity);
      r := Success(InventoryDto(req.productId, stock[req.productId]));
    }

    method ProcessStockReduction(req: StockAdjustment) returns (o: Outcome)
      modifies this
      ensures var spec := AfterReduction(old(stock), req);
              if spec.Success? then stock == spec.value && o == Pass
              else stock == old(stock) && o == Fail(spec.error)
    {
      var valid := ValidateStockAdjustmentRequest(req);
      if valid.Fail? {
        return valid;
      }
      var found := FindInventory(stock, req.productId);
      if found.Failure? {
        return Fail(found.error);
      }
      var sufficient := EnsureSufficientStock(req.productId, found.value, req.quantity);
      if sufficient.Fail? {
        return sufficient;
      }
      AdjustStock(req.productId, -req.quantity);
      o := Pass;
    }

    method ReduceStocks(reqs: seq<StockAdjustment>) returns (o: Outcome)
      modifies this
      ensures stock == AfterReductions(old(stock), reqs).stock
      ensures o == match AfterReductions(old(stock), reqs).failure
                   case None => Pass
                   case Some(e) => Fail(e)
    {
      ghost var start := stock;
      var i := 0;
      while i < |reqs|
        invariant 0 <= i <= |reqs|
        invariant AfterReductions(start, reqs[..i]) == BatchResult(stock, None)
      {
        ReductionStep(start, reqs, i, stock);
        var step := ProcessStockReduction(reqs[i]);
        if step.Fail? {
          return step;
        }
        i := i + 1;
      }
      assert reqs[..i] == reqs;
      o := Pass;
    }
  }

  /** One turn of the batch loop: with the first i entries applied and none
      failed, entry i either succeeds and extends the applied prefix, or
      fails and is where the whole batch stops. */
  lemma ReductionStep(start: Stock, reqs: seq<StockAdjustment>, i: nat, current: Stock)
    requires i < |reqs|
    requires AfterReductions(start, reqs[..i]) == BatchResult(current, None)
    ensures match AfterReduction(current, reqs[i])
            case Success(next) => AfterReductions(start, reqs[..i + 1]) == BatchResult(next, None)
            case Failure(e) => AfterReductions(start, reqs) == BatchResult(current, Some(e))
  {
    assert reqs[..i + 1] == reqs[..i] + [reqs[i]];
    ReductionsSnoc(start, reqs[..i], reqs[i]);
    if AfterReduction(current, reqs[i]).Failure? {
      ReductionsStopAtFailure(start, reqs[..i + 1], reqs[i + 1..]);
      assert reqs[..i + 1] + reqs[i + 1..] == reqs;
    }
  }

  /** Extending a batch by one entry applies that entry to where the batch
      left the ledger, unless the batch had already stopped. */
  lemma {:induction false} ReductionsSnoc(stock: Stock, reqs: seq<StockAdjustment>, req: StockAdjustment)
    ensures var prefix := AfterReductions(stock, reqs);
            AfterReductions(stock, reqs + [req]) ==
              if prefix.failure.Some? then prefix
              else match AfterReduction(prefix.stock, req)
                   case Failure(e) => BatchResult(prefix.stock, Some(e))
                   case Success(next) => BatchResult(next, None)
    decreases |reqs|
  {
    if reqs == [] {
      assert [req][1..] == [];
    } else {
      assert (reqs + [req])[1..] == reqs[1..] + [req];
      match AfterReduction(stock, reqs[0])
      case Failure(e) =>
      case Success(next) => ReductionsSnoc(next, reqs[1..], req);
    }
  }

  /** Once a batch has failed, later entries are never looked at. */
  lemma {:induction false} ReductionsStopAtFailure(stock: Stock, reqs: seq<StockAdjustment>, later: seq<StockAdjustment>)
    requires AfterReductions(stock, reqs).failure.Some?
    ensures AfterReductions(stock, reqs + later) == AfterReductions(stock, reqs)
    decreases |reqs|
  {
    assert reqs != [];
    assert (reqs + later)[0] == reqs[0];
    assert (reqs + later)[1..] == reqs[1..] + later;
    match AfterReduction(stock, reqs[0])
    case Failure(e) =>
    case Success(next) => ReductionsStopAtFailure(next, reqs[1..], later);
  }

  /** No rollback: when entry k is the first to fail, the batch reports its
      error and the ledger keeps every reduction of entries 0..k-1. */
  lemma NoRollback(stock: Stock, reqs: seq<StockAdjustment>, k: nat)
    requires k < |reqs|
    requires AfterReductions(stock, reqs[..k]).failure.None?
    requires AfterReduction(AfterReductions(stock, reqs[..k]).stock, reqs[k]).Failure?
    ensures var applied := AfterReductions(stock, reqs[..k]).stock;
            AfterReductions(stock, reqs) ==
              BatchResult(applied, Some(AfterReduction(applied, reqs[k]).error))
  {
    assert reqs[..k + 1] == reqs[..k] + [reqs[k]];
    ReductionsSnoc(stock, reqs[..k], reqs[k]);
    ReductionsStopAtFailure(stock, reqs[..k + 1], reqs[k + 1..]);
    assert reqs[..k + 1] + reqs[k + 1..] == reqs;
  }

  /** A product named by no entry of a batch keeps its quantity. */
  lemma {:induction false} ReductionsUntouched(stock: Stock, reqs: seq<StockAdjustment>, p: int)
    requires p in stock
    requires forall i :: 0 <= i < |reqs| ==> reqs[i].productId != p
    ensures AfterReductions(stock, reqs).stock[p] == stock[p]
    decreases |reqs|
  {
    if reqs != [] {
      match AfterReduction(stock, reqs[0])
      case Failure(e) =>
      case Success(next) => ReductionsUntouched(next, reqs[1..], p);
    }
  }

  /** A batch in which no entry fails and no product is named twice lowers
      each named product by exactly its entry's quantity. */
  lemma {:induction false} ReductionsSubtract(stock: Stock, reqs: seq<StockAdjustment>, i: nat)
    requires i < |reqs|
    requires AfterReductions(stock, reqs).failure.None?
    requires forall j, k :: 0 <= j < k < |reqs| ==> reqs[j].productId != reqs[k].productId
    ensures reqs[i].productId in stock
    ensures AfterReductions(stock, reqs).stock[reqs[i].productId] == stock[reqs[i].productId] - reqs[i].quantity
    decreases |reqs|
  {
    var next := AfterReduction(stock, reqs[0]).value;
    assert AfterReductions(stock, reqs) == AfterReductions(next, reqs[1..]);
    var rest := reqs[1..];
    if i == 0 {
      forall k | 0 <= k < |rest|
        ensures rest[k].productId != reqs[0].productId
      {
        assert rest[k] == reqs[k + 1];
      }
      ReductionsUntouched(next, rest, reqs[0].productId);
    } else {
      assert rest[i - 1] == reqs[i];
      ReductionsSubtract(next, rest, i - 1);
      assert reqs[i].productId != reqs[0].productId;
    }
  }

  /** Applying the same increase twice adds twice the amount: the operation
      is not idempotent. */
  lemma IncreaseTwice(stock: Stock, req: StockAdjustment)
    requires AfterIncrease(stock, req).Success?
    ensures var once := AfterIncrease(stock, req).value;
            AfterIncrease(once, req).Success? &&
            AfterIncrease(once, req).value[req.productId] == stock[req.productId] + 2 * req.quantity &&
            AfterIncrease(once, req).value != once
  {
  }

  /** A reduction by the amount just added restores the ledger, and so does
      an increase by the amount just taken away. */
  lemma IncreaseReduceInverse(stock: Stock, req: StockAdjustment)
    ensures NonNegative(stock) && AfterIncrease(stock, req).Success? ==>
              AfterReduction(AfterIncrease(stock, req).value, req) == Success(stock)
    ensures AfterReduction(stock, req).Success? ==>
              AfterIncrease(AfterReduction(stock, req).value, req) == Success(stock)
  {
    if NonNegative(stock) && AfterIncrease(stock, req).Success? {
      var up := AfterIncrease(stock, req).value;
      assert AfterReduction(up, req).value == stock;
    }
    if AfterReduction(stock, req).Success? {
      var down := AfterReduction(stock, req).value;
      assert AfterIncrease(down, req).value == stock;
    }
  }

  /** Deleting the record just created restores the ledger. */
  lemma CreateDeleteInverse(stock: Stock, dto: InventoryCreate)
    requires AfterCreate(stock, dto).Success?
    ensures AfterDelete(AfterCreate(stock, dto).value, dto.productId) == Success(stock)
  {
    assert AfterCreate(stock, dto).value - {dto.productId} == stock;
  }

  /** Creation does not check the quantity, so a record can start negative. */
  lemma CreateAdmitsNegativeQuantity()
    ensures AfterCreate(map[], InventoryCreate(1, -5)) == Success(map[1 := -5])
    ensures !NonNegative(map[1 := -5])
  {
  }

  /** A batch [(1, 3), (2, 1000)] against {1: 10, 2: 5}: the first entry is
      applied (10 becomes 7), the second fails for lack of stock, and the
      first stays applied. */
  lemma PartialBatchStaysApplied()
    ensures var r := AfterReductions(map[1 := 10, 2 := 5], [StockAdjustment(1, 3), StockAdjustment(2, 1000)]);
            r.stock == map[1 := 7, 2 := 5] && r.failure.Some? && r.failure.value.OutOfStock?
  {
    var reqs := [StockAdjustment(1, 3), StockAdjustment(2, 1000)];
    var start := map[1 := 10, 2 := 5];
    var mid := map[1 := 7, 2 := 5];
    assert start[1 := 10 - 3] == mid;
    assert AfterReduction(start, reqs[0]) == Success(mid);
    assert reqs[1..] == [StockAdjustment(2, 1000)];
    assert AfterReduction(mid, reqs[1]).Failure?;
  }
}
