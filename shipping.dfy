/** The shipping service's store: one shipment per order id (the id carries a
    unique index), holding a delivery address and a status. */
module Shipping {
  import opened Common
  import opened Text
  import opened Api

  /** A stored shipment; its order id is the key it is stored under. */
  datatype Shipment = Shipment(shippingAddress: string, status: string)

  /** orderId -> shipment. */
  type Shipments = map<int, Shipment>

  /** `validateOrderId`: ids below 1 are rejected. */
  function ValidateOrderId(orderId: int): (o: Outcome)
    ensures o.Pass? <==> orderId >= 1
    ensures o.Fail? ==> o.error == InvalidInput("Invalid orderId: " + IntToString(orderId))
  {
    if orderId < 1 then Fail(InvalidInput("Invalid orderId: " + IntToString(orderId))) else Pass
  }

  /** `findShippingByOrderId`. The message names a product id, though the
      lookup is by order id. */
  function FindShipment(shipments: Shipments, orderId: int): (r: Result<Shipment>)
    ensures r.Success? <==> orderId in shipments
    ensures r.Success? ==> r.value == shipments[orderId]
    ensures r.Failure? ==> r.error == NotFound("No product found for productId: " + IntToString(orderId))
  {
    if orderId in shipments then Success(shipments[orderId])
    else Failure(NotFound("No product found for productId: " + IntToString(orderId)))
  }

  /** The store after `createShippingOrder`, or the error it raises. No
      argument is validated; the unique index turns a second shipment for the
      same order into InvalidInput. */
  function AfterCreate(shipments: Shipments, dto: ShippingCreate): (r: Result<Shipments>)
    ensures r.Success? <==> dto.orderId !in shipments
    ensures r.Failure? ==> r.error == InvalidInput("Duplicate key for orderId: " + IntToString(dto.orderId))
    ensures r.Success? ==> r.value.Keys == shipments.Keys + {dto.orderId}
    ensures r.Success? ==> r.value[dto.orderId] == Shipment(dto.shippingAddress, dto.status)
    ensures r.Success? ==> forall o :: o in shipments ==> r.value[o] == shipments[o]
  {
    if dto.orderId in shipments then Failure(InvalidInput("Duplicate key for orderId: " + IntToString(dto.orderId)))
    else Success(shipments[dto.orderId := Shipment(dto.shippingAddress, dto.status)])
  }

  /** The store after `updateShippingStatusByOrderId`, or the error it
      raises: only the status of that order's shipment changes. */
  function AfterStatusUpdate(shipments: Shipments, orderId: int, status: string): (r: Result<Shipments>)
    ensures r.Success? <==> orderId >= 1 && orderId in shipments
    ensures orderId < 1 ==> r.Failure? && r.error.InvalidInput?
    ensures orderId >= 1 && orderId !in shipments ==> r.Failure? && r.error.NotFound?
    ensures r.Success? ==> r.value.Keys == shipments.Keys
    ensures r.Success? ==> r.value[orderId] == Shipment(shipments[orderId].shippingAddress, status)
    ensures r.Success? ==> forall o :: o in shipments && o != orderId ==> r.value[o] == shipments[o]
  {
    if ValidateOrderId(orderId).Fail? then Failure(ValidateOrderId(orderId).error) else
    var shipment :- FindShipment(shipments, orderId);
    Success(shipments[orderId := shipment.(status := status)])
  }

  class ShippingService {
    var shipments: Shipments
    /** `serviceUtil.getServiceAddress()`: which instance answered. */
    const serviceAddress: string

    constructor (initial: Shipments, address: string)
      ensures shipments == initial && serviceAddress == address
    {
      shipments := initial;
      serviceAddress := address;
    }

    /** `mapToShippingDtoWithServiceAddress`. */
    function ToDto(orderId: int, s: Shipment): (d: ShippingDto)
      ensures d.orderId == orderId && d.address == s.shippingAddress && d.status == s.status
      ensures d.serviceAddress == serviceAddress
    {
      ShippingDto(orderId, s.shippingAddress, s.status, serviceAddress)
    }

    /** `getShipments`: every stored shipment. */
    function GetShipments(): (r: set<ShippingDto>)
      reads this
      ensures forall d :: d in r ==> d.orderId in shipments && d == ToDto(d.orderId, shipments[d.orderId])
      ensures forall o :: o in shipments ==> ToDto(o, shipments[o]) in r
    {
      set o | o in shipments :: ToDto(o, shipments[o])
    }

    /** `getShipmentsByOrderIds`: the stored shipments whose order id is
        listed; ids with no shipment are skipped, duplicates collapse. */
    function GetShipmentsByOrderIds(orderIds: seq<int>): (r: set<ShippingDto>)
      reads this
      ensures forall d :: d in r ==> d.orderId in orderIds && d.orderId in shipments && d == ToDto(d.orderId, shipments[d.orderId])
      ensures forall o :: o in orderIds && o in shipments ==> ToDto(o, shipments[o]) in r
    {
      set o | o in shipments && o in orderIds :: ToDto(o, shipments[o])
    }

    /** `getShippingByOrderId`. */
    function GetShippingByOrderId(orderId: int): (r: Result<ShippingDto>)
      reads this
      ensures r.Success? <==> orderId >= 1 && orderId in shipments
      ensures r.Success? ==> r.value == ToDto(orderId, shipments[orderId])
      ensures orderId < 1 ==> r.Failure? && r.error.InvalidInput?
      ensures orderId >= 1 && orderId !in shipments ==> r.Failure? && r.error.NotFound?
    {
      if ValidateOrderId(orderId).Fail? then Failure(ValidateOrderId(orderId).error) else
      var shipment :- FindShipment(shipments, orderId);
      Success(ToDto(orderId, shipment))
    }

    method CreateShippingOrder(dto: ShippingCreate) returns (r: Result<ShippingDto>)
      modifies this
      ensures var spec := AfterCreate(old(shipments), dto);
              if spec.Success? then
                shipments == spec.value &&
                r == Success(ToDto(dto.orderId, Shipment(dto.shippingAddress, dto.status)))
              else shipments == old(shipments) && r == Failure(spec.error)
    {
      if dto.orderId in shipments {
        return Failure(InvalidInput("Duplicate key for orderId: " + IntToString(dto.orderId)));
      }
      var shipment := Shipment(dto.shippingAddress, dto.status);
      shipments := shipments[dto.orderId := shipment];
      r := Success(ToDto(dto.orderId, shipment));
    }

    method UpdateShippingStatusByOrderId(orderId: int, status: string) returns (r: Result<ShippingDto>)
      modifies this
      ensures var spec := AfterStatusUpdate(old(shipments), orderId, status);
              if spec.Success? then
                shipments == spec.value && r == Success(ToDto(orderId, shipments[orderId]))
              else shipments == old(shipments) && r == Failure(spec.error)
    {
      var valid := ValidateOrderId(orderId);
      if valid.Fail? {
        return Failure(valid.error);
      }
      var found := FindShipment(shipments, orderId);
      if found.Failure? {
        return Failure(found.error);
      }
      var shipment := found.value.(status := status);
      shipments := shipments[orderId := shipment];
      r := Success(ToDto(orderId, shipment));
    }
  }

  /** A status update, read back, shows the new status at the old address. */
  lemma UpdateThenRead(shipments: Shipments, orderId: int, status: string)
    requires AfterStatusUpdate(shipments, orderId, status).Success?
    ensures var after := AfterStatusUpdate(shipments, orderId, status).value;
            FindShipment(after, orderId) == Success(Shipment(shipments[orderId].shippingAddress, status))
  {
  }

  /** Setting the same status twice is the same as setting it once. */
  lemma StatusUpdateIdempotent(shipments: Shipments, orderId: int, status: string)
    requires AfterStatusUpdate(shipments, orderId, status).Success?
    ensures var once := AfterStatusUpdate(shipments, orderId, status).value;
            AfterStatusUpdate(once, orderId, status) == Success(once)
  {
    var once := AfterStatusUpdate(shipments, orderId, status).value;
    assert once[orderId := once[orderId].(status := status)] == once;
  }

  /** At most one shipment per order: a second create for the same order
      fails and leaves the first in place. */
  lemma SecondCreateRejected(shipments: Shipments, first: ShippingCreate, second: ShippingCreate)
    requires AfterCreate(shipments, first).Success?
    requires second.orderId == first.orderId
    ensures AfterCreate(AfterCreate(shipments, first).value, second).Failure?
    ensures AfterCreate(AfterCreate(shipments, first).value, second).error.InvalidInput?
  {
  }

  /** Creation does not validate the order id: a shipment for order 0 is
      stored, though no operation that validates its id can reach it. */
  lemma CreateAcceptsInvalidOrderId()
    ensures AfterCreate(map[], ShippingCreate(0, "street", "PENDING")).Success?
    ensures AfterStatusUpdate(map[0 := Shipment("street", "PENDING")], 0, "SHIPPED").Failure?
  {
  }
}
