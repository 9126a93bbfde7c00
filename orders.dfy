/** The order service's store: orders keyed by a generated id, each owning
    its line items, which point back to the order. A new order starts with
    a total of 0 and no status; only the status is ever updated. */
module Orders {
  import opened Common
  import opened Text
  import opened Api

  /** A stored line item; `orderId` is its back-reference to the owning order. */
  datatype OrderItem = OrderItem(id: int, orderId: int, productId: int, quantity: int, price: int)

  /** A stored order; its id is the key it is stored under. */
  datatype Order = Order(
    userId: int,
    totalPrice: int,
    status: Option<string>,
    createdAt: Option<int>,
    orderItems: seq<OrderItem>)

  /** orderId -> order. */
  type Orders = map<int, Order>

  /** Every line item points back to the order that holds it. */
  predicate Linked(orders: Orders) {
    forall id, k :: id in orders && 0 <= k < |orders[id].orderItems| ==> orders[id].orderItems[k].orderId == id
  }

  /** `validateUserId`. */
  function ValidateUserId(userId: int): (o: Outcome)
    ensures o.Pass? <==> userId >= 1
    ensures o.Fail? ==> o.error == InvalidInput("Invalid userId: " + IntToString(userId))
  {
    if userId < 1 then Fail(InvalidInput("Invalid userId: " + IntToString(userId))) else Pass
  }

  /** `validateOrderId`. */
  function ValidateOrderId(orderId: int): (o: Outcome)
    ensures o.Pass? <==> orderId >= 1
    ensures o.Fail? ==> o.error == InvalidInput("Invalid orderId: " + IntToString(orderId))
  {
    if orderId < 1 then Fail(InvalidInput("Invalid orderId: " + IntToString(orderId))) else Pass
  }

  /** `findOrderById`. */
  function FindOrder(orders: Orders, orderId: int): (r: Result<Order>)
    ensures r.Success? <==> orderId in orders
    ensures r.Success? ==> r.value == orders[orderId]
    ensures r.Failure? ==> r.error == NotFound("Order with id " + IntToString(orderId) + " not found")
  {
    if orderId in orders then Success(orders[orderId])
    else Failure(NotFound("Order with id " + IntToString(orderId) + " not found"))
  }

  /** The line items `internalCreateOrder` builds: one per requested item,
      in request order, each linked to the new order and given the next
      generated item id. */
  function LinkedItems(orderId: int, firstItemId: int, creates: seq<OrderItemCreate>): (items: seq<OrderItem>)
    ensures |items| == |creates|
    ensures forall k :: 0 <= k < |items| ==>
              items[k] == OrderItem(firstItemId + k, orderId, creates[k].productId, creates[k].quantity, creates[k].price)
    decreases |creates|
  {
    if creates == [] then []
    else [OrderItem(firstItemId, orderId, creates[0].productId, creates[0].quantity, creates[0].price)]
         + LinkedItems(orderId, firstItemId + 1, creates[1..])
  }

  /** The order `createOrder` stores: the user and the items of the request;
      the total, the status and the timestamp are not filled in. */
  function NewOrder(orderId: int, firstItemId: int, dto: OrderCreate): (order: Order)
    ensures order.userId == dto.userId && order.totalPrice == 0
    ensures order.status == None && order.createdAt == None
    ensures order.orderItems == LinkedItems(orderId, firstItemId, dto.orderItems)
  {
    Order(dto.userId, 0, None, None, LinkedItems(orderId, firstItemId, dto.orderItems))
  }

  /** The store after `createOrder` under the generated ids, or its error. */
  function AfterCreate(orders: Orders, dto: OrderCreate, orderId: int, firstItemId: int): (r: Result<Orders>)
    ensures r.Success? <==> dto.userId >= 1
    ensures r.Failure? ==> r.error == InvalidInput("Invalid userId: " + IntToString(dto.userId))
    ensures r.Success? ==> r.value.Keys == orders.Keys + {orderId}
    ensures r.Success? ==> r.value[orderId] == NewOrder(orderId, firstItemId, dto)
    ensures r.Success? ==> forall id :: id in orders && id != orderId ==> r.value[id] == orders[id]
  {
    if ValidateUserId(dto.userId).Fail? then Failure(ValidateUserId(dto.userId).error) else
    Success(orders[orderId := NewOrder(orderId, firstItemId, dto)])
  }

  /** The store after `updateOrder`, or its error: only the status of that
      order changes, and it takes the request's status, null included. */
  function AfterUpdate(orders: Orders, orderId: int, update: OrderUpdate): (r: Result<Orders>)
    ensures r.Success? <==> orderId >= 1 && orderId in orders
    ensures orderId < 1 ==> r == Failure(ValidateOrderId(orderId).error)
    ensures orderId >= 1 && orderId !in orders ==> r.Failure? && r.error.NotFound?
    ensures r.Success? ==> r.value.Keys == orders.Keys
    ensures r.Success? ==> r.value[orderId] == orders[orderId].(status := update.status)
    ensures r.Success? ==> forall id :: id in orders && id != orderId ==> r.value[id] == orders[id]
  {
    if ValidateOrderId(orderId).Fail? then Failure(ValidateOrderId(orderId).error) else
    var order :- FindOrder(orders, orderId);
    Success(orders[orderId := order.(status := update.status)])
  }

  /** The store after `deleteOrder` (the order and, by cascade, its items),
      or its error. */
  function AfterDelete(orders: Orders, orderId: int): (r: Result<Orders>)
    ensures r.Success? <==> orderId >= 1 && orderId in orders
    ensures orderId < 1 ==> r == Failure(ValidateOrderId(orderId).error)
    ensures orderId >= 1 && orderId !in orders ==> r.Failure? && r.error.NotFound?
    ensures r.Success? ==> r.value.Keys == orders.Keys - {orderId}
    ensures r.Success? ==> forall id :: id in r.value ==> r.value[id] == orders[id]
  {
    if ValidateOrderId(orderId).Fail? then Failure(ValidateOrderId(orderId).error) else
    var _ :- FindOrder(orders, orderId);
    Success(orders - {orderId})
  }

  /** The stream in `internalCreateOrder` that maps each requested item to an
      entity and sets its order. */
  method BuildOrderItems(orderId: int, firstItemId: int, creates: seq<OrderItemCreate>) returns (items: seq<OrderItem>)
    ensures items == LinkedItems(orderId, firstItemId, creates)
  {
    items := [];
    var i := 0;
    while i < |creates|
      invariant 0 <= i <= |creates|
      invariant |items| == i
      invariant forall k :: 0 <= k < i ==>
                  items[k] == OrderItem(firstItemId + k, orderId, creates[k].productId, creates[k].quantity, creates[k].price)
    {
      var item := OrderItem(firstItemId + i, orderId, creates[i].productId, creates[i].quantity, creates[i].price);
      items := items + [item];
      i := i + 1;
    }
  }

  class OrderService {
    var orders: Orders
    /** The ids the database will generate next for an order and for a
        line item: never used before. */
    var nextOrderId: int
    var nextItemId: int
    const serviceAddress: string

    ghost predicate Valid()
      reads this
    {
      Linked(orders) && forall id :: id in orders ==> id < nextOrderId
    }

    constructor (address: string)
      ensures Valid() && orders == map[] && serviceAddress == address
    {
      orders := map[];
      nextOrderId := 1;
      nextItemId := 1;
      serviceAddress := address;
    }

    /** `mapToOrderDtoWithServiceAddress`: the order's fields, its items in
        order, and this instance's address. */
    function ToDto(orderId: int, order: Order): (d: OrderDto)
      ensures d.id == orderId && d.userId == order.userId && d.totalPrice == order.totalPrice
      ensures d.status == order.status && d.createdAt == order.createdAt
      ensures |d.orderItems| == |order.orderItems|
      ensures forall k :: 0 <= k < |d.orderItems| ==>
                var item := order.orderItems[k];
                d.orderItems[k] == OrderItemDto(item.id, item.orderId, item.productId, item.quantity, item.price)
      ensures d.serviceAddress == serviceAddress
    {
      OrderDto(orderId, order.userId, order.totalPrice, order.status, order.createdAt,
        seq(|order.orderItems|, k requires 0 <= k < |order.orderItems| =>
          var item := order.orderItems[k];
          OrderItemDto(item.id, item.orderId, item.productId, item.quantity, item.price)),
        serviceAddress)
    }

    /** `getOrders`: every stored order. */
    function GetOrders(): (r: set<OrderDto>)
      reads this
      ensures forall d :: d in r ==> d.id in orders && d == ToDto(d.id, orders[d.id])
      ensures forall id :: id in orders ==> ToDto(id, orders[id]) in r
    {
      set id | id in orders :: ToDto(id, orders[id])
    }

    /** `getOrdersByUser`: exactly the orders of that user. */
    function GetOrdersByUser(userId: int): (r: Result<set<OrderDto>>)
      reads this
      ensures r.Success? <==> userId >= 1
      ensures r.Failure? ==> r.error.InvalidInput?
      ensures r.Success? ==> forall d :: d in r.value ==>
                d.id in orders && orders[d.id].userId == userId && d == ToDto(d.id, orders[d.id])
      ensures r.Success? ==> forall id :: id in orders && orders[id].userId == userId ==> ToDto(id, orders[id]) in r.value
    {
      if ValidateUserId(userId).Fail? then Failure(ValidateUserId(userId).error) else
      Success(set id | id in orders && orders[id].userId == userId :: ToDto(id, orders[id]))
    }

    /** `getOrder`. */
    function GetOrder(orderId: int): (r: Result<OrderDto>)
      reads this
      ensures r.Success? <==> orderId >= 1 && orderId in orders
      ensures r.Success? ==> r.value == ToDto(orderId, orders[orderId])
      ensures orderId < 1 ==> r.Failure? && r.error.InvalidInput?
      ensures orderId >= 1 && orderId !in orders ==> r.Failure? && r.error.NotFound?
    {
      if ValidateOrderId(orderId).Fail? then Failure(ValidateOrderId(orderId).error) else
      var order :- FindOrder(orders, orderId);
      Success(ToDto(orderId, order))
    }

    /** `createOrder` with `internalCreateOrder`. The generated id is fresh,
        so the duplicate-key mapping of the source never fires. */
    method CreateOrder(dto: OrderCreate) returns (r: Result<OrderDto>)
      requires Valid()
      modifies this
      ensures Valid()
      ensures old(nextOrderId) !in old(orders)
      ensures var spec := AfterCreate(old(orders), dto, old(nextOrderId), old(nextItemId));
              if spec.Success? then
                orders == spec.value && r == Success(ToDto(old(nextOrderId), orders[old(nextOrderId)]))
              else orders == old(orders) && r == Failure(spec.error)
    {
      var valid := ValidateUserId(dto.userId);
      if valid.Fail? {
        return Failure(valid.error);
      }
      var orderId := nextOrderId;
      var items := BuildOrderItems(orderId, nextItemId, dto.orderItems);
      var order := Order(dto.userId, 0, None, None, items);
      orders := orders[orderId := order];
      nextOrderId := nextOrderId + 1;
      nextItemId := nextItemId + |items|;
      r := Success(ToDto(orderId, order));
    }

    /** `updateOrder` with `internalUpdateOrder`. */
    method UpdateOrder(orderId: int, update: OrderUpdate) returns (r: Result<OrderDto>)
      requires Valid()
      modifies this
      ensures Valid()
      ensures var spec := AfterUpdate(old(orders), orderId, update);
              if spec.Success? then
                orders == spec.value && r == Success(ToDto(orderId, orders[orderId]))
              else orders == old(orders) && r == Failure(spec.error)
    {
      var valid := ValidateOrderId(orderId);
      if valid.Fail? {
        return Failure(valid.error);
      }
      var found := FindOrder(orders, orderId);
      if found.Failure? {
        return Failure(found.error);
      }
      var order := found.value.(status := update.status);
      orders := orders[orderId := order];
      r := Success(ToDto(orderId, order));
    }

    /** `deleteOrder` with `internalDeleteOrder`. */
    method DeleteOrder(orderId: int) returns (o: Outcome)
      requires Valid()
      modifies this
      ensures Valid()
      ensures var spec := AfterDelete(old(orders), orderId);
              if spec.Success? then orders == spec.value && o == Pass
              else orders == old(orders) && o == Fail(spec.error)
    {
      var valid := ValidateOrderId(orderId);
      if valid.Fail? {
        return valid;
      }
      var found := FindOrder(orders, orderId);
      if found.Failure? {
        return Fail(found.error);
      }
      orders := orders - {orderId};
      o := Pass;
    }
  }

  /** Creating, updating and deleting keep every line item pointing back to
      its order. */
  lemma OperationsKeepLinked(orders: Orders, dto: OrderCreate, orderId: int, firstItemId: int, update: OrderUpdate, target: int)
    requires Linked(orders)
    ensures AfterCreate(orders, dto, orderId, firstItemId).Success? ==> Linked(AfterCreate(orders, dto, orderId, firstItemId).value)
    ensures AfterUpdate(orders, target, update).Success? ==> Linked(AfterUpdate(orders, target, update).value)
    ensures AfterDelete(orders, target).Success? ==> Linked(AfterDelete(orders, target).value)
  {
  }

  /** Reading back a created order gives the request's user and items, in
      request order, each linked to the new order, with a total of 0 and no
      status. */
  lemma CreateThenRead(orders: Orders, dto: OrderCreate, orderId: int, firstItemId: int)
    requires dto.userId >= 1
    ensures var after := AfterCreate(orders, dto, orderId, firstItemId);
            after.Success? && FindOrder(after.value, orderId).Success? &&
            var order := FindOrder(after.value, orderId).value;
            order.userId == dto.userId && order.totalPrice == 0 && order.status == None &&
            |order.orderItems| == |dto.orderItems| &&
            forall k :: 0 <= k < |order.orderItems| ==>
              order.orderItems[k].orderId == orderId &&
              order.orderItems[k].productId == dto.orderItems[k].productId &&
              order.orderItems[k].quantity == dto.orderItems[k].quantity &&
              order.orderItems[k].price == dto.orderItems[k].price
  {
  }

  /** Deleting an order just created under a fresh, valid id restores the
      store. */
  lemma CreateDeleteInverse(orders: Orders, dto: OrderCreate, orderId: int, firstItemId: int)
    requires orderId >= 1 && orderId !in orders
    requires AfterCreate(orders, dto, orderId, firstItemId).Success?
    ensures AfterDelete(AfterCreate(orders, dto, orderId, firstItemId).value, orderId) == Success(orders)
  {
    assert AfterCreate(orders, dto, orderId, firstItemId).value - {orderId} == orders;
  }

  /** Setting the same status twice is the same as setting it once. */
  lemma UpdateIdempotent(orders: Orders, orderId: int, update: OrderUpdate)
    requires AfterUpdate(orders, orderId, update).Success?
    ensures var once := AfterUpdate(orders, orderId, update).value;
            AfterUpdate(once, orderId, update) == Success(once)
  {
    var once := AfterUpdate(orders, orderId, update).value;
    assert once[orderId := once[orderId].(status := update.status)] == once;
  }
}
