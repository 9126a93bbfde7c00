/** The order-composite service's read path: fetch an order, its shipment
    and, in one batched call, the distinct products its items name; then join
    them into one aggregate view. */
module Composite {
  import opened Common
  import opened Text
  import opened Api

  /** The position of the first occurrence of `x` in `xs`. */
  function FirstIndex(xs: seq<int>, x: int): (k: nat)
    requires x in xs
    ensures k < |xs| && xs[k] == x && x !in xs[..k]
    decreases |xs|
  {
    if xs[0] == x then 0
    else
      var k := 1 + FirstIndex(xs[1..], x);
      assert xs[..k] == [xs[0]] + xs[1..][..k - 1];
      k
  }

  /** Any position holding `x` with no `x` before it is the first one. */
  lemma FirstIndexUnique(xs: seq<int>, x: int, k: nat)
    requires k < |xs| && xs[k] == x && x !in xs[..k]
    ensures FirstIndex(xs, x) == k
  {
  }

  /** `Stream.distinct()`: each value once, at its first occurrence. */
  function Distinct(xs: seq<int>): (r: seq<int>)
    ensures forall i, j :: 0 <= i < j < |r| ==> r[i] != r[j]
    ensures forall x :: x in r <==> x in xs
    ensures |r| <= |xs|
    decreases |xs|
  {
    if xs == [] then []
    else
      var init := xs[..|xs| - 1];
      var last := xs[|xs| - 1];
      assert xs == init + [last];
      var rest := Distinct(init);
      if last in rest then rest else rest + [last]
  }

  /** The values keep the order of their first occurrences. */
  lemma {:induction false} DistinctKeepsFirstOccurrenceOrder(xs: seq<int>)
    ensures forall i, j :: 0 <= i < j < |Distinct(xs)| ==>
              FirstIndex(xs, Distinct(xs)[i]) < FirstIndex(xs, Distinct(xs)[j])
    decreases |xs|
  {
    if xs != [] {
      var init := xs[..|xs| - 1];
      var last := xs[|xs| - 1];
      assert xs == init + [last];
      DistinctKeepsFirstOccurrenceOrder(init);
      var rest := Distinct(init);
      var r := Distinct(xs);
      forall y | y in init
        ensures FirstIndex(xs, y) == FirstIndex(init, y)
      {
        var k := FirstIndex(init, y);
        assert xs[..k] == init[..k];
        FirstIndexUnique(xs, y, k);
      }
      if last !in init {
        assert xs[..|init|] == init;
        FirstIndexUnique(xs, last, |init|);
      }
      forall i, j | 0 <= i < j < |r|
        ensures FirstIndex(xs, r[i]) < FirstIndex(xs, r[j])
      {
        assert r[i] == rest[i];
        if j < |rest| {
          assert r[j] == rest[j];
        } else {
          assert r[j] == last && last !in init;
        }
      }
    }
  }

  /** The product id of each order item, in item order. */
  function ProductIds(items: seq<OrderItemDto>): (ids: seq<int>)
    ensures |ids| == |items|
    ensures forall k :: 0 <= k < |items| ==> ids[k] == items[k].productId
  {
    seq(|items|, k requires 0 <= k < |items| => items[k].productId)
  }

  /** `extractUniqueProductIds`: each product id the items name, once, in
      the order the items first name them; the argument of the single
      batched product fetch. */
  function ExtractUniqueProductIds(items: seq<OrderItemDto>): (ids: seq<int>)
    ensures forall i, j :: 0 <= i < j < |ids| ==> ids[i] != ids[j]
    ensures forall k :: 0 <= k < |items| ==> items[k].productId in ids
    ensures forall x :: x in ids ==> x in ProductIds(items)
    ensures |ids| <= |items|
  {
    Distinct(ProductIds(items))
  }

  /** No two products share an id. */
  predicate DistinctIds(products: seq<ProductDto>) {
    forall i, j :: 0 <= i < j < |products| ==> products[i].id != products[j].id
  }

  function Ids(products: seq<ProductDto>): (ids: set<int>)
    ensures forall k :: 0 <= k < |products| ==> products[k].id in ids
  {
    set p | p in products :: p.id
  }

  /** `Collectors.toMap(ProductDto::id, p -> p)`: fails on the first id seen
      twice. */
  function ProductMap(products: seq<ProductDto>): (r: Result<map<int, ProductDto>>)
    ensures r.Success? <==> DistinctIds(products)
    ensures r.Failure? ==> r.error.IllegalState?
    ensures r.Success? ==> r.value.Keys == Ids(products)
    ensures r.Success? ==> forall id :: id in r.value ==> r.value[id] in products && r.value[id].id == id
    decreases |products|
  {
    if products == [] then Success(map[])
    else
      var init := products[..|products| - 1];
      var p := products[|products| - 1];
      assert products == init + [p];
      var m :- ProductMap(init);
      if p.id in m then
        assert m[p.id] in init;
        Failure(IllegalState("Duplicate key " + IntToString(p.id)))
      else
        assert forall i :: 0 <= i < |init| ==> init[i] in init;
        Success(m[p.id := p])
  }

  /** The summary of one order item: the item's own id, quantity and line
      price (echoed, not recomputed) and the fetched product's details. */
  function ItemSummary(item: OrderItemDto, product: ProductDto): (s: OrderItemSummary)
    ensures s.orderItemId == item.id && s.quantity == item.quantity && s.price == item.price
    ensures s.product == ProductSummary(product.id, product.name, product.description, product.price)
  {
    OrderItemSummary(item.id, item.quantity, item.price,
      ProductSummary(product.id, product.name, product.description, product.price))
  }

  /** Step 4 of `createOrderAggregateDto`: one summary per item, in item
      order; an item whose product is absent from the map dereferences null. */
  function Summarize(items: seq<OrderItemDto>, productMap: map<int, ProductDto>): (r: Result<seq<OrderItemSummary>>)
    ensures r.Success? <==> forall k :: 0 <= k < |items| ==> items[k].productId in productMap
    ensures r.Failure? ==> r.error == NullPointer
    ensures r.Success? ==> |r.value| == |items|
    ensures r.Success? ==> forall k :: 0 <= k < |items| ==>
              r.value[k] == ItemSummary(items[k], productMap[items[k].productId])
    decreases |items|
  {
    if items == [] then Success([])
    else if items[0].productId !in productMap then Failure(NullPointer)
    else
      var rest :- Summarize(items[1..], productMap);
      Success([ItemSummary(items[0], productMap[items[0].productId])] + rest)
  }

  /** `createOrderAggregateDto`: the products are keyed by id, every item is
      joined with its product, and the product address is read from the
      first product. */
  function CreateOrderAggregate(order: OrderDto, shipping: ShippingDto, products: seq<ProductDto>, compositeAddress: string): (r: Result<OrderAggregate>)
    ensures r.Success? <==>
              DistinctIds(products) &&
              (forall k :: 0 <= k < |order.orderItems| ==> order.orderItems[k].productId in Ids(products)) &&
              products != []
    ensures !DistinctIds(products) ==> r.Failure? && r.error.IllegalState?
    ensures DistinctIds(products) && (exists k :: 0 <= k < |order.orderItems| && order.orderItems[k].productId !in Ids(products)) ==>
              r == Failure(NullPointer)
    ensures DistinctIds(products) && order.orderItems == [] && products == [] ==> r == Failure(NoSuchElement)
    ensures r.Success? ==>
              r.value.orderId == order.id && r.value.userId == order.userId &&
              r.value.totalPrice == order.totalPrice && r.value.status == order.status &&
              r.value.createdAt == order.createdAt
    ensures r.Success? ==> r.value.shippingSummary == ShippingSummary(order.id, shipping.address, shipping.status)
    ensures r.Success? ==>
              r.value.serviceAddresses == ServiceAddresses(compositeAddress, products[0].serviceAddress, order.serviceAddress, shipping.serviceAddress)
    ensures r.Success? ==> |r.value.orderItemsSummary| == |order.orderItems|
    ensures r.Success? ==> forall k :: 0 <= k < |order.orderItems| ==>
              exists p :: p in products && p.id == order.orderItems[k].productId &&
                          r.value.orderItemsSummary[k] == ItemSummary(order.orderItems[k], p)
  {
    var productMap :- ProductMap(products);
    var summaries :- Summarize(order.orderItems, productMap);
    if products == [] then Failure(NoSuchElement)
    else
      Success(OrderAggregate(
        order.id, order.userId, order.totalPrice, order.status, order.createdAt,
        ShippingSummary(order.id, shipping.address, shipping.status),
        summaries,
        ServiceAddresses(compositeAddress, products[0].serviceAddress, order.serviceAddress, shipping.serviceAddress)))
  }

  /** `getCompositeOrder`: the order first, then its shipment, then the
      products it names; the first failing fetch ends the operation with
      that fetch's error. The three fetches are parameters: the remote
      calls themselves are not part of this model. */
  function GetCompositeOrder(
    orderId: int,
    fetchOrder: int -> Result<OrderDto>,
    fetchShipping: int -> Result<ShippingDto>,
    fetchProducts: seq<int> -> Result<seq<ProductDto>>,
    compositeAddress: string): (r: Result<OrderAggregate>)
    ensures fetchOrder(orderId).Failure? ==> r == Failure(fetchOrder(orderId).error)
    ensures fetchOrder(orderId).Success? && fetchShipping(orderId).Failure? ==> r == Failure(fetchShipping(orderId).error)
    ensures fetchOrder(orderId).Success? && fetchShipping(orderId).Success? ==>
              var order := fetchOrder(orderId).value;
              var fetched := fetchProducts(ExtractUniqueProductIds(order.orderItems));
              (fetched.Failure? ==> r == Failure(fetched.error)) &&
              (fetched.Success? ==> r == CreateOrderAggregate(order, fetchShipping(orderId).value, fetched.value, compositeAddress))
    ensures r.Success? ==>
              fetchOrder(orderId).Success? && fetchShipping(orderId).Success? &&
              var order := fetchOrder(orderId).value;
              fetchProducts(ExtractUniqueProductIds(order.orderItems)).Success? &&
              r.value.orderId == order.id && r.value.shippingSummary.orderId == order.id &&
              |r.value.orderItemsSummary| == |order.orderItems|
  {
    var order :- fetchOrder(orderId);
    var shipping :- fetchShipping(orderId);
    var products :- fetchProducts(ExtractUniqueProductIds(order.orderItems));
    CreateOrderAggregate(order, shipping, products, compositeAddress)
  }

  /** `getCompositeOrders`: a stub that always answers with no aggregates. */
  function GetCompositeOrders(): (r: seq<OrderAggregate>)
    ensures |r| == 0
  {
    []
  }

  /** `getCompositeOrdersByUser`: a stub that ignores the user and answers
      with no aggregates. */
  function GetCompositeOrdersByUser(userId: int): (r: seq<OrderAggregate>)
    ensures |r| == 0
  {
    []
  }

  /** `createCompositeOrder`: a stub that creates nothing and answers null. */
  function CreateCompositeOrder(aggregate: OrderAggregate): (r: Option<OrderAggregate>)
    ensures r.None?
  {
    None
  }

  /** When the product fetch answers each requested id with exactly one
      product, the aggregate succeeds exactly when the order has items,
      and then every item is joined with the product of its own id. */
  lemma AggregateOfCompleteFetch(order: OrderDto, shipping: ShippingDto, products: seq<ProductDto>, compositeAddress: string)
    requires DistinctIds(products)
    requires Ids(products) == set x | x in ExtractUniqueProductIds(order.orderItems)
    ensures var r := CreateOrderAggregate(order, shipping, products, compositeAddress);
            (r.Success? <==> order.orderItems != []) &&
            (r.Success? ==> forall k :: 0 <= k < |order.orderItems| ==>
               r.value.orderItemsSummary[k].product.id == order.orderItems[k].productId)
  {
    var items := order.orderItems;
    if items != [] {
      assert items[0].productId in ExtractUniqueProductIds(items);
      assert items[0].productId in Ids(products);
      var p :| p in products && p.id == items[0].productId;
    } else {
      assert ExtractUniqueProductIds(items) == [];
      assert Ids(products) == {};
    }
  }

  /** Order 42 with items (product 7, quantity 2) and (product 9, quantity 1),
      both products present and a shipment to "123 Main St": the products
      are requested once each, and the aggregate has order id 42, two
      summaries in item order, and that address. */
  lemma Order42Scenario(order: OrderDto, shipping: ShippingDto, products: seq<ProductDto>)
    requires order == OrderDto(42, 5, 45, Some("CREATED"), None,
                               [OrderItemDto(1, 42, 7, 2, 20), OrderItemDto(2, 42, 9, 1, 5)], "order:1")
    requires shipping == ShippingDto(42, "123 Main St", "CREATED", "shipping:1")
    requires products == [ProductDto(7, "Pen", "Blue", 10, Some("product:1")), ProductDto(9, "Pad", "A5", 5, Some("product:1"))]
    ensures var r := CreateOrderAggregate(order, shipping, products, "composite:1");
            ExtractUniqueProductIds(order.orderItems) == [7, 9] &&
            r.Success? && r.value.orderId == 42 && r.value.shippingSummary.address == "123 Main St" &&
            |r.value.orderItemsSummary| == 2 &&
            r.value.orderItemsSummary[0].product.id == 7 && r.value.orderItemsSummary[1].product.id == 9
  {
    var items := order.orderItems;
    assert ProductIds(items) == [7, 9];
    DistinctTwo(ProductIds(items), 7, 9);
    assert DistinctIds(products);
    assert Ids(products) == {7, 9} == set x | x in [7, 9];
    AggregateOfCompleteFetch(order, shipping, products, "composite:1");
  }

  /** Two different values are kept as they are. */
  lemma DistinctTwo(xs: seq<int>, a: int, b: int)
    requires xs == [a, b] && a != b
    ensures Distinct(xs) == [a, b]
  {
    assert xs[..1] == [a];
    assert [a][..0] == [];
  }

  /** Repeated product ids in the order are fetched once: two items naming
      product 7 lead to a single request for 7. */
  lemma RepeatedProductFetchedOnce()
    ensures ExtractUniqueProductIds([OrderItemDto(1, 42, 7, 2, 20), OrderItemDto(2, 42, 7, 1, 20)]) == [7]
  {
    var items := [OrderItemDto(1, 42, 7, 2, 20), OrderItemDto(2, 42, 7, 1, 20)];
    assert ProductIds(items) == [7, 7];
    assert [7, 7][..1] == [7];
    assert Distinct([7]) == [7];
  }
}
