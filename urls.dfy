/** How the composite service addresses the four core services: a base URL
    per service built from its host and port, a path per endpoint, and the
    two batched queries that carry lists of ids. */
module Urls {
  import opened Common
  import opened Text

  /** `"http://" + host + ":" + port`. */
  function BaseUrl(host: string, port: int): (url: string)
    ensures "http://" <= url
  {
    "http://" + host + ":" + IntToString(port)
  }

  /** Reads a base URL back into its host and port. */
  function ParseBaseUrl(url: string): Option<(string, int)> {
    if |url| < 7 || url[..7] != "http://" then None
    else
      var parts := SplitOn(url[7..], ':');
      if |parts| != 2 then None
      else
        match ParseInt(parts[1])
        case None => None
        case Some(port) => Some((parts[0], port))
  }

  /** A host without a colon and a port are recovered from their base URL. */
  lemma BaseUrlRoundTrip(host: string, port: int)
    requires ':' !in host
    ensures ParseBaseUrl(BaseUrl(host, port)) == Some((host, port))
  {
    var url := BaseUrl(host, port);
    IntToStringAvoids(port, ':');
    var parts := [host, IntToString(port)];
    assert Join(parts, ':') == host + [':'] + IntToString(port) by {
      assert parts[1..] == [IntToString(port)];
    }
    assert url[7..] == Join(parts, ':');
    SplitJoin(parts, ':');
    IntToStringRoundTrip(port);
  }

  datatype Service = ProductService | InventoryService | OrderService | ShippingService

  /** The four base URLs, fixed when the adapter is constructed. */
  datatype ServiceUrls = ServiceUrls(product: string, inventory: string, order: string, shipping: string)

  function Configure(
    productHost: string, productPort: int,
    inventoryHost: string, inventoryPort: int,
    orderHost: string, orderPort: int,
    shippingHost: string, shippingPort: int): (urls: ServiceUrls)
    ensures urls.product == BaseUrl(productHost, productPort)
    ensures urls.inventory == BaseUrl(inventoryHost, inventoryPort)
    ensures urls.order == BaseUrl(orderHost, orderPort)
    ensures urls.shipping == BaseUrl(shippingHost, shippingPort)
  {
    ServiceUrls(
      BaseUrl(productHost, productPort), BaseUrl(inventoryHost, inventoryPort),
      BaseUrl(orderHost, orderPort), BaseUrl(shippingHost, shippingPort))
  }

  function Base(urls: ServiceUrls, s: Service): string {
    match s
    case ProductService => urls.product
    case InventoryService => urls.inventory
    case OrderService => urls.order
    case ShippingService => urls.shipping
  }

  // ----- The two list queries -----

  /** The comma-separated id list of `getProductsByIds`. */
  function IdList(ids: seq<int>): (parts: seq<string>)
    ensures |parts| == |ids|
    ensures forall k :: 0 <= k < |ids| ==> parts[k] == IntToString(ids[k])
  {
    seq(|ids|, k requires 0 <= k < |ids| => IntToString(ids[k]))
  }

  /** `getProductsByIds`: the ids rendered and joined with commas. */
  function ProductsByIdsUrl(productBase: string, ids: seq<int>): string {
    productBase + "/products/byIds?ids=" + Join(IdList(ids), ',')
  }

  /** Reads a list of decimal ids. */
  function ParseInts(parts: seq<string>): Option<seq<int>>
    decreases |parts|
  {
    if parts == [] then Some([])
    else
      match ParseInt(parts[0])
      case None => None
      case Some(v) =>
        match ParseInts(parts[1..])
        case None => None
        case Some(rest) => Some([v] + rest)
  }

  lemma {:induction false} ParseIntsRoundTrip(ids: seq<int>)
    ensures ParseInts(IdList(ids)) == Some(ids)
    decreases |ids|
  {
    if ids != [] {
      IntToStringRoundTrip(ids[0]);
      assert IdList(ids)[1..] == IdList(ids[1..]);
      ParseIntsRoundTrip(ids[1..]);
      assert [ids[0]] + ids[1..] == ids;
    }
  }

  /** The product service reads back exactly the ids that were sent, in
      order, and the value holds one comma fewer than there are ids. */
  lemma ProductsByIdsRoundTrip(productBase: string, ids: seq<int>)
    requires |ids| > 0
    ensures var url := ProductsByIdsUrl(productBase, ids);
            var value := url[|productBase + "/products/byIds?ids="|..];
            ParseInts(SplitOn(value, ',')) == Some(ids) && Count(value, ',') == |ids| - 1
  {
    var parts := IdList(ids);
    forall k | 0 <= k < |parts|
      ensures ',' !in parts[k]
    {
      IntToStringAvoids(ids[k], ',');
    }
    SplitJoin(parts, ',');
    JoinCount(parts, ',');
    ParseIntsRoundTrip(ids);
  }

  /** One `orderIds=<id>` parameter. */
  function OrderIdParam(id: int): (p: string)
    ensures |p| > 0
  {
    "orderIds=" + IntToString(id)
  }

  function OrderIdParams(ids: seq<int>): (params: seq<string>)
    ensures |params| == |ids|
    ensures forall k :: 0 <= k < |ids| ==> params[k] == OrderIdParam(ids[k])
  {
    seq(|ids|, k requires 0 <= k < |ids| => OrderIdParam(ids[k]))
  }

  /** The URL `getShipmentsByOrderIds` builds: one `orderIds=` parameter per
      id, separated by `&`. */
  function ShipmentsQuery(shippingBase: string, orderIds: seq<int>): string {
    shippingBase + "/shipments/byOrdersIds?" + Join(OrderIdParams(orderIds), '&')
  }

  /** The `StringBuilder` loop of `getShipmentsByOrderIds`: an `&` is
      appended before a parameter whenever the builder has grown past the
      fixed prefix, that is, before every parameter but the first. */
  method ShipmentsByOrderIdsUrl(shippingBase: string, orderIds: seq<int>) returns (url: string)
    ensures url == ShipmentsQuery(shippingBase, orderIds)
  {
    var prefix := shippingBase + "/shipments";
    var head := prefix + "/byOrdersIds?";
    var builder := head;
    var i := 0;
    while i < |orderIds|
      invariant 0 <= i <= |orderIds|
      invariant builder == head + Join(OrderIdParams(orderIds[..i]), '&')
    {
      AppendParam(head, orderIds, i);
      if |builder| > |prefix| + |"/byOrdersIds?"| {
        builder := builder + "&";
      }
      builder := builder + "orderIds=" + IntToString(orderIds[i]);
      i := i + 1;
    }
    assert orderIds[..i] == orderIds;
    url := builder;
  }

  /** One step of the loop: the builder has grown past `head` exactly when
      a parameter is already in it, and appending the separator (if so) and
      the next parameter gives the join of one more parameter. */
  lemma AppendParam(head: string, ids: seq<int>, i: nat)
    requires i < |ids|
    ensures var built := head + Join(OrderIdParams(ids[..i]), '&');
            (|built| > |head| <==> i > 0) &&
            (i > 0 ==> built + "&" + "orderIds=" + IntToString(ids[i]) == head + Join(OrderIdParams(ids[..i + 1]), '&')) &&
            (i == 0 ==> built + "orderIds=" + IntToString(ids[i]) == head + Join(OrderIdParams(ids[..i + 1]), '&'))
  {
    var params := OrderIdParams(ids[..i]);
    var p := OrderIdParam(ids[i]);
    assert OrderIdParams(ids[..i + 1]) == params + [p];
    JoinGrows(head, params);
    AppendPart(head, params, p);
    var built := head + Join(params, '&');
    assert built + "&" + "orderIds=" + IntToString(ids[i]) == built + "&" + p;
    assert built + "orderIds=" + IntToString(ids[i]) == built + p;
  }

  /** A join of parts whose first one is not empty is not empty. */
  lemma JoinGrows(head: string, parts: seq<string>)
    requires parts != [] ==> |parts[0]| > 0
    ensures |head + Join(parts, '&')| > |head| <==> parts != []
  {
    if parts != [] {
      JoinStartsWith(parts, '&');
    }
  }

  /** Appending a part to a join: a separator first unless the join is empty. */
  lemma AppendPart(head: string, parts: seq<string>, p: string)
    ensures parts != [] ==> head + Join(parts, '&') + "&" + p == head + Join(parts + [p], '&')
    ensures parts == [] ==> head + Join(parts, '&') + p == head + Join(parts + [p], '&')
  {
    JoinSnoc(parts, p, '&');
    if parts != [] {
      var joined := Join(parts, '&');
      assert head + joined + "&" + p == head + (joined + ['&'] + p);
    }
  }

  /** Reads `orderIds=<id>` parameters back. */
  function ParseOrderIdParams(params: seq<string>): Option<seq<int>>
    decreases |params|
  {
    if params == [] then Some([])
    else if |params[0]| < 9 || params[0][..9] != "orderIds=" then None
    else
      match ParseInt(params[0][9..])
      case None => None
      case Some(v) =>
        match ParseOrderIdParams(params[1..])
        case None => None
        case Some(rest) => Some([v] + rest)
  }

  lemma {:induction false} ParseOrderIdParamsRoundTrip(ids: seq<int>)
    ensures ParseOrderIdParams(OrderIdParams(ids)) == Some(ids)
    decreases |ids|
  {
    if ids != [] {
      var p := OrderIdParam(ids[0]);
      assert p[..9] == "orderIds=" && p[9..] == IntToString(ids[0]);
      IntToStringRoundTrip(ids[0]);
      assert OrderIdParams(ids)[1..] == OrderIdParams(ids[1..]);
      ParseOrderIdParamsRoundTrip(ids[1..]);
      assert [ids[0]] + ids[1..] == ids;
    }
  }

  /** The shipping service reads back exactly the ids that were sent, in
      order; there is one `&` fewer than there are ids, and none right after
      the `?`. With no ids the URL ends in the `?`. */
  lemma ShipmentsQueryRoundTrip(shippingBase: string, orderIds: seq<int>)
    ensures var prefix := shippingBase + "/shipments/byOrdersIds?";
            var url := ShipmentsQuery(shippingBase, orderIds);
            prefix <= url &&
            (orderIds == [] ==> url == prefix) &&
            (orderIds != [] ==>
               var query := url[|prefix|..];
               ParseOrderIdParams(SplitOn(query, '&')) == Some(orderIds) &&
               Count(query, '&') == |orderIds| - 1 &&
               query[0] != '&')
  {
    var params := OrderIdParams(orderIds);
    if orderIds != [] {
      forall k | 0 <= k < |params|
        ensures '&' !in params[k]
      {
        IntToStringAvoids(orderIds[k], '&');
        assert params[k] == "orderIds=" + IntToString(orderIds[k]);
      }
      SplitJoin(params, '&');
      JoinCount(params, '&');
      JoinStartsWith(params, '&');
      ParseOrderIdParamsRoundTrip(orderIds);
    }
  }

  // ----- The endpoint table -----

  /** The URLs the adapter addresses; the fetch that follows a published
      event is the endpoint named after the operation. */
  datatype Endpoint =
    | InventoryStocks
    | InventoryStock(productId: int)
    | Orders
    | OrdersByUser(userId: int)
    | OrderById(orderId: int)
    | OrderAfterUpdate(orderId: int)
    | OrderDeletion(orderId: int)
    | Products
    | ProductById(productId: int)
    | ProductsByIds(ids: seq<int>)
    | Shipments
    | ShipmentsByOrderIds(orderIds: seq<int>)
    | ShippingByOrderId(orderId: int)
    | ShippingAfterCreate(orderId: int)
    | ShippingAfterStatusUpdate(orderId: int)

  /** The service that owns the resource an endpoint names. */
  function Owner(e: Endpoint): Service {
    match e
    case InventoryStocks => InventoryService
    case InventoryStock(_) => InventoryService
    case Orders => OrderService
    case OrdersByUser(_) => OrderService
    case OrderById(_) => OrderService
    case OrderAfterUpdate(_) => OrderService
    case OrderDeletion(_) => OrderService
    case Products => ProductService
    case ProductById(_) => ProductService
    case ProductsByIds(_) => ProductService
    case Shipments => ShippingService
    case ShipmentsByOrderIds(_) => ShippingService
    case ShippingByOrderId(_) => ShippingService
    case ShippingAfterCreate(_) => ShippingService
    case ShippingAfterStatusUpdate(_) => ShippingService
  }

  /** The path of an endpoint, below its owner's base URL. */
  function PathOf(e: Endpoint): string {
    match e
    case InventoryStocks => "/inventories"
    case InventoryStock(id) => "/inventories/" + IntToString(id)
    case Orders => "/orders"
    case OrdersByUser(id) => "/orders/user/" + IntToString(id)
    case OrderById(id) => "/orders/" + IntToString(id)
    case OrderAfterUpdate(id) => "/orders/" + IntToString(id)
    case OrderDeletion(id) => "/orders/" + IntToString(id)
    case Products => "/products"
    case ProductById(id) => "/products/" + IntToString(id)
    case ProductsByIds(ids) => "/products/byIds?ids=" + Join(IdList(ids), ',')
    case Shipments => "/shipments"
    case ShipmentsByOrderIds(ids) => "/shipments/byOrdersIds?" + Join(OrderIdParams(ids), '&')
    case ShippingByOrderId(id) => "/shipments/order/" + IntToString(id)
    case ShippingAfterCreate(id) => "/shipments/order/" + IntToString(id)
    case ShippingAfterStatusUpdate(id) => "/shipments/order/" + IntToString(id)
  }

  /** The URL of each endpoint as the adapter should build it: the owner's
      base followed by the path. */
  function Url(urls: ServiceUrls, e: Endpoint): (url: string)
    ensures Base(urls, Owner(e)) <= url
    ensures e.ProductsByIds? ==> url == ProductsByIdsUrl(urls.product, e.ids)
    ensures e.ShipmentsByOrderIds? ==> url == ShipmentsQuery(urls.shipping, e.orderIds)
  {
    Base(urls, Owner(e)) + PathOf(e)
  }

  /** The URL of each endpoint as the adapter builds it. The single-order
      read, the fetch after an order update and the order deletion use the
      product service's base; the fetch after a shipment is created uses the
      product service's base and an order path. */
  function UrlAsWritten(urls: ServiceUrls, e: Endpoint): (url: string)
    ensures Misrouted(e) ==> url == urls.product + "/orders/" + IntToString(e.orderId)
    ensures !Misrouted(e) ==> url == Url(urls, e)
  {
    match e
    case OrderById(id) => urls.product + "/orders/" + IntToString(id)
    case OrderAfterUpdate(id) => urls.product + "/orders/" + IntToString(id)
    case OrderDeletion(id) => urls.product + "/orders/" + IntToString(id)
    case ShippingAfterCreate(id) => urls.product + "/orders/" + IntToString(id)
    case _ => Base(urls, Owner(e)) + PathOf(e)
  }

  /** The endpoints whose URL as written does not address their owner. */
  predicate Misrouted(e: Endpoint) {
    e.OrderById? || e.OrderAfterUpdate? || e.OrderDeletion? || e.ShippingAfterCreate?
  }

  /** Every other endpoint is built as intended. */
  lemma AsWrittenAgreesElsewhere(urls: ServiceUrls, e: Endpoint)
    requires !Misrouted(e)
    ensures UrlAsWritten(urls, e) == Url(urls, e)
  {
  }

  /** With the services on distinct hosts, reading order 42 as written asks
      the product service, and the fetch after creating the shipment of
      order 42 asks the product service for an order. */
  lemma MisroutedOrderRead()
    ensures var urls := ServiceUrls("http://product:7001", "http://inventory:7002", "http://order:7003", "http://shipping:7004");
            UrlAsWritten(urls, OrderById(42)) == urls.product + "/orders/42" &&
            Url(urls, OrderById(42)) == urls.order + "/orders/42" &&
            UrlAsWritten(urls, OrderById(42)) != Url(urls, OrderById(42)) &&
            UrlAsWritten(urls, ShippingAfterCreate(42)) == urls.product + "/orders/42" &&
            Url(urls, ShippingAfterCreate(42)) == urls.shipping + "/shipments/order/42" &&
            UrlAsWritten(urls, ShippingAfterCreate(42)) != Url(urls, ShippingAfterCreate(42))
  {
    var urls := ServiceUrls("http://product:7001", "http://inventory:7002", "http://order:7003", "http://shipping:7004");
    assert IntToString(42) == "42" by {
      assert NatToString(42) == NatToString(4) + [DigitChar(2)];
    }
    assert UrlAsWritten(urls, OrderById(42))[7] == 'p';
    assert Url(urls, OrderById(42))[7] == 'o';
    assert Url(urls, ShippingAfterCreate(42))[7] == 's';
  }

  /** The fetch that follows each published event reads from the service
      that consumes the event: shipments for the shipment events, orders for
      the order update. */
  lemma FetchAfterPublishAddressesConsumer(urls: ServiceUrls, id: int)
    ensures Url(urls, ShippingAfterCreate(id)) == urls.shipping + "/shipments/order/" + IntToString(id)
    ensures Url(urls, ShippingAfterStatusUpdate(id)) == Url(urls, ShippingAfterCreate(id))
    ensures Url(urls, OrderAfterUpdate(id)) == urls.order + "/orders/" + IntToString(id)
    ensures Url(urls, OrderAfterUpdate(id)) == Url(urls, OrderById(id))
  {
    var n := IntToString(id);
    assert PathOf(ShippingAfterCreate(id)) == "/shipments/order/" + n;
    assert urls.shipping + ("/shipments/order/" + n) == urls.shipping + "/shipments/order/" + n;
    assert PathOf(OrderAfterUpdate(id)) == "/orders/" + n;
    assert urls.order + ("/orders/" + n) == urls.order + "/orders/" + n;
  }
}
