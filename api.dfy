/** The records the services exchange over HTTP and the message channel.
    Only the fields the modelled logic reads or writes are kept; a Java
    `null` in a field is an `Option`. Prices are whole numbers, as in the
    entities. */
module Api {
  import opened Common

  /** A stock change request: a product and a positive magnitude; the
      direction comes from the operation or event that carries it. */
  datatype StockAdjustment = StockAdjustment(productId: int, quantity: int)

  datatype InventoryCreate = InventoryCreate(productId: int, quantity: int)

  datatype InventoryDto = InventoryDto(productId: int, quantity: int)

  /** `serviceAddress` is null when the record went through the plain
      entity mapper (single reads, creates and updates). */
  datatype ProductDto = ProductDto(id: int, name: string, description: string, price: int, serviceAddress: Option<string>)

  datatype ProductCreate = ProductCreate(name: string, description: string, price: int)

  datatype ProductUpdate = ProductUpdate(name: string, description: string, price: int)

  datatype ShippingDto = ShippingDto(orderId: int, address: string, status: string, serviceAddress: string)

  datatype ShippingCreate = ShippingCreate(orderId: int, shippingAddress: string, status: string)

  datatype OrderItemDto = OrderItemDto(id: int, orderId: int, productId: int, quantity: int, price: int)

  /** `status` and `createdAt` are null on an order that was created and
      never updated: the create mapping does not fill them. */
  datatype OrderDto = OrderDto(
    id: int,
    userId: int,
    totalPrice: int,
    status: Option<string>,
    createdAt: Option<int>,
    orderItems: seq<OrderItemDto>,
    serviceAddress: string)

  datatype OrderItemCreate = OrderItemCreate(productId: int, quantity: int, price: int)

  datatype OrderCreate = OrderCreate(userId: int, orderItems: seq<OrderItemCreate>)

  /** The update mapping copies a null status as null. */
  datatype OrderUpdate = OrderUpdate(status: Option<string>)

  // The composite view returned by the order-composite service.

  datatype ShippingSummary = ShippingSummary(orderId: int, address: string, status: string)

  datatype ProductSummary = ProductSummary(id: int, name: string, description: string, price: int)

  datatype OrderItemSummary = OrderItemSummary(orderItemId: int, quantity: int, price: int, product: ProductSummary)

  /** Which instance of each service answered, for tracing. */
  datatype ServiceAddresses = ServiceAddresses(composite: string, product: Option<string>, order: string, shipping: string)

  datatype OrderAggregate = OrderAggregate(
    orderId: int,
    userId: int,
    totalPrice: int,
    status: Option<string>,
    createdAt: Option<int>,
    shippingSummary: ShippingSummary,
    orderItemsSummary: seq<OrderItemSummary>,
    serviceAddresses: ServiceAddresses)
}
