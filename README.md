# Order management system: a Dafny model of its core

The system is a set of Spring microservices for an online shop:
- an inventory service keeps one stock quantity per product;
- a product service keeps the catalogue;
- an order service keeps orders with their line items;
- a shipping service keeps one shipment per order;
- an order-composite service joins an order, its shipment and its products into one aggregate, and talks to the other services over HTTP (reads) and over a message channel (stock changes, shipment and order updates).

This project models the sequential logic under that wiring:

- **Inventory ledger** (`inventory.dfy`). The ledger is a map from product id to quantity, with validation before any lookup. Increases and reductions have their three error cases. A batch of reductions is applied entry by entry with no rollback. Create and delete are included. The `InventoryService` class updates the map in place. Each of its methods is proved against a pure function of the old ledger (`AfterIncrease`, `AfterReductions`, ...). The lemmas beside those functions state the promises: no rollback, products not named are untouched, non-negativity is kept, increase is not idempotent, and the inverse pairs.
- **Shipping, order and product stores** (`shipping.dfy`, `orders.dfy`, `products.dfy`). Each is a class over a map keyed by id, with the same shape: id validation, NotFound on a miss, updates that change only the named fields, deletes that remove one entry. The repositories' generated ids are counters in the classes.
- **Message consumers** (`inventory_processor.dfy`, `shipping_processor.dfy`, `order_processor.dfy`). Each is a routing function on the event's tag and payload shape, plus a `ProcessMessage` method that applies the routed operation to the service. The services validate their arguments before they build their reactive pipeline. So a validation error escapes the consumer (`Thrown`), while a failure inside the pipeline is only logged (`Completed`). The model keeps that difference.
- **Order aggregation** (`composite.dfy`). De-duplication of product ids in first-occurrence order, the id-to-product map, the item summaries and the aggregate, with each failure the code has.
- **Composite adapter** (`urls.dfy`, `integration.dfy`). The base URLs and the URL of each endpoint, including the two batched queries with their round trips. The outbox of published messages with their partition keys, and the translation of HTTP errors.
- **Wiring** (`wiring.dfy`). What each consumer receives from each message the adapter publishes.

Common datatypes (`Option`, `Result`, the domain errors) are in `common.dfy`. Integer rendering and parsing, joins and splits are in `text.dfy`. The DTOs are in `api.dfy`, and the event envelope is in `events.dfy`.

Where the written code and the service documentation disagree, the model follows the code:
- The documented behaviour is that a product missing from the aggregation is NotFound. The code dereferences the null map entry, so the model fails with NullPointer.
- The documented behaviour is that status 400 also becomes InvalidInput. The code's handler maps only 404 and 422.

Parts of the code do not compile as shown, and the model follows the logic as it is used:
- The aggregation reads `customerId` from an order DTO whose field is `userId`.
- The aggregation calls `getShipping` where the adapter defines `getShippingByOrderId`.
- The envelope class declares neither the two stock tags nor `getDataList`. The model's tag type adds `INCREASE_STOCK` and `REDUCE_STOCKS`, and its payload is either one value or a list.

## Model

| member | source | states |
|---|---|---|
| Inventory.ValidateProductId | microservices/inventory-service/src/main/java/se/david/microservices/core/inventory/service/InventoryServiceImpl.java:61-65 | passes exactly for ids >= 1; otherwise InvalidInput |
| Inventory.ValidateStockAdjustmentRequest | microservices/inventory-service/src/main/java/se/david/microservices/core/inventory/service/InventoryServiceImpl.java:116-120 | passes exactly when productId >= 1 and quantity >= 1; otherwise InvalidInput |
| Inventory.FindInventory | microservices/inventory-service/src/main/java/se/david/microservices/core/inventory/service/InventoryServiceImpl.java:67-71 | succeeds exactly for a stored product, with its quantity; otherwise NotFound |
| Inventory.EnsureSufficientStock | microservices/inventory-service/src/main/java/se/david/microservices/core/inventory/service/InventoryServiceImpl.java:151-155 | passes exactly when the requested quantity does not exceed the available one; otherwise OutOfStock |
| Inventory.AfterIncrease | microservices/inventory-service/src/main/java/se/david/microservices/core/inventory/service/InventoryServiceImpl.java:102-114 | succeeds iff the request is valid and the product stored; invalid requests fail with the validation error before any lookup, missing products with NotFound; on success the product gains the quantity, every other record and the key set are unchanged, and a non-negative ledger stays non-negative |
| Inventory.AfterReduction | microservices/inventory-service/src/main/java/se/david/microservices/core/inventory/service/InventoryServiceImpl.java:137-149 | succeeds iff the request is valid, the product stored and its stock sufficient; the three failures are InvalidInput, NotFound and OutOfStock in that order; on success the product loses the quantity, nothing else changes, and a non-negative ledger stays non-negative |
| Inventory.AfterReductions | microservices/inventory-service/src/main/java/se/david/microservices/core/inventory/service/InventoryServiceImpl.java:128-135 | a batch keeps the key set, never raises a quantity and keeps a non-negative ledger non-negative |
| Inventory.AfterCreate | microservices/inventory-service/src/main/java/se/david/microservices/core/inventory/service/InventoryServiceImpl.java:75-89 | succeeds iff the id is valid and not yet stored (a duplicate is InvalidInput); on success exactly one record is added with the given quantity |
| Inventory.AfterDelete | microservices/inventory-service/src/main/java/se/david/microservices/core/inventory/service/InventoryServiceImpl.java:92-99 | succeeds iff the id is valid and stored (InvalidInput, then NotFound); on success exactly that record is removed |
| Inventory.InventoryService.GetInventoryStock | microservices/inventory-service/src/main/java/se/david/microservices/core/inventory/service/InventoryServiceImpl.java:53-59 | returns the stored quantity for a valid stored id; InvalidInput for an id below 1, NotFound for a missing one |
| Inventory.InventoryService.AdjustStock | microservices/inventory-service/src/main/java/se/david/microservices/core/inventory/service/InventoryServiceImpl.java:122-124 | the product's quantity changes by the delta and nothing else changes |
| Inventory.InventoryService.CreateInventoryStock | microservices/inventory-service/src/main/java/se/david/microservices/core/inventory/service/InventoryServiceImpl.java:75-89 | the new ledger and the reply are those of AfterCreate; on failure the ledger is unchanged |
| Inventory.InventoryService.DeleteInventoryStock | microservices/inventory-service/src/main/java/se/david/microservices/core/inventory/service/InventoryServiceImpl.java:92-99 | the new ledger and the outcome are those of AfterDelete; on failure the ledger is unchanged |
| Inventory.InventoryService.IncreaseStock | microservices/inventory-service/src/main/java/se/david/microservices/core/inventory/service/InventoryServiceImpl.java:102-114 | the new ledger and the reply are those of AfterIncrease; on failure the ledger is unchanged |
| Inventory.InventoryService.ProcessStockReduction | microservices/inventory-service/src/main/java/se/david/microservices/core/inventory/service/InventoryServiceImpl.java:137-149 | the new ledger and the outcome are those of AfterReduction; on failure the ledger is unchanged |
| Inventory.InventoryService.ReduceStocks | microservices/inventory-service/src/main/java/se/david/microservices/core/inventory/service/InventoryServiceImpl.java:128-135 | the loop leaves the ledger of AfterReductions: the entries before the first failing one stay applied, and the outcome is that failure |
| Inventory.ReductionsSnoc | microservices/inventory-service/src/main/java/se/david/microservices/core/inventory/service/InventoryServiceImpl.java:128-135 | one more entry either changes nothing (after a failure) or applies one more reduction, or records its failure |
| Inventory.ReductionStep | microservices/inventory-service/src/main/java/se/david/microservices/core/inventory/service/InventoryServiceImpl.java:128-135 | with a prefix applied and none failed, the next entry either extends the applied prefix or ends the whole batch with its error |
| Inventory.ReductionsStopAtFailure | microservices/inventory-service/src/main/java/se/david/microservices/core/inventory/service/InventoryServiceImpl.java:128-135 | once an entry has failed, later entries change nothing |
| Inventory.NoRollback | microservices/inventory-service/src/main/java/se/david/microservices/core/inventory/service/InventoryServiceImpl.java:128-149 | when entry k is the first to fail, the batch leaves exactly the ledger after entries 0..k-1, with entry k's error |
| Inventory.ReductionsUntouched | microservices/inventory-service/src/main/java/se/david/microservices/core/inventory/service/InventoryServiceImpl.java:128-135 | a product named by no entry keeps its quantity through the batch |
| Inventory.ReductionsSubtract | microservices/inventory-service/src/main/java/se/david/microservices/core/inventory/service/InventoryServiceImpl.java:128-149 | in a batch where no entry fails and no product is named twice, each named product is lowered by exactly its entry's quantity |
| Inventory.IncreaseTwice | microservices/inventory-service/src/main/java/se/david/microservices/core/inventory/service/InventoryServiceImpl.java:102-114 | applying the same increase twice adds twice the quantity, so the operation is not idempotent |
| Inventory.IncreaseReduceInverse | microservices/inventory-service/src/main/java/se/david/microservices/core/inventory/service/InventoryServiceImpl.java:102-149 | reducing by what was just added restores the ledger, and increasing by what was just taken restores it |
| Inventory.CreateDeleteInverse | microservices/inventory-service/src/main/java/se/david/microservices/core/inventory/service/InventoryServiceImpl.java:75-99 | deleting the record just created restores the ledger |
| Inventory.CreateAdmitsNegativeQuantity | microservices/inventory-service/src/main/java/se/david/microservices/core/inventory/service/InventoryServiceImpl.java:75-89 | creation does not check the quantity: a record can start at -5 |
| Inventory.PartialBatchStaysApplied | microservices/inventory-service/src/main/java/se/david/microservices/core/inventory/service/InventoryServiceImpl.java:128-155 | the batch [(1,3),(2,1000)] on {1:10, 2:5} leaves {1:7, 2:5} and fails with OutOfStock |
| InventoryProcessor.ToAdjustment | microservices/inventory-service/src/main/java/se/david/microservices/core/inventory/config/MessageProcessorConfig.java:37-67 | the consumer's request copies the record's product id and quantity |
| InventoryProcessor.Route | microservices/inventory-service/src/main/java/se/david/microservices/core/inventory/config/MessageProcessorConfig.java:37-67 | INCREASE_STOCK with one payload increases it, REDUCE_STOCKS with a list reduces each element in order, a payload of the wrong shape is a null dereference, any other tag is the EventProcessing error |
| InventoryProcessor.ProcessMessage | microservices/inventory-service/src/main/java/se/david/microservices/core/inventory/config/MessageProcessorConfig.java:37-67 | stock ends as the routed operation leaves it; only an invalid increase request and a refused event escape the consumer, every reduction failure is swallowed |
| InventoryProcessor.RedeliveredIncreaseCountsTwice | microservices/inventory-service/src/main/java/se/david/microservices/core/inventory/config/MessageProcessorConfig.java:38-46 | an increase event delivered twice adds its quantity twice |
| InventoryProcessor.ReduceEventLeavesOthers | microservices/inventory-service/src/main/java/se/david/microservices/core/inventory/config/MessageProcessorConfig.java:47-63 | a reduce event leaves every product it does not name untouched |
| Shipping.ValidateOrderId | microservices/shipping-service/src/main/java/se/david/microservices/core/shipping/service/ShippingServiceImpl.java:78-82 | passes exactly for ids >= 1; otherwise InvalidInput with the id in the message |
| Shipping.FindShipment | microservices/shipping-service/src/main/java/se/david/microservices/core/shipping/service/ShippingServiceImpl.java:72-76 | succeeds exactly for a stored order; otherwise NotFound with the message the source uses |
| Shipping.AfterCreate | microservices/shipping-service/src/main/java/se/david/microservices/core/shipping/service/ShippingServiceImpl.java:85-97 | succeeds iff the order has no shipment (no id validation); a duplicate is InvalidInput; exactly one shipment is added |
| Shipping.AfterStatusUpdate | microservices/shipping-service/src/main/java/se/david/microservices/core/shipping/service/ShippingServiceImpl.java:100-115 | succeeds iff the id is valid and stored; on success only that shipment's status changes |
| Shipping.ShippingService.ToDto | microservices/shipping-service/src/main/java/se/david/microservices/core/shipping/service/ShippingServiceImpl.java:47-49 | the reply copies order id, address and status and carries the service address |
| Shipping.ShippingService.GetShipments | microservices/shipping-service/src/main/java/se/david/microservices/core/shipping/service/ShippingServiceImpl.java:38-45 | exactly the stored shipments, each as ToDto |
| Shipping.ShippingService.GetShipmentsByOrderIds | microservices/shipping-service/src/main/java/se/david/microservices/core/shipping/service/ShippingServiceImpl.java:52-59 | exactly the stored shipments whose order id is listed |
| Shipping.ShippingService.GetShippingByOrderId | microservices/shipping-service/src/main/java/se/david/microservices/core/shipping/service/ShippingServiceImpl.java:62-70 | the stored shipment for a valid id; InvalidInput below 1, NotFound when missing |
| Shipping.ShippingService.CreateShippingOrder | microservices/shipping-service/src/main/java/se/david/microservices/core/shipping/service/ShippingServiceImpl.java:85-97 | the new store and the reply are those of AfterCreate; on failure the store is unchanged |
| Shipping.ShippingService.UpdateShippingStatusByOrderId | microservices/shipping-service/src/main/java/se/david/microservices/core/shipping/service/ShippingServiceImpl.java:100-115 | the new store and the reply are those of AfterStatusUpdate; on failure the store is unchanged |
| Shipping.UpdateThenRead | microservices/shipping-service/src/main/java/se/david/microservices/core/shipping/service/ShippingServiceImpl.java:62-115 | after a status update a read returns the new status with the old address |
| Shipping.StatusUpdateIdempotent | microservices/shipping-service/src/main/java/se/david/microservices/core/shipping/service/ShippingServiceImpl.java:100-115 | repeating the same status update changes nothing more |
| Shipping.SecondCreateRejected | microservices/shipping-service/src/main/java/se/david/microservices/core/shipping/service/ShippingServiceImpl.java:85-97 | a second shipment for the same order is rejected with InvalidInput |
| Shipping.CreateAcceptsInvalidOrderId | microservices/shipping-service/src/main/java/se/david/microservices/core/shipping/service/ShippingServiceImpl.java:78-115 | a shipment for order 0 is created, but its status can never be updated |
| ShippingProcessor.ToCreate | microservices/shipping-service/src/main/java/se/david/microservices/core/shipping/config/MessageProcessorConfig.java:36-43 | the create request copies order id, address and status |
| ShippingProcessor.Route | microservices/shipping-service/src/main/java/se/david/microservices/core/shipping/config/MessageProcessorConfig.java:35-56 | CREATE creates, UPDATE updates the named order's status, a list payload is a null dereference, any other tag is the EventProcessing error |
| ShippingProcessor.ProcessMessage | microservices/shipping-service/src/main/java/se/david/microservices/core/shipping/config/MessageProcessorConfig.java:35-56 | the store ends as the routed operation leaves it; only an invalid order id on UPDATE and a refused event escape the consumer |
| Orders.ValidateUserId | microservices/order-service/src/main/java/se/david/microservices/core/order/service/OrderServiceImpl.java:94-98 | passes exactly for user ids >= 1; otherwise InvalidInput |
| Orders.ValidateOrderId | microservices/order-service/src/main/java/se/david/microservices/core/order/service/OrderServiceImpl.java:118-122 | passes exactly for order ids >= 1; otherwise InvalidInput |
| Orders.FindOrder | microservices/order-service/src/main/java/se/david/microservices/core/order/service/OrderServiceImpl.java:113-116 | succeeds exactly for a stored order; otherwise NotFound with the id |
| Orders.LinkedItems | microservices/order-service/src/main/java/se/david/microservices/core/order/service/OrderServiceImpl.java:141-152 | one stored item per requested item, in order, each pointing back to the order and echoing product, quantity and price |
| Orders.NewOrder | microservices/order-service/src/main/java/se/david/microservices/core/order/service/OrderServiceImpl.java:141-152 | a new order has the requested user, total 0, no status or timestamp yet, and the linked items |
| Orders.AfterCreate | microservices/order-service/src/main/java/se/david/microservices/core/order/service/OrderServiceImpl.java:126-152 | succeeds iff the user id is valid; exactly one order is added under the new id |
| Orders.AfterUpdate | microservices/order-service/src/main/java/se/david/microservices/core/order/service/OrderServiceImpl.java:156-178 | succeeds iff the id is valid and stored; on success only that order's status changes |
| Orders.AfterDelete | microservices/order-service/src/main/java/se/david/microservices/core/order/service/OrderServiceImpl.java:181-194 | succeeds iff the id is valid and stored; on success exactly that order is removed |
| Orders.BuildOrderItems | microservices/order-service/src/main/java/se/david/microservices/core/order/service/OrderServiceImpl.java:141-149 | the loop builds exactly LinkedItems |
| Orders.OrderService.ToDto | microservices/order-service/src/main/java/se/david/microservices/core/order/service/OrderServiceImpl.java:66-76 | the reply copies every order field and each item's fields, in order, and carries the service address |
| Orders.OrderService.GetOrders | microservices/order-service/src/main/java/se/david/microservices/core/order/service/OrderServiceImpl.java:51-64 | exactly the stored orders |
| Orders.OrderService.GetOrdersByUser | microservices/order-service/src/main/java/se/david/microservices/core/order/service/OrderServiceImpl.java:78-92 | InvalidInput for a user id below 1; otherwise exactly that user's orders |
| Orders.OrderService.GetOrder | microservices/order-service/src/main/java/se/david/microservices/core/order/service/OrderServiceImpl.java:102-116 | the stored order for a valid id; InvalidInput below 1, NotFound when missing |
| Orders.OrderService.CreateOrder | microservices/order-service/src/main/java/se/david/microservices/core/order/service/OrderServiceImpl.java:126-152 | the new store is that of AfterCreate under a never-used id, and item links are kept |
| Orders.OrderService.UpdateOrder | microservices/order-service/src/main/java/se/david/microservices/core/order/service/OrderServiceImpl.java:156-178 | the new store and the reply are those of AfterUpdate; on failure the store is unchanged |
| Orders.OrderService.DeleteOrder | microservices/order-service/src/main/java/se/david/microservices/core/order/service/OrderServiceImpl.java:181-194 | the new store and the outcome are those of AfterDelete; on failure the store is unchanged |
| Orders.OperationsKeepLinked | microservices/order-service/src/main/java/se/david/microservices/core/order/service/OrderServiceImpl.java:141-194 | create, update and delete keep every item pointing back to its order |
| Orders.CreateThenRead | microservices/order-service/src/main/java/se/david/microservices/core/order/service/OrderServiceImpl.java:102-152 | the order just created reads back with the requested user and items |
| Orders.CreateDeleteInverse | microservices/order-service/src/main/java/se/david/microservices/core/order/service/OrderServiceImpl.java:126-194 | deleting the order just created under a fresh id restores the store |
| Orders.UpdateIdempotent | microservices/order-service/src/main/java/se/david/microservices/core/order/service/OrderServiceImpl.java:156-178 | repeating the same update changes nothing more |
| OrderProcessor.Route | microservices/order-service/src/main/java/se/david/microservices/core/order/config/MessageProcessorConfig.java:33-45 | UPDATE with a key and one payload updates that order's status; a missing key or a list is a null dereference; any other tag is the EventProcessing error |
| OrderProcessor.ProcessMessage | microservices/order-service/src/main/java/se/david/microservices/core/order/config/MessageProcessorConfig.java:33-45 | the store ends as the routed update leaves it; only an invalid order id and a refused event escape the consumer |
| Products.ValidateProductId | microservices/product-service/src/main/java/se/david/microservices/core/product/service/ProductServiceImpl.java:91-95 | passes exactly for ids >= 1; otherwise InvalidInput |
| Products.FindProduct | microservices/product-service/src/main/java/se/david/microservices/core/product/service/ProductServiceImpl.java:86-89 | succeeds exactly for a stored product; otherwise NotFound ("id" spelling) |
| Products.FindProductForChange | microservices/product-service/src/main/java/se/david/microservices/core/product/service/ProductServiceImpl.java:125-128 | succeeds exactly for a stored product; otherwise NotFound ("ID" spelling) |
| Products.AfterCreate | microservices/product-service/src/main/java/se/david/microservices/core/product/service/ProductServiceImpl.java:98-111 | nothing is validated; exactly one product is added with the request's fields |
| Products.AfterUpdate | microservices/product-service/src/main/java/se/david/microservices/core/product/service/ProductServiceImpl.java:114-130 | succeeds iff the id is valid and stored; the product takes every field of the request and nothing else changes |
| Products.AfterDelete | microservices/product-service/src/main/java/se/david/microservices/core/product/service/ProductServiceImpl.java:133-147 | succeeds iff the id is valid and stored; exactly that product is removed |
| Products.EntityToDto | microservices/product-service/src/main/java/se/david/microservices/core/product/service/ProductServiceImpl.java:76-89 | the plain mapper copies id, name, description and price and leaves the address null |
| Products.ProductService.ToDto | microservices/product-service/src/main/java/se/david/microservices/core/product/service/ProductServiceImpl.java:56-58 | the list mapper copies the fields and carries the service address |
| Products.ProductService.GetProducts | microservices/product-service/src/main/java/se/david/microservices/core/product/service/ProductServiceImpl.java:42-54 | exactly the stored products |
| Products.ProductService.GetProductsByIds | microservices/product-service/src/main/java/se/david/microservices/core/product/service/ProductServiceImpl.java:61-73 | exactly the stored products whose id is listed |
| Products.ProductService.GetProduct | microservices/product-service/src/main/java/se/david/microservices/core/product/service/ProductServiceImpl.java:76-89 | the stored product for a valid id; InvalidInput below 1, NotFound when missing |
| Products.ProductService.CreateProduct | microservices/product-service/src/main/java/se/david/microservices/core/product/service/ProductServiceImpl.java:98-111 | the new catalogue is that of AfterCreate under a never-used id |
| Products.ProductService.UpdateProduct | microservices/product-service/src/main/java/se/david/microservices/core/product/service/ProductServiceImpl.java:114-130 | the new catalogue and the reply are those of AfterUpdate; on failure the catalogue is unchanged |
| Products.ProductService.DeleteProduct | microservices/product-service/src/main/java/se/david/microservices/core/product/service/ProductServiceImpl.java:133-147 | the new catalogue and the outcome are those of AfterDelete; on failure the catalogue is unchanged |
| Products.ChangesKeepIdsFresh | microservices/product-service/src/main/java/se/david/microservices/core/product/service/ProductServiceImpl.java:114-147 | update and delete keep every stored id below the next generated id |
| Products.CreateDeleteInverse | microservices/product-service/src/main/java/se/david/microservices/core/product/service/ProductServiceImpl.java:98-147 | deleting the product just created under a fresh id restores the catalogue |
| Products.UpdateThenRead | microservices/product-service/src/main/java/se/david/microservices/core/product/service/ProductServiceImpl.java:76-130 | after an update a read returns the request's fields; repeating the update changes nothing |
| Composite.FirstIndex | microservices/order-composite-service/src/main/java/se/david/microservices/composite/order/service/impl/OrderCompositeServiceImpl.java:50-53 | the position of the first occurrence of a listed value |
| Composite.Distinct | microservices/order-composite-service/src/main/java/se/david/microservices/composite/order/service/impl/OrderCompositeServiceImpl.java:50-53 | no value twice, the same values as the input, never longer |
| Composite.DistinctKeepsFirstOccurrenceOrder | microservices/order-composite-service/src/main/java/se/david/microservices/composite/order/service/impl/OrderCompositeServiceImpl.java:50-53 | the distinct values appear in the order of their first occurrences |
| Composite.ExtractUniqueProductIds | microservices/order-composite-service/src/main/java/se/david/microservices/composite/order/service/impl/OrderCompositeServiceImpl.java:50-53 | every line item's product id exactly once, and no other id |
| Composite.ProductMap | microservices/order-composite-service/src/main/java/se/david/microservices/composite/order/service/impl/OrderCompositeServiceImpl.java:80-81 | the id-to-product map exists iff the ids are distinct (else IllegalState); each key maps to the fetched product with that id |
| Composite.ItemSummary | microservices/order-composite-service/src/main/java/se/david/microservices/composite/order/service/impl/OrderCompositeServiceImpl.java:87-99 | the summary echoes the item's id, quantity and price (not recomputed) and the product's fields |
| Composite.Summarize | microservices/order-composite-service/src/main/java/se/david/microservices/composite/order/service/impl/OrderCompositeServiceImpl.java:84-101 | succeeds iff every item's product is in the map (else a null dereference); one summary per item, in order |
| Composite.CreateOrderAggregate | microservices/order-composite-service/src/main/java/se/david/microservices/composite/order/service/impl/OrderCompositeServiceImpl.java:60-110 | succeeds iff ids are distinct, every product is present and the product list is non-empty, failing with IllegalState, then NullPointer, then NoSuchElement; header fields copied from the order, shipping summary from the order id and shipment, addresses from the first product, the order and the shipment, and each item summarized with the product of its id |
| Composite.GetCompositeOrder | microservices/order-composite-service/src/main/java/se/david/microservices/composite/order/service/impl/OrderCompositeServiceImpl.java:41-48 | fetches the order, then the shipment, then the distinct products, and fails with the first failing fetch's error; when all three succeed, the result is CreateOrderAggregate of the fetched order, shipment and products |
| Composite.GetCompositeOrders | microservices/order-composite-service/src/main/java/se/david/microservices/composite/order/service/impl/OrderCompositeServiceImpl.java:29-33 | always empty |
| Composite.GetCompositeOrdersByUser | microservices/order-composite-service/src/main/java/se/david/microservices/composite/order/service/impl/OrderCompositeServiceImpl.java:35-38 | always empty |
| Composite.CreateCompositeOrder | microservices/order-composite-service/src/main/java/se/david/microservices/composite/order/service/impl/OrderCompositeServiceImpl.java:55-58 | always null |
| Composite.AggregateOfCompleteFetch | microservices/order-composite-service/src/main/java/se/david/microservices/composite/order/service/impl/OrderCompositeServiceImpl.java:41-110 | when the fetched products are exactly the distinct ids, aggregation succeeds and each summary carries the product of its item |
| Composite.Order42Scenario | microservices/order-composite-service/src/main/java/se/david/microservices/composite/order/service/impl/OrderCompositeServiceImpl.java:41-110 | a concrete order with two products aggregates into the expected summaries |
| Composite.RepeatedProductFetchedOnce | microservices/order-composite-service/src/main/java/se/david/microservices/composite/order/service/impl/OrderCompositeServiceImpl.java:50-53 | two items of product 7 ask for product 7 once |
| Urls.BaseUrl | microservices/order-composite-service/src/main/java/se/david/microservices/composite/order/service/integration/OrderCompositeIntegration.java:84-87 | every base URL starts with http:// |
| Urls.BaseUrlRoundTrip | microservices/order-composite-service/src/main/java/se/david/microservices/composite/order/service/integration/OrderCompositeIntegration.java:84-87 | host and port are recovered from the base URL |
| Urls.Configure | microservices/order-composite-service/src/main/java/se/david/microservices/composite/order/service/integration/OrderCompositeIntegration.java:84-87 | each service's base URL is built from its own host and port |
| Urls.ProductsByIdsRoundTrip | microservices/order-composite-service/src/main/java/se/david/microservices/composite/order/service/integration/OrderCompositeIntegration.java:137-142 | the ids read back from the products query are the ids sent, in order, with one comma fewer than ids |
| Urls.ShipmentsByOrderIdsUrl | microservices/order-composite-service/src/main/java/se/david/microservices/composite/order/service/integration/OrderCompositeIntegration.java:151-162 | the builder loop produces one orderIds parameter per id, joined by & |
| Urls.ShipmentsQueryRoundTrip | microservices/order-composite-service/src/main/java/se/david/microservices/composite/order/service/integration/OrderCompositeIntegration.java:151-162 | the ids read back are those sent, in order; n ids give n-1 ampersands, none leading; no ids give a URL ending in ? |
| Urls.Url | microservices/order-composite-service/src/main/java/se/david/microservices/composite/order/service/integration/OrderCompositeIntegration.java:122-300 | each endpoint's URL starts with its owner's base; the batched reads agree with the query builders |
| Urls.UrlAsWritten | microservices/order-composite-service/src/main/java/se/david/microservices/composite/order/service/integration/OrderCompositeIntegration.java:174-258 | the four misrouted endpoints (order read, read after an order update, order deletion, read after a shipment create) are the product service's base with `/orders/<orderId>`; every other endpoint is its intended URL |
| Urls.AsWrittenAgreesElsewhere | microservices/order-composite-service/src/main/java/se/david/microservices/composite/order/service/integration/OrderCompositeIntegration.java:122-300 | apart from the four misrouted endpoints, the URLs as written are the intended ones |
| Urls.MisroutedOrderRead | microservices/order-composite-service/src/main/java/se/david/microservices/composite/order/service/integration/OrderCompositeIntegration.java:233-235 | with distinct hosts, reading order 42 and the fetch after creating its shipment go to the product service |
| Urls.FetchAfterPublishAddressesConsumer | microservices/order-composite-service/src/main/java/se/david/microservices/composite/order/service/integration/OrderCompositeIntegration.java:174-185 | the fetch after each publish reads from the service that consumes the event |
| Integration.ErrorMessage | microservices/order-composite-service/src/main/java/se/david/microservices/composite/order/service/integration/OrderCompositeIntegration.java:351-357 | the parsed body's message, or the exception's message when the body does not parse |
| Integration.HandleExceptionAsWritten | microservices/order-composite-service/src/main/java/se/david/microservices/composite/order/service/integration/OrderCompositeIntegration.java:330-349 | throws a null dereference exactly for a response whose status HttpStatus does not register |
| Integration.HandleException | microservices/order-composite-service/src/main/java/se/david/microservices/composite/order/service/integration/OrderCompositeIntegration.java:330-349 | 404 becomes NotFound and 422 InvalidInput with the error message; the result differs from the input exactly for those two statuses |
| Integration.HandleExceptionAgrees | microservices/order-composite-service/src/main/java/se/david/microservices/composite/order/service/integration/OrderCompositeIntegration.java:330-349 | as written and as intended agree on every registered status and every non-HTTP error; translating twice is translating once |
| Integration.UnregisteredStatusCrashesHandler | microservices/order-composite-service/src/main/java/se/david/microservices/composite/order/service/integration/OrderCompositeIntegration.java:336 | a 499 response makes the handler as written throw instead of passing the response on |
| Integration.Envelope | microservices/order-composite-service/src/main/java/se/david/microservices/composite/order/service/integration/OrderCompositeIntegration.java:116-120 | the message carries the event built from tag, key and payload, and its partitionKey header is the event key |
| Integration.IncreaseStockMessage | microservices/order-composite-service/src/main/java/se/david/microservices/composite/order/service/integration/OrderCompositeIntegration.java:292-295 | the increase is keyed and partitioned by its product id |
| Integration.ReduceStocksMessage | microservices/order-composite-service/src/main/java/se/david/microservices/composite/order/service/integration/OrderCompositeIntegration.java:297-300 | the reductions go as one list, in one message, with no key |
| Integration.CreateShippingMessage | microservices/order-composite-service/src/main/java/se/david/microservices/composite/order/service/integration/OrderCompositeIntegration.java:174-179 | the shipment is keyed and partitioned by its order id |
| Integration.ShippingStatusMessageAsWritten | microservices/order-composite-service/src/main/java/se/david/microservices/composite/order/service/integration/OrderCompositeIntegration.java:180-185 | the status update is keyed by the order id and carries the bare status |
| Integration.ShippingStatusMessage | microservices/order-composite-service/src/main/java/se/david/microservices/composite/order/service/integration/OrderCompositeIntegration.java:180-185 | the status update as intended, keyed by the order id |
| Integration.OrderUpdateMessage | microservices/order-composite-service/src/main/java/se/david/microservices/composite/order/service/integration/OrderCompositeIntegration.java:250-252 | the order update is keyed and partitioned by its order id |
| Integration.CompositeIntegration.SendMessage | microservices/order-composite-service/src/main/java/se/david/microservices/composite/order/service/integration/OrderCompositeIntegration.java:322-328 | appends one message whose partitionKey is the event key |
| Integration.CompositeIntegration.IncreaseStock | microservices/order-composite-service/src/main/java/se/david/microservices/composite/order/service/integration/OrderCompositeIntegration.java:292-295 | appends the increase message and fetches the product's stock from the inventory service |
| Integration.CompositeIntegration.ReduceStocks | microservices/order-composite-service/src/main/java/se/david/microservices/composite/order/service/integration/OrderCompositeIntegration.java:297-300 | appends the reductions message and fetches nothing |
| Integration.CompositeIntegration.CreateShippingOrder | microservices/order-composite-service/src/main/java/se/david/microservices/composite/order/service/integration/OrderCompositeIntegration.java:174-179 | appends the shipment message, then fetches the URL as written: the product service's base with `/orders/<orderId>` (Findings row 1) |
| Integration.CompositeIntegration.UpdateShippingStatusByOrderId | microservices/order-composite-service/src/main/java/se/david/microservices/composite/order/service/integration/OrderCompositeIntegration.java:180-185 | appends the status message as written, keyed by the order id and carrying the bare status (Findings row 3), then fetches the shipment from the shipping service |
| Integration.CompositeIntegration.UpdateOrder | microservices/order-composite-service/src/main/java/se/david/microservices/composite/order/service/integration/OrderCompositeIntegration.java:250-252 | appends the order message, then fetches the URL as written: the product service's base with `/orders/<orderId>` (Findings row 1) |
| Integration.CompositeIntegration.GetShipmentsByOrderIds | microservices/order-composite-service/src/main/java/se/david/microservices/composite/order/service/integration/OrderCompositeIntegration.java:150-165 | the batched shipments URL for the ids, in order |
| Integration.CompositeIntegration.GetProductsByIds | microservices/order-composite-service/src/main/java/se/david/microservices/composite/order/service/integration/OrderCompositeIntegration.java:137-143 | the batched products URL for the ids, in order |
| Wiring.DecodeStock | microservices/inventory-service/src/main/java/se/david/microservices/core/inventory/config/MessageProcessorConfig.java:33 | the inventory consumer reads exactly stock adjustments, recovering the request |
| Wiring.DecodeShipping | microservices/shipping-service/src/main/java/se/david/microservices/core/shipping/config/MessageProcessorConfig.java:31 | the shipping consumer reads shipment records, not bare strings |
| Wiring.DecodeOrder | microservices/order-service/src/main/java/se/david/microservices/core/order/config/MessageProcessorConfig.java:29 | the order consumer reads exactly order changes, recovering the status |
| Wiring.DecodeAll | microservices/inventory-service/src/main/java/se/david/microservices/core/inventory/config/MessageProcessorConfig.java:47-63 | a list decodes iff every element does, element by element and in order |
| Wiring.Deliver | microservices/order-composite-service/src/main/java/se/david/microservices/composite/order/service/integration/OrderCompositeIntegration.java:322-328 | the consumer receives the same tag and key, and the decoded payload of the same shape |
| Wiring.IncreaseStockReachesInventory | microservices/order-composite-service/src/main/java/se/david/microservices/composite/order/service/integration/OrderCompositeIntegration.java:292-295 | an increase published by the composite makes the inventory consumer increase the same product by the same quantity |
| Wiring.ReduceStocksReachesInventory | microservices/order-composite-service/src/main/java/se/david/microservices/composite/order/service/integration/OrderCompositeIntegration.java:297-300 | a reduction batch published by the composite makes the inventory consumer apply the same requests in order |
| Wiring.CreateShippingReachesShipping | microservices/order-composite-service/src/main/java/se/david/microservices/composite/order/service/integration/OrderCompositeIntegration.java:174-179 | a shipment published by the composite is created by the shipping consumer |
| Wiring.OrderUpdateReachesOrders | microservices/order-composite-service/src/main/java/se/david/microservices/composite/order/service/integration/OrderCompositeIntegration.java:250-252 | an order update published by the composite updates the same order with the same status |
| Wiring.ShippingStatusAsWrittenUndelivered | microservices/order-composite-service/src/main/java/se/david/microservices/composite/order/service/integration/OrderCompositeIntegration.java:180-185 | the status update as written cannot be read by the shipping consumer |
| Wiring.ShippingStatusReachesShipping | microservices/order-composite-service/src/main/java/se/david/microservices/composite/order/service/integration/OrderCompositeIntegration.java:180-185 | the status update as intended makes the shipping consumer update that order's status |

## Left out

- HTTP, the message broker, Reactor scheduling and logging. Remote reads are URLs or function parameters. Publishing appends to an outbox. Within one consumer call, the steps of a reactive pipeline run in sequence and complete before the call returns; the interleaving of `flatMap` is not modelled.
- Health probes, the JPA `@Version` column, creation timestamps and the database's NOT NULL constraints. A new order's status and timestamp are `None` in the model.
- Generated ids are counters in the service classes. The duplicate-key branch of `createOrder` cannot happen with fresh ids and is not modelled.
- The MapStruct mappers are modelled as field-by-field copies. The product create and update requests are taken to carry name, description and price. The order update request is taken to carry the status only.
- Java's 32-bit `int` is modelled as an unbounded integer. Quantities and prices can overflow in the source.
- The `orderItems == null` branch of the aggregation: line items are always a list in the model.
- The text of the `IllegalStateException` that `Collectors.toMap` throws for a duplicate key is modelled only as its kind and the duplicate id.
- The adapter's pass-through reads and its create and delete calls (`getInventoryStocks`, `getProducts`, `createProduct`, `createOrder`, `deleteInventoryStock`, ...) are modelled only through the URL each one addresses (`Urls.Url`).
- `getErrorMessage` reads the body as JSON. The JSON reader is the parameter `parse` of `Integration.ErrorMessage`.
- The consumers' deserialization is modelled by the decoders in `Wiring`. A status update that names only the order and the status deserializes with an empty address, and the consumer never reads that address.

## Findings

| source | as written | input that shows it | evidently intended | confidence | as-written member | corrected member |
|---|---|---|---|---|---|---|
| microservices/order-composite-service/src/main/java/se/david/microservices/composite/order/service/integration/OrderCompositeIntegration.java:233-258 | `getOrder`, the read after `updateOrder` and `deleteOrder` address the product service's base URL; the read after `createShippingOrder` (line 176) asks the product service for `/orders/<id>` | product service at http://product:7001, order service at http://order:7003: `getOrder(42)` requests http://product:7001/orders/42 | use the order service's base for orders, and the shipping service's `/shipments/order/<id>` after creating a shipment | not executed; high | Urls.MisroutedOrderRead | Urls.Url |
| microservices/order-composite-service/src/main/java/se/david/microservices/composite/order/service/integration/OrderCompositeIntegration.java:336 | `handleException` switches on `HttpStatus.resolve(code)`, which is null for an unregistered status, so the switch throws a NullPointerException | a response with status 499 | pass every unregistered status through unchanged, like the other statuses the switch does not name | not executed; high | Integration.UnregisteredStatusCrashesHandler | Integration.HandleException |
| microservices/order-composite-service/src/main/java/se/david/microservices/composite/order/service/integration/OrderCompositeIntegration.java:180-185 | `updateShippingStatusByOrderId` publishes the bare status string as the event data, while the shipping consumer reads the data as a shipping record (`getOrderId`, `getStatus`) | `updateShippingStatusByOrderId(5, "SHIPPED")` publishes data `"SHIPPED"`, which is no shipping record | publish a record carrying the order id and the status | not executed; medium | Wiring.ShippingStatusAsWrittenUndelivered | Wiring.ShippingStatusReachesShipping |
