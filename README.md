# Product inventory model

A Dafny model of the product-inventory logic of a Spring service that
streams stock-quantity changes to browsers. It covers:

- the JPA entity `Produit` (a class whose setters and `updateQuantite`
  change its fields in place) and the `produit` table it lives in, held as
  an in-memory repository of entities in `findAll` order;
- `ProductUpdater.updateQuantity`: find the entity by EAN, add a signed
  delta to its quantity in place, return it as a domain `Product`, or throw
  `IllegalArgumentException("Product not found")`;
- `ProductLister.list`: every row as a `Product`, in table order;
- `ProductNotificationMapper.map`: a database notification's JSON payload
  (`ean`, `nom`, `quantite`) as a `Product` whose price is zero;
- the immutable `Product` record and the response records
  `ProductResponse`, `ListProductResponse` and `QuantityProductResponse`.

Modelling choices:

- Quantities and ids are Java `int`s (`JavaInt.Int32`); `+=` on them is
  `JavaInt.Add`, which wraps around on overflow exactly as Java does.
- Prices (`BigDecimal`, precision 10, scale 2) are whole numbers of cents.
- The `ean` column is not declared unique
  (`src/main/java/fr/example/spring/sse/product/repositories/Produit.java:26`); the repository keeps EANs unique as
  its class invariant `Valid()`, and `updateQuantity` requires it.
- The JSON parser is a parameter `readTree`: it returns `None` when the
  payload does not parse, or the payload's fields, each reduced to the
  answers of `asText()` and `asInt()`. A missing field makes `get` return
  null, so the call on it throws a `NullPointerException`.
- Each update is specified against the value-level functions
  `ProductUpdating.ApplyDelta` (the new table) and
  `ProductUpdating.UpdateOutcome` (the result or exception). The lemmas
  about the update are stated over those functions.

## Model

| member | source | states |
|---|---|---|
| JavaInt.Add | src/main/java/fr/example/spring/sse/product/repositories/Produit.java:87 | the Java `int` sum equals the true sum when that fits in 32 bits and is always congruent to it modulo 2^32 |
| JavaInt.AddIsTheOnlyWrappedSum | src/main/java/fr/example/spring/sse/product/repositories/Produit.java:87 | any `int` congruent to a + b modulo 2^32 is Add(a, b), so Add is the two's-complement sum |
| JavaInt.AddZero | src/main/java/fr/example/spring/sse/product/repositories/Produit.java:87 | adding 0 leaves a quantity unchanged |
| JavaInt.AddAssociative | src/main/java/fr/example/spring/sse/product/ProductUpdater.java:31-34 | adding b then c gives the same `int` as adding the wrapped b + c once |
| JavaInt.NegativeDeltaDecreases | src/main/java/fr/example/spring/sse/product/repositories/Produit.java:79-88 | a negative delta without overflow lowers the quantity, and nothing stops it going below zero |
| JavaInt.DecrementBelowMinWraps | src/main/java/fr/example/spring/sse/product/repositories/Produit.java:87 | one below the smallest `int` wraps to the largest |
| ProductRecord.Create | src/main/java/fr/example/spring/sse/product/model/Product.java:26-27 | each argument is stored unchanged in the component of the same name |
| ProductRecord.CreateEqualIff | src/main/java/fr/example/spring/sse/product/model/Product.java:11-16 | two created products are equal exactly when all four arguments are equal |
| Repositories.Produit.constructor | src/main/java/fr/example/spring/sse/product/repositories/Produit.java:20-37 | a loaded entity holds the row's id, ean, nom, quantite and prix |
| Repositories.Produit.SetId | src/main/java/fr/example/spring/sse/product/repositories/Produit.java:43-45 | only `id` changes, to the given value |
| Repositories.Produit.SetEan | src/main/java/fr/example/spring/sse/product/repositories/Produit.java:51-53 | only `ean` changes, to the given value |
| Repositories.Produit.SetNom | src/main/java/fr/example/spring/sse/product/repositories/Produit.java:59-61 | only `nom` changes, to the given value |
| Repositories.Produit.SetQuantite | src/main/java/fr/example/spring/sse/product/repositories/Produit.java:67-69 | only `quantite` changes, to the given value |
| Repositories.Produit.SetPrix | src/main/java/fr/example/spring/sse/product/repositories/Produit.java:75-77 | only `prix` changes, to the given value |
| Repositories.Produit.UpdateQuantite | src/main/java/fr/example/spring/sse/product/repositories/Produit.java:86-89 | quantite becomes old quantite + delta as a Java `int`; id, ean, nom and prix are kept; the same entity is returned; a zero delta changes nothing |
| Repositories.IndexOfEan | src/main/java/fr/example/spring/sse/product/repositories/ProduitRepository.java:19 | the index found carries the EAN and no earlier row does; none is found exactly when no row carries it |
| Repositories.IndexOfUniqueEan | src/main/java/fr/example/spring/sse/product/repositories/Produit.java:26-27 | with unique EANs, the row carrying an EAN is the one found by it |
| Repositories.ProduitRepository.FindAll | src/main/java/fr/example/spring/sse/product/repositories/ProduitRepository.java:11 | one row value per entity, the i-th being the i-th entity's current fields |
| Repositories.ProduitRepository.FindByEan | src/main/java/fr/example/spring/sse/product/repositories/ProduitRepository.java:19 | on a table with unique EANs, returns the one entity carrying the EAN, or nothing when no entity has it |
| ProductListing.MapToProduct | src/main/java/fr/example/spring/sse/product/ProductLister.java:40-42 | the product carries the row's ean, nom, quantite and prix |
| ProductListing.List | src/main/java/fr/example/spring/sse/product/ProductLister.java:28-32 | exactly one product per row, the i-th carrying the i-th row's ean, nom, quantite and prix |
| ProductListing.ListAppend | src/main/java/fr/example/spring/sse/product/ProductLister.java:29-31 | the output follows the row order: listing a + b is listing a then listing b |
| ProductUpdating.MapProduitToProduct | src/main/java/fr/example/spring/sse/product/ProductUpdater.java:39-46 | the updater's projection of a row equals the lister's: ean, nom, quantite and prix copied |
| ProductUpdating.ProductUpdater.constructor | src/main/java/fr/example/spring/sse/product/ProductUpdater.java:18-20 | the updater works on the given repository |
| ProductUpdating.ProductUpdater.UpdateQuantity | src/main/java/fr/example/spring/sse/product/ProductUpdater.java:30-37 | the table becomes ApplyDelta of the old table and the result is UpdateOutcome of it; EANs stay unique |
| ProductUpdating.ApplyDeltaFound | src/main/java/fr/example/spring/sse/product/ProductUpdater.java:33-34 | the matched row's quantite becomes old + delta with its other fields kept, and every other row is unchanged |
| ProductUpdating.SameEansSameIndex | src/main/java/fr/example/spring/sse/product/ProductUpdater.java:33-34 | tables with the same EANs in the same places find an EAN at the same index |
| ProductUpdating.ApplyDeltaKeepsEans | src/main/java/fr/example/spring/sse/product/ProductUpdater.java:33-34 | an update changes no EAN, so the same row is found by that EAN afterwards |
| ProductUpdating.ApplyDeltaKeepsEansUnique | src/main/java/fr/example/spring/sse/product/ProductUpdater.java:33-34 | an update keeps the EANs unique |
| ProductUpdating.UpdateMissing | src/main/java/fr/example/spring/sse/product/ProductUpdater.java:33-36 | with no row carrying the EAN, the result is IllegalArgumentException("Product not found") and the table is unchanged |
| ProductUpdating.UpdateReportsNewTotal | src/main/java/fr/example/spring/sse/product/ProductUpdater.java:33-44 | the returned product has the matched row's ean, nom and prix and the new stored total, which is old + delta when that fits in an `int` |
| ProductUpdating.ApplyDeltaTwice | src/main/java/fr/example/spring/sse/product/ProductUpdater.java:31-34 | applying d1 then d2 to one EAN gives the same table as applying d1 + d2 once |
| ProductUpdating.ApplyZeroDelta | src/main/java/fr/example/spring/sse/product/repositories/Produit.java:87 | a zero delta leaves the table unchanged |
| ProductUpdating.ListAfterUpdate | src/main/java/fr/example/spring/sse/product/ProductLister.java:28-32 | after an update, the list shows that EAN's quantity moved by the delta and every other product unchanged |
| NotificationMapping.Map | src/main/java/fr/example/spring/sse/product/ProductNotificationMapper.java:28-44 | a payload that does not parse throws RuntimeException("Failed to parse notification payload"); any product returned has price zero |
| NotificationMapping.MapSucceedsIff | src/main/java/fr/example/spring/sse/product/ProductNotificationMapper.java:31-36 | mapping succeeds exactly when the payload parses and has ean, nom and quantite, and the product then carries their asText/asText/asInt values |
| NotificationMapping.DecodeRoundTrip | src/main/java/fr/example/spring/sse/product/ProductNotificationMapper.java:34-43 | a payload describing a product's ean, nom and quantite decodes to that product with prix set to zero |
| NotificationMapping.MapIgnoresChannel | src/main/java/fr/example/spring/sse/product/ProductNotificationMapper.java:30 | only the payload is read: notifications with the same payload map alike whatever their channel |
| NotificationMapping.MissingEanFails | src/main/java/fr/example/spring/sse/product/ProductNotificationMapper.java:34 | a parsed payload without `ean` yields no product |
| ProductResponseDto.MapToProductResponse | src/main/java/fr/example/spring/sse/product/controller/dto/ProductResponse.java:17-19 | the response's ean, nom, quantite and prix equal the product's |
| ProductResponseDto.ResponseRoundTrip | src/main/java/fr/example/spring/sse/product/controller/dto/ProductResponse.java:18 | the product can be read back from its response, so no field is lost |
| ListProductResponseDto.MapProductsToListResponse | src/main/java/fr/example/spring/sse/product/controller/dto/ListProductResponse.java:17-24 | the list has one entry per product and the i-th entry is the i-th product's response, so order is kept and empty maps to empty |
| ListProductResponseDto.MapProductsAppend | src/main/java/fr/example/spring/sse/product/controller/dto/ListProductResponse.java:18-19 | mapping a + b gives the mapping of a followed by the mapping of b |
| ListProductResponseDto.ListResponseRoundTrip | src/main/java/fr/example/spring/sse/product/controller/dto/ListProductResponse.java:18-19 | each product can be read back from its entry of the list response |
| QuantityProductResponseDto.CreateFromProduct | src/main/java/fr/example/spring/sse/product/controller/dto/QuantityProductResponse.java:11-13 | the response's ean is the product's ean and its totalQuantity the product's quantite |
| QuantityProductResponseDto.CreateFromProductEqualIff | src/main/java/fr/example/spring/sse/product/controller/dto/QuantityProductResponse.java:9-13 | two products give the same response exactly when ean and quantite agree, whatever their nom and prix |
| QuantityProductResponseDto.QuantityUpdatedEventData | src/main/java/fr/example/spring/sse/product/controller/ProductController.java:90 | the quantity-event data mapper gives the product's ean and its quantite as the total |
| QuantityProductResponseDto.EventDataAgreesWithCreateFromProduct | src/main/java/fr/example/spring/sse/product/controller/ProductController.java:90 | the quantity-event data mapper and createFromProduct agree on every product |
| ProductEndpoints.UpdateEndpointReportsTotal | src/main/java/fr/example/spring/sse/product/controller/ProductController.java:69-72 | the update endpoint answers with the EAN and the new stored total |
| ProductEndpoints.ListEndpoint | src/main/java/fr/example/spring/sse/product/controller/ProductController.java:53-56 | the list endpoint answers with one response per row, in table order, the i-th carrying the i-th row's ean, nom, quantite and prix |
| ProductEndpoints.EventData | src/main/java/fr/example/spring/sse/product/controller/ProductController.java:84-91 | every decoded notification becomes event data holding the payload's ean text and quantite number |
| ProductEndpoints.WidgetNotificationEvent | src/main/java/fr/example/spring/sse/product/controller/ProductController.java:84-91 | the payload {ean "123", nom "Widget", quantite 5} becomes the event data {ean "123", totalQuantity 5} |

## Left out

- Listening for database notifications, the reactive sink that fans them out, and the server-sent-event sessions with their heartbeat: these are threads, polling, timers and framework callbacks.
- `ProductListener`: it only applies `ProductNotificationMapper.map` to each element of a reactive stream; the stream itself is not modelled.
- The HTTP controller's routing and response wrapping; the list endpoint, the update endpoint and the quantity-event data mapping it composes are stated in `ProductEndpoints`.
- Application properties: their validation is done by the framework.
- Spring Data's query derivation: `findAll` and `findByEan` are replaced by an in-memory table; persistence, transactions and flushing are not modelled.
- Repositories.ProduitRepository.FindByEan: requires unique EANs, and so does ProductUpdating.ProductUpdater.UpdateQuantity, which calls it. On a table with duplicate EANs, Spring Data's `findByEan` throws instead of picking a row, and that case is not modelled.
- JSON parsing and the `asText`/`asInt` conversions belong to the JSON library: they are the parameter `readTree` and the node's two given answers, with no behaviour specified for them.
- Null references: every field and argument is taken to be non-null, so the `NullPointerException`s of unboxing a null `Integer` are not modelled (the one from a missing payload field is).
- `BigDecimal` scale: prices are whole cents, so the zero price of a notification (scale 0) and a stored zero price (scale 2) are the same value here, although Java's `equals` tells them apart.
- The 13-character length of the `ean` column is a database constraint that nothing in the core checks.
