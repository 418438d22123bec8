# PostNL API client: cached service calls and the complete-status shipment entity

This project models two parts of the PostNL API client library (`Firstred\PostNL`) in Dafny and proves properties of them.

1. **The cache-or-dispatch pipeline** of `DeliveryDateService` (`getDeliveryDate`, `getSentDate`) and `TimeframeService` (`getTimeframes`). Each call runs the same steps:
   - look up the PSR-6 cache item for the request entity (an illegal key throws before anything else happens);
   - on a hit, parse the stored string back into a PSR-7 response;
   - otherwise build the request with the service's REST request builder (which may throw) and dispatch it, once, through the HTTP client;
   - hand the response to the response processor;
   - write the response's string form back to the item when the status is exactly 200.

   The two services differ on a stored string that does not parse. `TimeframeService` catches PHP's `\InvalidArgumentException` and dispatches as on a miss. `DeliveryDateService` lets the exception through.

   Each service also keeps its request builder's API key, sandbox flag and PSR-17 factories equal to its own. It does this in its constructor and in each of its four setters.

2. **The `CompleteStatusResponseShipment` entity**:
   - its table of serialisable properties (name, type, `isArray`, aliases);
   - the normalisation its `jsonDeserialize` runs before the generic deserialiser, which moves `Address` to `Addresses` as a list;
   - the object itself: nineteen nullable properties with getters and setters, `setDeliveryDate` with its Europe/Amsterdam parsing, and the constructor.

Layout:
- `cache_pipeline.dfy` (module `CachePipeline`): one invocation as a value. `DeliveryDateFlow` and `TimeframeFlow` state what is dispatched, returned and written, and lemmas relate them.
- `delivery_date_service.dfy` (`DeliveryDates`) and `timeframe_service.dfy` (`Timeframes`): the service classes. Each operation method is proved to have exactly the effect its flow function gives: the call log of the HTTP client grows by the flow's dispatches, and the pool changes by the flow's write.
- `complete_status_response_shipment.dfy` (`Shipments`): the property table, the normalisation, and the entity class.
- `http.dfy`, `cache.dfy`, `request_builder.dfy`, `values.dfy`, `wrappers.dfy`: the collaborators. These are the HTTP client (a stub that logs every request), the cache pool (a map whose `getItem` refuses illegal keys), the request builder, JSON values and Option/Result.
- `scenario.dfy`: two identical `getDeliveryDate` calls against an empty pool.

Collaborators whose code is not part of this model are function-valued parameters. Nothing is assumed about them beyond their types:
- Guzzle's `Message::parseResponse` and `Message::toString` (in particular, parsing a printed response need not give it back);
- the HTTP transport;
- the request builders' `build…Request` (which returns a request or throws) and the response processors' `process…Response`;
- which cache keys a pool refuses beyond the characters PSR-6 reserves;
- the cache-key derivation;
- the generic `AbstractEntity::jsonDeserialize`;
- `DateTimeImmutable` parsing.

## Model

| member | source | states |
|---|---|---|
| `CachePipeline.ProcessAndStore` | src/Service/DeliveryDateService.php:142-148 | The processor runs on the response and its result is returned unchanged. The item is written only if it exists, the status is exactly 200 and the processor did not throw. The value written is the string form of that same response. |
| `CachePipeline.Written` | src/Service/DeliveryDateService.php:143-146 | The pool after a call: unchanged without a write; with a write, the item's key maps to the written value and every other key keeps its value. |
| `CachePipeline.RetrieveCachedResponseItem` | src/Service/DeliveryDateService.php:132 | Shared by both services. No item when no pool is configured. Otherwise the pool's item under the entity's cache key, or, for an illegal key, the exception `getItem` throws. |
| `Cache.CacheItemPool.GetItem` | src/Service/DeliveryDateService.php:123 | A key holding a PSR-6 reserved character, or one the pool refuses, throws the PSR-6 `InvalidArgumentException`. Any other key gives its item, which is a hit iff the pool holds the key and then carries the stored string. |
| `CachePipeline.DeliveryDateFlow` | src/Service/DeliveryDateService.php:130-149 | A hit never reaches the HTTP client. A miss reaches it exactly once with the built request, unless building the request throws; that exception then propagates with no dispatch and no write. A hit replays the parsed stored response. A stored string that fails to parse ends the call with the parser's exception, with no dispatch and no write. A transport failure propagates. The result is the processor's output. The cache is written iff an item exists, the response was processed and the status is 200, and then with that response's string form. |
| `CachePipeline.TimeframeFlow` | src/Service/TimeframeService.php:128-153 | As for DeliveryDateFlow, except that a stored string whose parse throws `\InvalidArgumentException` is passed over. The request is then built and dispatched, as on a miss. Any other exception from the parser propagates without dispatch. |
| `CachePipeline.ReplayedOkResponseIsWrittenBack` | src/Service/DeliveryDateService.php:134-146 | A 200 response read from the cache and processed without error is written back again, with nothing dispatched. The same holds for getTimeframes. |
| `CachePipeline.CorruptEntryIsTreatedAsMiss` | src/Service/TimeframeService.php:132-141 | In getTimeframes, an unparseable stored entry gives exactly the invocation (result, dispatch, write) of a miss under the same key, and it dispatches the built request unless building it throws. |
| `CachePipeline.FlowsAgreeUnlessParseFails` | src/Service/TimeframeService.php:134-137 | The two services' invocations are identical unless a stored string fails to parse. |
| `CachePipeline.SecondCallIsServedFromCache` | src/Service/DeliveryDateService.php:132-148 | Against a pool without the key, a first call dispatches once and, on a processed 200, stores the response string. A second call then dispatches nothing and returns the processor's result on the parsed stored response, provided that string parses. |
| `DeliveryDates.DeliveryDateService.constructor` | src/Service/DeliveryDateService.php:83-109 | The service holds the given settings and collaborators, and a fresh request builder is created with the same API key, sandbox flag and factories. |
| `DeliveryDates.DeliveryDateService.GetDeliveryDate` | src/Service/DeliveryDateService.php:130-149 | An illegal cache key throws `getItem`'s exception, with no dispatch and the pool unchanged. Otherwise returns DeliveryDateFlow's result for the item found and the request built for GetDeliveryDate. The client's call log grows by exactly the flow's dispatches, and the pool changes by exactly the flow's write. |
| `DeliveryDates.DeliveryDateService.GetSentDate` | src/Service/DeliveryDateService.php:171-190 | The same as GetDeliveryDate, for the GetSentDate request and processor. |
| `DeliveryDates.DeliveryDateService.Invoke` | src/Service/DeliveryDateService.php:132-148 | The step-by-step body both operations share (lookup, parse, build, dispatch, process, store). An illegal cache key throws with no effect; otherwise it is proved equal in effect to DeliveryDateFlow. |
| `DeliveryDates.DeliveryDateService.SetApiKey` | src/Service/DeliveryDateService.php:199-204 | Changes only the API key of the service and of its builder, which stay equal. |
| `DeliveryDates.DeliveryDateService.SetSandbox` | src/Service/DeliveryDateService.php:213-218 | Changes only the sandbox flag of the service and of its builder, which stay equal. |
| `DeliveryDates.DeliveryDateService.SetRequestFactory` | src/Service/DeliveryDateService.php:227-232 | Changes only the request factory of the service and of its builder, which stay equal. |
| `DeliveryDates.DeliveryDateService.SetStreamFactory` | src/Service/DeliveryDateService.php:241-246 | Changes only the stream factory of the service and of its builder, which stay equal. |
| `Timeframes.TimeframeService.constructor` | src/Service/TimeframeService.php:81-107 | The service holds the given settings and collaborators, and a fresh request builder is created with the same settings. |
| `Timeframes.TimeframeService.GetTimeframes` | src/Service/TimeframeService.php:128-153 | An illegal cache key throws `getItem`'s exception, with no dispatch and the pool unchanged. Otherwise returns TimeframeFlow's result. The client's call log grows by exactly the flow's dispatches, and the pool changes by exactly the flow's write. |
| `Timeframes.TimeframeService.SetApiKey` | src/Service/TimeframeService.php:162-167 | Changes only the API key of the service and of its builder, which stay equal. |
| `Timeframes.TimeframeService.SetSandbox` | src/Service/TimeframeService.php:176-181 | Changes only the sandbox flag of the service and of its builder, which stay equal. |
| `Timeframes.TimeframeService.SetRequestFactory` | src/Service/TimeframeService.php:190-195 | Changes only the request factory of the service and of its builder, which stay equal. |
| `Timeframes.TimeframeService.SetStreamFactory` | src/Service/TimeframeService.php:204-209 | Changes only the stream factory of the service and of its builder, which stay equal. |
| `Scenario.RepeatedDeliveryDateCall` | src/Service/DeliveryDateService.php:130-149 | With an empty pool, a backend answering 200 and a codec whose printed responses parse, two identical calls reach the backend once in total and return the same entity. |
| `Shipments.FindProperty` | src/Entity/Response/CompleteStatusResponseShipment.php:59-133 | Resolves a wire name to the first declared property whose name or alias it is. If none accepts it, the result says so. |
| `Shipments.ResolvesToDeclaringProperty` | src/Entity/Response/CompleteStatusResponseShipment.php:59-133 | A wire name accepted by the property at position i resolves to i. |
| `Shipments.PropertiesAreUnambiguous` | src/Entity/Response/CompleteStatusResponseShipment.php:59-133 | No wire name (name or alias) is accepted by two different declared properties. |
| `Shipments.ArrayPropertyNamesExact` | src/Entity/Response/CompleteStatusResponseShipment.php:59-133 | The list of array property names holds a name exactly when some declared property with that name is `isArray`. |
| `Shipments.ArrayProperties` | src/Entity/Response/CompleteStatusResponseShipment.php:59-133 | The properties declared `isArray` are exactly Addresses, Amounts, Events, OldStatuses, ProductOptions and Warnings, in that order. |
| `Shipments.AmountAliasResolvesToAmounts` | src/Entity/Response/CompleteStatusResponseShipment.php:63-65 | The wire name `Amount` resolves to the `Amounts` array property. |
| `Shipments.GroupsIsNotDeclaredArray` | src/Entity/Response/CompleteStatusResponseShipment.php:91-93 | `Groups` is typed Group but not declared `isArray`, although the PHP property is an array. |
| `Shipments.AsList` | src/Entity/Response/CompleteStatusResponseShipment.php:594-596 | A value that is not a list becomes a one-element list. A list is kept as it is. |
| `Shipments.NormalizeAddresses` | src/Entity/Response/CompleteStatusResponseShipment.php:588-600 | With a non-null `Address` in the wrapper object: `Address` is removed and `Addresses` holds it as a list, overwriting any earlier `Addresses`, and every other wrapper key is unchanged. Without one (or without a wrapper object) the document is unchanged. No top-level key other than the wrapper changes. |
| `Shipments.JsonDeserialize` | src/Entity/Response/CompleteStatusResponseShipment.php:588-600 | The generic deserialiser receives the normalised document, which is the document itself when there is no `Address` to move. |
| `Shipments.NormalizeAddressesIsIdempotent` | src/Entity/Response/CompleteStatusResponseShipment.php:590-597 | Normalising twice gives the same document as normalising once. |
| `Shipments.SingleAddressIsOneElementList` | src/Entity/Response/CompleteStatusResponseShipment.php:594-596 | A single `Address` object and a one-element `Address` list normalise to the same document. |
| `Shipments.NormalizedAddressesFitTheTable` | src/Entity/Response/CompleteStatusResponseShipment.php:59-61 | After normalisation `Addresses` holds a list, and the table resolves `Addresses` to a property declared `isArray`. |
| `Shipments.DeliveryDateValue` | src/Entity/Response/CompleteStatusResponseShipment.php:562-575 | Null and date objects are kept as given. A string is parsed in Europe/Amsterdam. A parse failure becomes an InvalidArgumentException with the inner message, code 0 and the inner exception as previous. |
| `Shipments.CompleteStatusResponseShipment.Empty` | src/Entity/Response/CompleteStatusResponseShipment.php:59-133 | Every property starts as null. |
| `Shipments.CompleteStatusResponseShipment.Construct` | src/Entity/Response/CompleteStatusResponseShipment.php:138-187 | A fresh object in which every property equals its argument, except a string delivery date, which is stored parsed. If that date does not parse, construction throws the setter's exception. |
| `Shipments.CompleteStatusResponseShipment.SetDeliveryDate` | src/Entity/Response/CompleteStatusResponseShipment.php:552-575 | Stores DeliveryDateValue's date and `getDeliveryDate` returns it. On failure it throws that exception and changes nothing. No other property changes. |
| `Shipments.CompleteStatusResponseShipment.SetAddresses` | src/Entity/Response/CompleteStatusResponseShipment.php:192-207 | Stores exactly its argument, the getter returns it, and no other property changes. |
| `Shipments.CompleteStatusResponseShipment.SetAmounts` | src/Entity/Response/CompleteStatusResponseShipment.php:212-227 | Stores exactly its argument, the getter returns it, and no other property changes. |
| `Shipments.CompleteStatusResponseShipment.SetBarcode` | src/Entity/Response/CompleteStatusResponseShipment.php:232-247 | Stores exactly its argument, the getter returns it, and no other property changes. |
| `Shipments.CompleteStatusResponseShipment.SetCustomer` | src/Entity/Response/CompleteStatusResponseShipment.php:252-267 | Stores exactly its argument, the getter returns it, and no other property changes. |
| `Shipments.CompleteStatusResponseShipment.SetDimension` | src/Entity/Response/CompleteStatusResponseShipment.php:272-287 | Stores exactly its argument, the getter returns it, and no other property changes. |
| `Shipments.CompleteStatusResponseShipment.SetEvents` | src/Entity/Response/CompleteStatusResponseShipment.php:292-307 | Stores exactly its argument, the getter returns it, and no other property changes. |
| `Shipments.CompleteStatusResponseShipment.SetExpectation` | src/Entity/Response/CompleteStatusResponseShipment.php:312-327 | Stores exactly its argument, the getter returns it, and no other property changes. |
| `Shipments.CompleteStatusResponseShipment.SetGroups` | src/Entity/Response/CompleteStatusResponseShipment.php:332-347 | Stores exactly its argument, the getter returns it, and no other property changes. |
| `Shipments.CompleteStatusResponseShipment.SetMainBarcode` | src/Entity/Response/CompleteStatusResponseShipment.php:352-367 | Stores exactly its argument, the getter returns it, and no other property changes. |
| `Shipments.CompleteStatusResponseShipment.SetOldStatuses` | src/Entity/Response/CompleteStatusResponseShipment.php:372-387 | Stores exactly its argument, the getter returns it, and no other property changes. |
| `Shipments.CompleteStatusResponseShipment.SetProductCode` | src/Entity/Response/CompleteStatusResponseShipment.php:392-407 | Stores exactly its argument, the getter returns it, and no other property changes. |
| `Shipments.CompleteStatusResponseShipment.SetProductDescription` | src/Entity/Response/CompleteStatusResponseShipment.php:412-427 | Stores exactly its argument, the getter returns it, and no other property changes. |
| `Shipments.CompleteStatusResponseShipment.SetProductOptions` | src/Entity/Response/CompleteStatusResponseShipment.php:432-447 | Stores exactly its argument, the getter returns it, and no other property changes. |
| `Shipments.CompleteStatusResponseShipment.SetReference` | src/Entity/Response/CompleteStatusResponseShipment.php:452-467 | Stores exactly its argument, the getter returns it, and no other property changes. |
| `Shipments.CompleteStatusResponseShipment.SetShipmentAmount` | src/Entity/Response/CompleteStatusResponseShipment.php:472-487 | Stores exactly its argument, the getter returns it, and no other property changes. |
| `Shipments.CompleteStatusResponseShipment.SetShipmentCounter` | src/Entity/Response/CompleteStatusResponseShipment.php:492-507 | Stores exactly its argument, the getter returns it, and no other property changes. |
| `Shipments.CompleteStatusResponseShipment.SetStatus` | src/Entity/Response/CompleteStatusResponseShipment.php:512-527 | Stores exactly its argument, the getter returns it, and no other property changes. |
| `Shipments.CompleteStatusResponseShipment.SetWarnings` | src/Entity/Response/CompleteStatusResponseShipment.php:532-547 | Stores exactly its argument, the getter returns it, and no other property changes. |

### How the two services treat a stored entry

The services differ in only one place: `getTimeframes` wraps the parse of a stored string in a `try`/`catch` of `\InvalidArgumentException` (src/Service/TimeframeService.php:134-137) and then dispatches as on a miss (`CorruptEntryIsTreatedAsMiss`). `getDeliveryDate` and `getSentDate` have no such `catch`: a stored string that fails to parse propagates the parser's exception (src/Service/DeliveryDateService.php:134-137), with no dispatch (`DeliveryDateFlow`).

In both services the store test does not look at where the response came from. A replayed 200 response that the processor accepts is therefore written back to the cache (src/Service/DeliveryDateService.php:143-146, src/Service/TimeframeService.php:144-150), as `ReplayedOkResponseIsWrittenBack` shows.

## Left out

- Cache expiry and TTL: `AbstractCacheableService` is not part of this model. The `ttl` constructor argument is not modelled, and an item is a hit exactly when its key is in the pool.
- Cache-key derivation: modelled as an arbitrary deterministic function of the request entity.
- How `retrieveCachedResponseItem` finds an item (it is in `AbstractCacheableService`, which is not part of this model): modelled as "no item without a pool, otherwise `getItem` under the entity's cache key". The message of `getItem`'s exception is the model's own wording.
- A failure of `cacheResponseItem` after the response is processed (a pool whose `save` throws) is not modelled: the model's `save` always succeeds.
- The HTTP client, PSR-7 parsing and printing, the request builders' request construction and the response processors' decoding and fault mapping: these are function parameters. The HTTP client's answer may depend on how many calls it has received.
- `TimeframeService`'s store test `$response instanceof ResponseInterface` (src/Service/TimeframeService.php:145): it always holds in the model, because a response is in hand at that point whenever the call has not already thrown.
- `ResponseProcessorSettersTrait`, `HiddenString` secrecy and the PSR-17 factories: the factories and the API key are opaque values that are only compared for equality.
- The fluent `return $this` of every setter (services and entity): the setters return nothing.
- `Shipments.CompleteStatusResponseShipment.GetAddresses`, `GetAmounts`, `GetBarcode`, `GetCustomer`, `GetDeliveryDate`, `GetDimension`, `GetEvents`, `GetExpectation`, `GetGroups`, `GetMainBarcode`, `GetOldStatuses`, `GetProductCode`, `GetProductDescription`, `GetProductOptions`, `GetReference`, `GetShipmentAmount`, `GetShipmentCounter`, `GetStatus`, `GetWarnings` (src/Entity/Response/CompleteStatusResponseShipment.php:192-555): each returns its property and carries no contract of its own. What each returns is stated in its setter's postcondition.
- `jsonDeserialize` changes the caller's `stdClass` in place. The model is a function on the property map, so the caller's document keeping its normalised form afterwards is not captured. Neither is the order of `stdClass` properties.
- The generic `AbstractEntity::jsonDeserialize` marshaller, attribute reflection and the nested entity classes (StatusAddress, Amount, …): the marshaller is a parameter and the nested entities are opaque values.
- Real date parsing and the time-zone database: `setDeliveryDate` uses a parser parameter, which is always called with the zone `Europe/Amsterdam`.
- The SOAP request builders and processors, `ShippingStatusServiceInterface` (signatures only) and the SOAP location service test are not part of this model.
