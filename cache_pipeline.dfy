/** One invocation of a cacheable service operation, as a value: which cache
    item it found, what it answered, which HTTP requests it dispatched and what
    it wrote back to the cache. The service methods in DeliveryDates and
    Timeframes are proved to behave as these functions say. */
module CachePipeline {
  import opened Wrappers
  import opened Values
  import opened Http
  import opened Cache

  /** A write of `value` under `key` into the cache pool. */
  datatype CacheWrite = CacheWrite(key: string, value: string)

  /** The observable effect of one call: the entity returned (or the exception
      thrown), the response that was processed, the requests handed to the
      HTTP client, and the cache write. */
  datatype Invocation = Invocation(
    result: Result<Entity, Throwable>,
    response: Option<HttpResponse>,
    dispatched: seq<HttpRequest>,
    written: Option<CacheWrite>)

  /** The item exists (a cache pool is configured) and holds a stored string. */
  predicate IsHit(item: Option<CacheItem>)
  {
    item.Some? && item.value.IsHit()
  }

  /** The pool's contents after an invocation's write, if any. */
  function Written(items: map<string, string>, write: Option<CacheWrite>): (r: map<string, string>)
    ensures write.None? ==> r == items
    ensures write.Some? ==> r.Keys == items.Keys + {write.value.key} && r[write.value.key] == write.value.value
    ensures write.Some? ==> forall k :: k in items && k != write.value.key ==> r[k] == items[k]
  {
    if write.Some? then items[write.value.key := write.value.value] else items
  }

  /** `retrieveCachedResponseItem`, shared by both services: no item when no
      pool is configured, otherwise the pool's item under the entity's cache
      key, or the exception `getItem` throws for an illegal key. */
  function RetrieveCachedResponseItem(cache: CacheItemPool?, cacheKey: Entity -> string, entity: Entity): (r: Result<Option<CacheItem>, Throwable>)
    reads cache
    ensures cache == null ==> r == Success(None)
    ensures cache != null ==> (r.Failure? <==> cache.GetItem(cacheKey(entity)).Failure?)
    ensures cache != null && r.Failure? ==> r.error == cache.GetItem(cacheKey(entity)).error
    ensures cache != null && r.Success? ==> r.value == Some(cache.GetItem(cacheKey(entity)).value)
  {
    if cache == null then Success(None)
    else match cache.GetItem(cacheKey(entity))
      case Failure(e) => Failure(e)
      case Success(item) => Success(Some(item))
  }

  /** The steps shared by every operation once a response is in hand: process
      it, and write its string form back to the item when an item exists and
      the status is exactly 200. The processor runs first, so a processor that
      throws leaves the cache alone. */
  function ProcessAndStore(
    item: Option<CacheItem>, response: HttpResponse, dispatched: seq<HttpRequest>,
    messages: MessageCodec, processor: ResponseProcessor, operation: Operation): (o: Invocation)
    ensures o.result == processor.process(operation, response)
    ensures o.response == Some(response) && o.dispatched == dispatched
    ensures o.written.Some? <==> item.Some? && response.statusCode == 200 && o.result.Success?
    ensures o.written.Some? ==> o.written.value == CacheWrite(item.value.key, messages.toString(response))
  {
    var processed := processor.process(operation, response);
    if processed.Success? && item.Some? && response.statusCode == 200 then
      Invocation(processed, Some(response), dispatched, Some(CacheWrite(item.value.key, messages.toString(response))))
    else
      Invocation(processed, Some(response), dispatched, None)
  }

  /** `getDeliveryDate` and `getSentDate` once the cache item is in hand: a
      hit is replayed by parsing the stored string, and a parse failure is not
      caught. Otherwise the request is built and, when the builder does not
      throw, dispatched once; `answer` is what the HTTP client replies. */
  function DeliveryDateFlow(
    item: Option<CacheItem>, request: Result<HttpRequest, Throwable>,
    answer: HttpRequest -> Result<HttpResponse, Throwable>,
    messages: MessageCodec, processor: ResponseProcessor, operation: Operation): (o: Invocation)
    // A hit never reaches the HTTP client; a miss reaches it exactly once with
    // the built request, unless building it threw.
    ensures o.dispatched == if IsHit(item) || request.Failure? then [] else [request.value]
    // A hit whose stored string parses replays that response.
    ensures IsHit(item) && messages.parseResponse(item.value.stored.value).Success? ==>
      o.response == Some(messages.parseResponse(item.value.stored.value).value)
    // A stored string that fails to parse ends the call with the parser's exception.
    ensures IsHit(item) && messages.parseResponse(item.value.stored.value).Failure? ==>
      o.result == Failure(messages.parseResponse(item.value.stored.value).error) && o.response.None?
    // On a miss the builder's exception propagates; otherwise the live answer is
    // used, and a transport failure propagates.
    ensures !IsHit(item) && request.Failure? ==> o.result == Failure(request.error) && o.response.None?
    ensures !IsHit(item) && request.Success? ==>
      (answer(request.value).Success? ==> o.response == Some(answer(request.value).value))
      && (answer(request.value).Failure? ==> o.result == Failure(answer(request.value).error) && o.response.None?)
    // The caller gets exactly what the processor made of the response.
    ensures o.response.Some? ==> o.result == processor.process(operation, o.response.value)
    // The cache is written only with an item, a processed response and status 200,
    // and then with that same response's string form.
    ensures o.written.Some? <==> item.Some? && o.response.Some? && o.response.value.statusCode == 200 && o.result.Success?
    ensures o.written.Some? ==> o.written.value == CacheWrite(item.value.key, messages.toString(o.response.value))
  {
    if IsHit(item) then
      match messages.parseResponse(item.value.stored.value)
      case Failure(e) => Invocation(Failure(e), None, [], None)
      case Success(replayed) => ProcessAndStore(item, replayed, [], messages, processor, operation)
    else
      Dispatch(item, request, answer, messages, processor, operation)
  }

  /** The miss path: build, dispatch once, process, store. */
  function Dispatch(
    item: Option<CacheItem>, request: Result<HttpRequest, Throwable>,
    answer: HttpRequest -> Result<HttpResponse, Throwable>,
    messages: MessageCodec, processor: ResponseProcessor, operation: Operation): (o: Invocation)
  {
    match request
    case Failure(e) => Invocation(Failure(e), None, [], None)
    case Success(built) =>
      match answer(built)
      case Failure(e) => Invocation(Failure(e), None, [built], None)
      case Success(response) => ProcessAndStore(item, response, [built], messages, processor, operation)
  }

  /** A stored string whose parse throws PHP's `\InvalidArgumentException`: the
      one exception `getTimeframes` catches. */
  predicate IsCorrupt(item: Option<CacheItem>, messages: MessageCodec)
  {
    IsHit(item) && messages.parseResponse(item.value.stored.value).Failure?
    && messages.parseResponse(item.value.stored.value).error.kind == PhpInvalidArgument
  }

  /** `getTimeframes` once the cache item is in hand: like DeliveryDateFlow,
      except that a stored string whose parse throws `\InvalidArgumentException`
      is passed over and the request is built and dispatched as on a miss. */
  function TimeframeFlow(
    item: Option<CacheItem>, request: Result<HttpRequest, Throwable>,
    answer: HttpRequest -> Result<HttpResponse, Throwable>,
    messages: MessageCodec, processor: ResponseProcessor): (o: Invocation)
    // The HTTP client is skipped exactly when a stored string parses, or its parse
    // throws something other than \InvalidArgumentException, or building the
    // request throws.
    ensures o.dispatched ==
      if (IsHit(item) && !IsCorrupt(item, messages)) || request.Failure? then [] else [request.value]
    ensures IsHit(item) && messages.parseResponse(item.value.stored.value).Success? ==>
      o.response == Some(messages.parseResponse(item.value.stored.value).value)
    ensures IsHit(item) && messages.parseResponse(item.value.stored.value).Failure? && !IsCorrupt(item, messages) ==>
      o.result == Failure(messages.parseResponse(item.value.stored.value).error) && o.response.None?
    // A miss, or a corrupt entry, builds the request; the builder's exception
    // propagates, otherwise the live answer is used and a transport failure propagates.
    ensures (!IsHit(item) || IsCorrupt(item, messages)) && request.Failure? ==>
      o.result == Failure(request.error) && o.response.None?
    ensures (!IsHit(item) || IsCorrupt(item, messages)) && request.Success? ==>
      (answer(request.value).Success? ==> o.response == Some(answer(request.value).value))
      && (answer(request.value).Failure? ==> o.result == Failure(answer(request.value).error) && o.response.None?)
    ensures o.response.Some? ==> o.result == processor.process(GetTimeframes, o.response.value)
    ensures o.written.Some? <==> item.Some? && o.response.Some? && o.response.value.statusCode == 200 && o.result.Success?
    ensures o.written.Some? ==> o.written.value == CacheWrite(item.value.key, messages.toString(o.response.value))
  {
    var replayed: Option<HttpResponse> :=
      if IsHit(item) then
        match messages.parseResponse(item.value.stored.value)
        case Success(r) => Some(r)
        case Failure(_) => None
      else None;
    if IsHit(item) && !IsCorrupt(item, messages) && replayed.None? then
      Invocation(Failure(messages.parseResponse(item.value.stored.value).error), None, [], None)
    else if replayed.Some? then
      ProcessAndStore(item, replayed.value, [], messages, processor, GetTimeframes)
    else
      Dispatch(item, request, answer, messages, processor, GetTimeframes)
  }

  /** The store condition cannot tell a replay from a live call: a 200 response
      read from the cache and processed without error is written back again,
      while no request is dispatched. */
  lemma ReplayedOkResponseIsWrittenBack(
    item: Option<CacheItem>, request: Result<HttpRequest, Throwable>,
    answer: HttpRequest -> Result<HttpResponse, Throwable>,
    messages: MessageCodec, processor: ResponseProcessor, operation: Operation)
    requires IsHit(item)
    requires messages.parseResponse(item.value.stored.value).Success?
    requires messages.parseResponse(item.value.stored.value).value.statusCode == 200
    requires processor.process(operation, messages.parseResponse(item.value.stored.value).value).Success?
    ensures var replayed := messages.parseResponse(item.value.stored.value).value;
      && DeliveryDateFlow(item, request, answer, messages, processor, operation).dispatched == []
      && DeliveryDateFlow(item, request, answer, messages, processor, operation).written
         == Some(CacheWrite(item.value.key, messages.toString(replayed)))
    ensures operation == GetTimeframes ==>
      var replayed := messages.parseResponse(item.value.stored.value).value;
      && TimeframeFlow(item, request, answer, messages, processor).dispatched == []
      && TimeframeFlow(item, request, answer, messages, processor).written
         == Some(CacheWrite(item.value.key, messages.toString(replayed)))
  {
  }

  /** In `getTimeframes` a corrupt entry behaves exactly like a missing value
      under the same key: the request is built and dispatched, with the same
      result and cache write. */
  lemma CorruptEntryIsTreatedAsMiss(
    item: CacheItem, request: Result<HttpRequest, Throwable>,
    answer: HttpRequest -> Result<HttpResponse, Throwable>,
    messages: MessageCodec, processor: ResponseProcessor)
    requires IsCorrupt(Some(item), messages)
    ensures TimeframeFlow(Some(item), request, answer, messages, processor)
         == TimeframeFlow(Some(item.(stored := None)), request, answer, messages, processor)
    ensures TimeframeFlow(Some(item), request, answer, messages, processor).dispatched
         == if request.Success? then [request.value] else []
  {
  }

  /** The two services differ only on a stored string that fails to parse:
      everywhere else their invocations are identical. */
  lemma FlowsAgreeUnlessParseFails(
    item: Option<CacheItem>, request: Result<HttpRequest, Throwable>,
    answer: HttpRequest -> Result<HttpResponse, Throwable>,
    messages: MessageCodec, processor: ResponseProcessor)
    requires !(IsHit(item) && messages.parseResponse(item.value.stored.value).Failure?)
    ensures DeliveryDateFlow(item, request, answer, messages, processor, GetTimeframes)
         == TimeframeFlow(item, request, answer, messages, processor)
  {
  }

  /** Two calls with the same entity against an empty pool: the first
      dispatches once and, on a processed 200, stores the response's string;
      the second finds it and, when that string parses, dispatches nothing and
      returns the processor's verdict on the parsed response. */
  lemma SecondCallIsServedFromCache(
    key: string, items: map<string, string>, request: HttpRequest, first: HttpResponse,
    firstAnswer: HttpRequest -> Result<HttpResponse, Throwable>,
    secondAnswer: HttpRequest -> Result<HttpResponse, Throwable>,
    messages: MessageCodec, processor: ResponseProcessor, operation: Operation)
    requires key !in items
    requires firstAnswer(request) == Success(first)
    requires first.statusCode == 200 && processor.process(operation, first).Success?
    requires messages.parseResponse(messages.toString(first)).Success?
    ensures var one := DeliveryDateFlow(Some(CacheItem(key, None)), Success(request), firstAnswer, messages, processor, operation);
      var after := Written(items, one.written);
      var two := DeliveryDateFlow(Some(CacheItem(key, Some(after[key]))), Success(request), secondAnswer, messages, processor, operation);
      && one.dispatched == [request]
      && key in after && after[key] == messages.toString(first)
      && two.dispatched == []
      && two.result == processor.process(operation, messages.parseResponse(messages.toString(first)).value)
  {
  }
}
