/** `TimeframeService`: delivery timeframes over REST, with responses cached
    in an optional PSR-6 pool. */
module Timeframes {
  import opened Wrappers
  import opened Values
  import opened Http
  import opened Cache
  import opened RequestBuilders
  import opened CachePipeline

  class TimeframeService {
    var apiKey: HiddenString
    var sandbox: bool
    var requestFactory: RequestFactory
    var streamFactory: StreamFactory
    const httpClient: HttpClient
    /** The cache pool, or null when the service caches nothing. */
    const cache: CacheItemPool?
    /** How the cache key of a request entity is derived. */
    const cacheKey: Entity -> string
    const messages: MessageCodec
    const requestBuilder: RequestBuilder
    const responseProcessor: ResponseProcessor

    function Config(): (settings: Settings)
      reads this
    {
      Settings(apiKey, sandbox, requestFactory, streamFactory)
    }

    /** The request builder holds the same settings as the service. */
    ghost predicate Valid()
      reads this, requestBuilder
    {
      requestBuilder.Config() == Config()
    }

    /** The builder is created from the service's own settings. */
    constructor (
      apiKey: HiddenString, sandbox: bool, httpClient: HttpClient,
      requestFactory: RequestFactory, streamFactory: StreamFactory,
      cache: CacheItemPool?, cacheKey: Entity -> string, messages: MessageCodec,
      build: (Settings, Operation, Entity) -> Result<HttpRequest, Throwable>, responseProcessor: ResponseProcessor)
      ensures Valid() && fresh(requestBuilder)
      ensures Config() == Settings(apiKey, sandbox, requestFactory, streamFactory)
      ensures requestBuilder.build == build
      ensures this.httpClient == httpClient && this.cache == cache && this.cacheKey == cacheKey
      ensures this.messages == messages && this.responseProcessor == responseProcessor
    {
      this.apiKey := apiKey;
      this.sandbox := sandbox;
      this.httpClient := httpClient;
      this.requestFactory := requestFactory;
      this.streamFactory := streamFactory;
      this.cache := cache;
      this.cacheKey := cacheKey;
      this.messages := messages;
      this.requestBuilder := new RequestBuilder(Settings(apiKey, sandbox, requestFactory, streamFactory), build);
      this.responseProcessor := responseProcessor;
    }

    /** `getTimeframes`: an illegal cache key throws before anything else
        happens; a stored string that Guzzle refuses to parse is passed over. */
    method GetTimeframes(getTimeframes: Entity) returns (r: Result<Entity, Throwable>)
      requires Valid()
      modifies httpClient, cache
      ensures Valid()
      ensures var lookup := old(RetrieveCachedResponseItem(cache, cacheKey, getTimeframes));
        lookup.Failure? ==>
          && r == Failure(lookup.error)
          && httpClient.sent == old(httpClient.sent)
          && (cache != null ==> cache.items == old(cache.items))
      ensures var lookup := old(RetrieveCachedResponseItem(cache, cacheKey, getTimeframes));
        lookup.Success? ==>
          var o := TimeframeFlow(lookup.value, requestBuilder.Build(Operation.GetTimeframes, getTimeframes), old(httpClient.NextAnswers()),
                               messages, responseProcessor);
          && r == o.result
          && httpClient.sent == old(httpClient.sent) + o.dispatched
          && (cache != null ==> cache.items == Written(old(cache.items), o.written))
    {
      var lookup := RetrieveCachedResponseItem(cache, cacheKey, getTimeframes);
      if lookup.Failure? {
        return Failure(lookup.error);
      }
      var item := lookup.value;
      var response: Option<HttpResponse> := None;
      if item.Some? && item.value.IsHit() {
        var parsed := messages.parseResponse(item.value.stored.value);
        if parsed.Success? {
          response := Some(parsed.value);
        } else if parsed.error.kind != PhpInvalidArgument {
          // only \InvalidArgumentException is caught
          return Failure(parsed.error);
        }
      }
      if response.None? {
        var request := requestBuilder.Build(Operation.GetTimeframes, getTimeframes);
        if request.Failure? {
          return Failure(request.error);
        }
        var live := httpClient.DoRequest(request.value);
        if live.Failure? {
          return Failure(live.error);
        }
        response := Some(live.value);
      }
      r := responseProcessor.process(Operation.GetTimeframes, response.value);
      if r.Failure? {
        return;
      }
      if item.Some? && response.value.statusCode == 200 {
        cache.Save(item.value.key, messages.toString(response.value));
      }
    }

    /** Each setter forwards to the request builder first, then updates the
        service, so the two stay equal. */
    method SetApiKey(apiKey: HiddenString)
      requires Valid()
      modifies this, requestBuilder
      ensures Valid()
      ensures Config() == old(Config()).(apiKey := apiKey)
    {
      requestBuilder.SetApiKey(apiKey);
      this.apiKey := apiKey;
    }

    method SetSandbox(sandbox: bool)
      requires Valid()
      modifies this, requestBuilder
      ensures Valid()
      ensures Config() == old(Config()).(sandbox := sandbox)
    {
      requestBuilder.SetSandbox(sandbox);
      this.sandbox := sandbox;
    }

    method SetRequestFactory(requestFactory: RequestFactory)
      requires Valid()
      modifies this, requestBuilder
      ensures Valid()
      ensures Config() == old(Config()).(requestFactory := requestFactory)
    {
      requestBuilder.SetRequestFactory(requestFactory);
      this.requestFactory := requestFactory;
    }

    method SetStreamFactory(streamFactory: StreamFactory)
      requires Valid()
      modifies this, requestBuilder
      ensures Valid()
      ensures Config() == old(Config()).(streamFactory := streamFactory)
    {
      requestBuilder.SetStreamFactory(streamFactory);
      this.streamFactory := streamFactory;
    }
  }
}
