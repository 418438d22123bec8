/** The settings a service shares with its REST request builder, and the builder. */
module RequestBuilders {
  import opened Wrappers
  import opened Values
  import opened Http

  /** `ParagonIE\HiddenString\HiddenString`: only compared for equality. */
  datatype HiddenString = HiddenString(secret: string)

  /** PSR-17 factories, only compared for equality. */
  datatype RequestFactory = RequestFactory(id: nat)
  datatype StreamFactory = StreamFactory(id: nat)

  /** The four settings a service keeps in step with its request builder. */
  datatype Settings = Settings(apiKey: HiddenString, sandbox: bool, requestFactory: RequestFactory, streamFactory: StreamFactory)

  /** A REST request builder: its settings and the way it turns a request
      entity into an HTTP request for one operation using them, or throws (an
      entity it cannot serialise, a setting it refuses). */
  class RequestBuilder {
    var apiKey: HiddenString
    var sandbox: bool
    var requestFactory: RequestFactory
    var streamFactory: StreamFactory
    const build: (Settings, Operation, Entity) -> Result<HttpRequest, Throwable>

    constructor (settings: Settings, build: (Settings, Operation, Entity) -> Result<HttpRequest, Throwable>)
      ensures Config() == settings && this.build == build
    {
      apiKey := settings.apiKey;
      sandbox := settings.sandbox;
      requestFactory := settings.requestFactory;
      streamFactory := settings.streamFactory;
      this.build := build;
    }

    function Config(): (settings: Settings)
      reads this
    {
      Settings(apiKey, sandbox, requestFactory, streamFactory)
    }

    /** The request built for `operation` from `entity` with the current settings. */
    function Build(operation: Operation, entity: Entity): (request: Result<HttpRequest, Throwable>)
      reads this
    {
      build(Config(), operation, entity)
    }

    method SetApiKey(apiKey: HiddenString)
      modifies this
      ensures Config() == old(Config()).(apiKey := apiKey)
    {
      this.apiKey := apiKey;
    }

    method SetSandbox(sandbox: bool)
      modifies this
      ensures Config() == old(Config()).(sandbox := sandbox)
    {
      this.sandbox := sandbox;
    }

    method SetRequestFactory(requestFactory: RequestFactory)
      modifies this
      ensures Config() == old(Config()).(requestFactory := requestFactory)
    {
      this.requestFactory := requestFactory;
    }

    method SetStreamFactory(streamFactory: StreamFactory)
      modifies this
      ensures Config() == old(Config()).(streamFactory := streamFactory)
    {
      this.streamFactory := streamFactory;
    }
  }
}
