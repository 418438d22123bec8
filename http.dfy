/** The HTTP side of a service call: the exceptions a call can end in, PSR-7
    messages, and the HTTP client the services dispatch through. */
module Http {
  import opened Wrappers
  import opened Values

  /** The exception classes named in the services' `@throws` lists, plus PHP's
      own `\InvalidArgumentException` (thrown by Guzzle's message parser) and a
      plain `\Exception` (thrown by `DateTimeImmutable`). */
  datatype ExceptionKind =
    | PhpInvalidArgument
    | InvalidArgument
    | HttpClient
    | CifDown
    | Cif
    | ResponseError
    | Api
    | Deserialization
    | NotSupported
    | InvalidConfiguration
    | PsrCacheInvalidArgument
    | PlainException

  /** A thrown exception: its class, message, code and the exception it wraps. */
  datatype Throwable = Throwable(kind: ExceptionKind, message: string, code: int, previous: Option<Throwable>)

  datatype HttpRequest = HttpRequest(verb: string, uri: string, headers: map<string, string>, body: string)

  datatype HttpResponse = HttpResponse(statusCode: int, headers: map<string, string>, body: string)

  /** Guzzle's `Message::parseResponse` and `Message::toString`. Nothing relates
      the two: parsing a printed response need not give it back. */
  datatype MessageCodec = MessageCodec(
    parseResponse: string -> Result<HttpResponse, Throwable>,
    toString: HttpResponse -> string)

  /** The operations whose requests the builders build and whose responses the
      processors process. */
  datatype Operation = GetDeliveryDate | GetSentDate | GetTimeframes

  /** A service's response processor: turns the HTTP response of an operation
      into the typed response entity, or throws. */
  datatype ResponseProcessor = ResponseProcessor(process: (Operation, HttpResponse) -> Result<Entity, Throwable>)

  /** The HTTP client as the services see it: every `DoRequest` is logged in
      `sent`, and the answer to the n-th call is `respond(n, request)` — a
      response, or the `HttpClientException` the transport raised. */
  class HttpClient {
    const respond: (nat, HttpRequest) -> Result<HttpResponse, Throwable>
    var sent: seq<HttpRequest>

    constructor (respond: (nat, HttpRequest) -> Result<HttpResponse, Throwable>)
      ensures this.respond == respond && sent == []
    {
      this.respond := respond;
      sent := [];
    }

    /** What the client answers if `request` is the next call it is given. */
    function Answer(request: HttpRequest): (answer: Result<HttpResponse, Throwable>)
      reads this
    {
      respond(|sent|, request)
    }

    /** The answers the client gives to whichever request is its next call. */
    function NextAnswers(): (answers: HttpRequest -> Result<HttpResponse, Throwable>)
      reads this
      ensures forall request :: answers(request) == Answer(request)
    {
      var n := |sent|;
      (request: HttpRequest) => respond(n, request)
    }

    method DoRequest(request: HttpRequest) returns (r: Result<HttpResponse, Throwable>)
      modifies this
      ensures sent == old(sent) + [request]
      ensures r == old(Answer(request))
    {
      r := respond(|sent|, request);
      sent := sent + [request];
    }
  }
}
