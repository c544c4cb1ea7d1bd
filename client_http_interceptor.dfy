/**
 * The `RestTemplate` propagator of the `com.tipsymcstagger` package family: before a request is
 * executed, the current ids are appended to its headers under the configured names.
 */
module ClientHttpInterceptor {
  import opened Java
  import opened HeaderOverlay
  import opened DefaultRequestCorrelation
  import opened OutboundHeaders
  import Props = RequestCorrelationProperties
  import RequestCorrelationUtils

  /** An outgoing request whose header map is mutable. */
  class HttpRequest {
    var headers: HeaderMultimap

    constructor (headers: HeaderMultimap)
      ensures this.headers == headers
    {
      this.headers := headers;
    }
  }

  /** The response the rest of the interceptor chain produced; its content is not modelled. */
  datatype ClientHttpResponse = ClientHttpResponse(status: int)

  /** One call of `execute`: the request, its headers at that moment, and the body. */
  datatype Execution = Execution(request: HttpRequest, headers: HeaderMultimap, body: seq<bv8>)

  /** The rest of the chain: it records each call and answers with a response or an I/O error. */
  class ClientHttpRequestExecution {
    const answer: Result<ClientHttpResponse>
    var executions: seq<Execution>

    constructor (answer: Result<ClientHttpResponse>)
      ensures this.answer == answer && executions == []
    {
      this.answer := answer;
      executions := [];
    }

    method Execute(request: HttpRequest, body: seq<bv8>) returns (response: Result<ClientHttpResponse>)
      modifies this
      ensures executions == old(executions) + [Execution(request, request.headers, body)]
      ensures response == answer
    {
      executions := executions + [Execution(request, request.headers, body)];
      response := answer;
    }
  }

  class ClientHttpRequestCorrelationInterceptor {
    const properties: Props.RequestCorrelationProperties

    constructor (properties: Props.RequestCorrelationProperties)
      ensures this.properties == properties
    {
      this.properties := properties;
    }

    /** The public constructor rejects null properties. */
    static method Create(properties: Props.RequestCorrelationProperties?) returns (r: Result<ClientHttpRequestCorrelationInterceptor>)
      ensures r.Thrown? <==> properties == null
      ensures r.Thrown? ==> r.exception == IllegalArgumentException
      ensures r.Ok? ==> fresh(r.value) && r.value.properties == properties
    {
      if properties == null {
        return Thrown(IllegalArgumentException);
      }
      var interceptor := new ClientHttpRequestCorrelationInterceptor(properties);
      r := Ok(interceptor);
    }

    /**
     * Appends each non-null current id under its configured name, then hands the request on
     * exactly once and returns what the execution returned. `bound` is the attribute store of the
     * request bound to the current thread, if any.
     */
    method Intercept(request: HttpRequest, body: seq<bv8>, execution: ClientHttpRequestExecution,
                     bound: Option<RequestAttributes>)
      returns (response: Result<ClientHttpResponse>)
      modifies request, execution
      ensures request.headers == Propagate(old(request.headers), properties.sessionHeaderName, properties.requestHeaderName,
                                           RequestCorrelationUtils.GetCurrentSessionId(bound),
                                           RequestCorrelationUtils.GetCurrentRequestId(bound))
      ensures execution.executions == old(execution.executions) + [Execution(request, request.headers, body)]
      ensures response == execution.answer
    {
      var sessionId := RequestCorrelationUtils.GetCurrentSessionId(bound);
      if sessionId.Some? {
        request.headers := Add(request.headers, properties.sessionHeaderName, sessionId.value);
      }
      var requestId := RequestCorrelationUtils.GetCurrentRequestId(bound);
      if requestId.Some? {
        request.headers := Add(request.headers, properties.requestHeaderName, requestId.value);
      }
      response := execution.Execute(request, body);
    }
  }
}
