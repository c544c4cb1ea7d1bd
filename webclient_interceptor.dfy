/**
 * The `WebClient` propagator of the `net.cobery` package family: a customizer that registers one
 * exchange filter, which copies each outgoing request with the current ids appended to its headers.
 */
module WebClientInterceptor {
  import opened Java
  import opened HeaderOverlay
  import opened DefaultRequestCorrelation
  import opened OutboundHeaders
  import Props = RequestCorrelationProperties
  import RequestCorrelationUtils

  /** An immutable outgoing request; `from` and `build` copy it. */
  datatype ClientRequest = ClientRequest(httpMethod: string, url: string, headers: HeaderMultimap)

  /** The response the exchange produced; its content is not modelled. */
  datatype ClientResponse = ClientResponse(status: int)

  /** The next exchange step: it records each request it is given and answers with a fixed response. */
  class ExchangeFunction {
    const answer: ClientResponse
    var exchanged: seq<ClientRequest>

    constructor (answer: ClientResponse)
      ensures this.answer == answer && exchanged == []
    {
      this.answer := answer;
      exchanged := [];
    }

    method Exchange(request: ClientRequest) returns (response: ClientResponse)
      modifies this
      ensures exchanged == old(exchanged) + [request]
      ensures response == answer
    {
      exchanged := exchanged + [request];
      response := answer;
    }
  }

  /** A filter registered on a builder: the correlation filter of some customizer, or any other. */
  datatype ExchangeFilterFunction = CorrelationHeaders(owner: WebClientCorrelationInterceptor) | OtherFilter(name: string)

  /** The part of `WebClient.Builder` the customizer touches: its filter list. */
  class WebClientBuilder {
    var filters: seq<ExchangeFilterFunction>

    constructor (filters: seq<ExchangeFilterFunction>)
      ensures this.filters == filters
    {
      this.filters := filters;
    }

    method Filter(filter: ExchangeFilterFunction)
      modifies this
      ensures filters == old(filters) + [filter]
    {
      filters := filters + [filter];
    }
  }

  class WebClientCorrelationInterceptor {
    const properties: Props.RequestCorrelationProperties

    constructor (properties: Props.RequestCorrelationProperties)
      ensures this.properties == properties
    {
      this.properties := properties;
    }

    /** The public constructor rejects null properties. */
    static method Create(properties: Props.RequestCorrelationProperties?) returns (r: Result<WebClientCorrelationInterceptor>)
      ensures r.Thrown? <==> properties == null
      ensures r.Thrown? ==> r.exception == IllegalArgumentException
      ensures r.Ok? ==> fresh(r.value) && r.value.properties == properties
    {
      if properties == null {
        return Thrown(IllegalArgumentException);
      }
      var interceptor := new WebClientCorrelationInterceptor(properties);
      r := Ok(interceptor);
    }

    /** Registers exactly one filter, this customizer's, after those already on the builder. */
    method Customize(builder: WebClientBuilder)
      modifies builder
      ensures builder.filters == old(builder.filters) + [CorrelationHeaders(this)]
    {
      builder.Filter(CorrelationHeaders(this));
    }

    /**
     * The request the filter builds: a copy of the given one with each non-null current id
     * appended under its configured name; method and URL are copied unchanged.
     */
    function CorrelatedRequest(clientRequest: ClientRequest, bound: Option<RequestAttributes>): (r: ClientRequest)
      reads properties
      ensures r.httpMethod == clientRequest.httpMethod && r.url == clientRequest.url
      ensures r.headers == Propagate(clientRequest.headers, properties.sessionHeaderName, properties.requestHeaderName,
                                     RequestCorrelationUtils.GetCurrentSessionId(bound),
                                     RequestCorrelationUtils.GetCurrentRequestId(bound))
    ensures properties.sessionHeaderName != properties.requestHeaderName ==>
              && Values(r.headers, properties.sessionHeaderName)
                 == Values(clientRequest.headers, properties.sessionHeaderName) + Contribution(RequestCorrelationUtils.GetCurrentSessionId(bound))
              && Values(r.headers, properties.requestHeaderName)
                 == Values(clientRequest.headers, properties.requestHeaderName) + Contribution(RequestCorrelationUtils.GetCurrentRequestId(bound))
    ensures forall name :: name != properties.sessionHeaderName && name != properties.requestHeaderName ==>
              Values(r.headers, name) == Values(clientRequest.headers, name)
    {
      var sessionId := RequestCorrelationUtils.GetCurrentSessionId(bound);
      var requestId := RequestCorrelationUtils.GetCurrentRequestId(bound);
      PropagateAppends(clientRequest.headers, properties.sessionHeaderName, properties.requestHeaderName, sessionId, requestId);
      var withSession := AddIfPresent(clientRequest.headers, properties.sessionHeaderName, sessionId);
      ClientRequest(clientRequest.httpMethod, clientRequest.url, AddIfPresent(withSession, properties.requestHeaderName, requestId))
    }

    /** The filter's body: the new request goes to `next` exactly once, and its response is returned. */
    method AddCorrelationHeaders(clientRequest: ClientRequest, next: ExchangeFunction, bound: Option<RequestAttributes>)
      returns (response: ClientResponse)
      modifies next
      ensures next.exchanged == old(next.exchanged) + [CorrelatedRequest(clientRequest, bound)]
      ensures response == next.answer
    {
      var newRequest := CorrelatedRequest(clientRequest, bound);
      response := next.Exchange(newRequest);
    }
  }

  /** The copy leaves the given request as it was: with no current context, the copy equals it. */
  lemma NoContextCopiesRequest(interceptor: WebClientCorrelationInterceptor, clientRequest: ClientRequest)
    ensures interceptor.CorrelatedRequest(clientRequest, None) == clientRequest
  {
    NoContextLeavesHeadersUnchanged(clientRequest.headers, interceptor.properties.sessionHeaderName,
                                    interceptor.properties.requestHeaderName);
  }
}
