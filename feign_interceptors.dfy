/** Feign's `RequestTemplate`, reduced to its header multimap. */
module FeignTemplate {
  import opened HeaderOverlay

  class RequestTemplate {
    var headers: HeaderMultimap

    constructor (headers: HeaderMultimap)
      ensures this.headers == headers
    {
      this.headers := headers;
    }
  }
}

/** The Feign propagator of the `net.cobery` package family: the configured header names are used. */
module CoberyFeign {
  import opened Java
  import opened DefaultRequestCorrelation
  import opened OutboundHeaders
  import opened FeignTemplate
  import Props = RequestCorrelationProperties
  import RequestCorrelationConsts
  import RequestCorrelationUtils

  class FeignCorrelationInterceptor {
    const properties: Props.RequestCorrelationProperties

    constructor (properties: Props.RequestCorrelationProperties)
      ensures this.properties == properties
    {
      this.properties := properties;
    }

    /** The public constructor rejects null properties. */
    static method Create(properties: Props.RequestCorrelationProperties?) returns (r: Result<FeignCorrelationInterceptor>)
      ensures r.Thrown? <==> properties == null
      ensures r.Thrown? ==> r.exception == IllegalArgumentException
      ensures r.Ok? ==> fresh(r.value) && r.value.properties == properties
    {
      if properties == null {
        return Thrown(IllegalArgumentException);
      }
      var interceptor := new FeignCorrelationInterceptor(properties);
      r := Ok(interceptor);
    }

    /** Appends each non-null current id to the template under its configured name. */
    method Apply(template: RequestTemplate, bound: Option<RequestAttributes>)
      modifies template
      ensures template.headers == Propagate(old(template.headers), properties.sessionHeaderName, properties.requestHeaderName,
                                            RequestCorrelationUtils.GetCurrentSessionId(bound),
                                            RequestCorrelationUtils.GetCurrentRequestId(bound))
    {
      var sessionId := RequestCorrelationUtils.GetCurrentSessionId(bound);
      if sessionId.Some? {
        template.headers := Add(template.headers, properties.sessionHeaderName, sessionId.value);
      }
      var requestId := RequestCorrelationUtils.GetCurrentRequestId(bound);
      if requestId.Some? {
        template.headers := Add(template.headers, properties.requestHeaderName, requestId.value);
      }
    }
  }

  /**
   * Custom names are honoured: with two distinct names other than the defaults configured and
   * both ids bound, an empty template ends with one value under each configured name and nothing
   * under the defaults.
   */
  lemma CustomHeaderNamesHonoured(interceptor: FeignCorrelationInterceptor, bound: Option<RequestAttributes>,
                                  sessionId: string, requestId: string)
    requires interceptor.properties.sessionHeaderName != interceptor.properties.requestHeaderName
    requires interceptor.properties.sessionHeaderName != RequestCorrelationConsts.SESSION_HEADER_NAME
    requires interceptor.properties.sessionHeaderName != RequestCorrelationConsts.REQUEST_HEADER_NAME
    requires interceptor.properties.requestHeaderName != RequestCorrelationConsts.SESSION_HEADER_NAME
    requires interceptor.properties.requestHeaderName != RequestCorrelationConsts.REQUEST_HEADER_NAME
    requires RequestCorrelationUtils.GetCurrentSessionId(bound) == Some(sessionId)
    requires RequestCorrelationUtils.GetCurrentRequestId(bound) == Some(requestId)
    ensures var headers := Propagate(map[], interceptor.properties.sessionHeaderName, interceptor.properties.requestHeaderName,
                                     RequestCorrelationUtils.GetCurrentSessionId(bound),
                                     RequestCorrelationUtils.GetCurrentRequestId(bound));
            && headers == map[interceptor.properties.sessionHeaderName := [sessionId],
                              interceptor.properties.requestHeaderName := [requestId]]
            && RequestCorrelationConsts.SESSION_HEADER_NAME !in headers
            && RequestCorrelationConsts.REQUEST_HEADER_NAME !in headers
  {
    FromEmptyEachNameHasOneValue(interceptor.properties.sessionHeaderName, interceptor.properties.requestHeaderName,
                                 sessionId, requestId);
  }
}

/**
 * The Feign propagator of the `net.saliman` package family, as written: it keeps the configured
 * properties but writes under the constant default names.
 */
module SalimanFeign {
  import opened Java
  import opened DefaultRequestCorrelation
  import opened OutboundHeaders
  import opened FeignTemplate
  import Props = RequestCorrelationProperties
  import RequestCorrelationConsts
  import RequestCorrelationUtils

  /** The headers `apply` leaves on a template: the configuration plays no part. */
  function AppliedHeaders(headers: HeaderOverlay.HeaderMultimap, bound: Option<RequestAttributes>): HeaderOverlay.HeaderMultimap {
    Propagate(headers, RequestCorrelationConsts.SESSION_HEADER_NAME, RequestCorrelationConsts.REQUEST_HEADER_NAME,
              RequestCorrelationUtils.GetCurrentSessionId(bound), RequestCorrelationUtils.GetCurrentRequestId(bound))
  }

  class FeignCorrelationInterceptor {
    const properties: Props.RequestCorrelationProperties

    constructor (properties: Props.RequestCorrelationProperties)
      ensures this.properties == properties
    {
      this.properties := properties;
    }

    /** The public constructor rejects null properties. */
    static method Create(properties: Props.RequestCorrelationProperties?) returns (r: Result<FeignCorrelationInterceptor>)
      ensures r.Thrown? <==> properties == null
      ensures r.Thrown? ==> r.exception == IllegalArgumentException
      ensures r.Ok? ==> fresh(r.value) && r.value.properties == properties
    {
      if properties == null {
        return Thrown(IllegalArgumentException);
      }
      var interceptor := new FeignCorrelationInterceptor(properties);
      r := Ok(interceptor);
    }

    /** Appends each non-null current id under the constant name, whatever names are configured. */
    method Apply(template: RequestTemplate, bound: Option<RequestAttributes>)
      modifies template
      ensures template.headers == AppliedHeaders(old(template.headers), bound)
    {
      var sessionId := RequestCorrelationUtils.GetCurrentSessionId(bound);
      if sessionId.Some? {
        template.headers := Add(template.headers, RequestCorrelationConsts.SESSION_HEADER_NAME, sessionId.value);
      }
      var requestId := RequestCorrelationUtils.GetCurrentRequestId(bound);
      if requestId.Some? {
        template.headers := Add(template.headers, RequestCorrelationConsts.REQUEST_HEADER_NAME, requestId.value);
      }
    }
  }

  /** With null ids (no context), nothing is added. */
  lemma NoIdsNoHeaders(headers: HeaderOverlay.HeaderMultimap, bound: Option<RequestAttributes>)
    requires RequestCorrelationUtils.GetCurrentSessionId(bound).None? && RequestCorrelationUtils.GetCurrentRequestId(bound).None?
    ensures AppliedHeaders(headers, bound) == headers
  {
    NoContextLeavesHeadersUnchanged(headers, RequestCorrelationConsts.SESSION_HEADER_NAME, RequestCorrelationConsts.REQUEST_HEADER_NAME);
  }

  /** With both ids bound, an empty template ends with exactly one value under each default name. */
  lemma DefaultNamesHoldOneValueEach(bound: Option<RequestAttributes>, sessionId: string, requestId: string)
    requires RequestCorrelationUtils.GetCurrentSessionId(bound) == Some(sessionId)
    requires RequestCorrelationUtils.GetCurrentRequestId(bound) == Some(requestId)
    ensures AppliedHeaders(map[], bound)
            == map[RequestCorrelationConsts.SESSION_HEADER_NAME := [sessionId], RequestCorrelationConsts.REQUEST_HEADER_NAME := [requestId]]
  {
    FromEmptyEachNameHasOneValue(RequestCorrelationConsts.SESSION_HEADER_NAME, RequestCorrelationConsts.REQUEST_HEADER_NAME,
                                 sessionId, requestId);
  }

  /**
   * The discrepancy: whatever custom names are configured (any names other than the defaults),
   * with both ids bound an empty template gets neither custom name, and the ids go under the
   * defaults instead.
   */
  lemma CustomHeaderNamesIgnored(interceptor: FeignCorrelationInterceptor, bound: Option<RequestAttributes>,
                                 sessionId: string, requestId: string)
    requires interceptor.properties.sessionHeaderName != RequestCorrelationConsts.SESSION_HEADER_NAME
    requires interceptor.properties.sessionHeaderName != RequestCorrelationConsts.REQUEST_HEADER_NAME
    requires interceptor.properties.requestHeaderName != RequestCorrelationConsts.SESSION_HEADER_NAME
    requires interceptor.properties.requestHeaderName != RequestCorrelationConsts.REQUEST_HEADER_NAME
    requires RequestCorrelationUtils.GetCurrentSessionId(bound) == Some(sessionId)
    requires RequestCorrelationUtils.GetCurrentRequestId(bound) == Some(requestId)
    ensures interceptor.properties.sessionHeaderName !in AppliedHeaders(map[], bound)
    ensures interceptor.properties.requestHeaderName !in AppliedHeaders(map[], bound)
    ensures AppliedHeaders(map[], bound)[RequestCorrelationConsts.SESSION_HEADER_NAME] == [sessionId]
    ensures AppliedHeaders(map[], bound)[RequestCorrelationConsts.REQUEST_HEADER_NAME] == [requestId]
  {
    DefaultNamesHoldOneValueEach(bound, sessionId, requestId);
  }
}
