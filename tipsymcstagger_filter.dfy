/**
 * The inbound filter of the `com.tipsymcstagger` package family: `RequestCorrelationFilter` and
 * its private `CorrelatedServletRequest`, proved to do what `CorrelationFilterSpec` describes.
 */
module TipsymcstaggerFilter {
  import opened Java
  import opened DefaultRequestCorrelation
  import opened HeaderOverlay
  import opened Servlet
  import opened CorrelationFilterSpec
  import Props = RequestCorrelationProperties
  import RequestCorrelationConsts

  /**
   * The request handed to the chain: extra headers laid over the wrapped request. Attribute writes
   * go through to the wrapped request.
   */
  class CorrelatedServletRequest {
    const request: ServletRequest
    var additionalHeaders: map<string, string>

    constructor (request: ServletRequest)
      ensures this.request == request && additionalHeaders == map[]
    {
      this.request := request;
      additionalHeaders := map[];
    }

    /** A `put` into a `ConcurrentHashMap`, which rejects a null value and then changes nothing. */
    method SetHeader(key: string, value: Option<string>) returns (thrown: Option<Exception>)
      modifies this
      ensures value.None? ==> thrown == Some(NullPointerException) && additionalHeaders == old(additionalHeaders)
      ensures value.Some? ==> thrown.None? && additionalHeaders == old(additionalHeaders)[key := value.value]
    {
      if value.None? {
        return Some(NullPointerException);
      }
      additionalHeaders := additionalHeaders[key := value.value];
      thrown := None;
    }

    /** Inherited from the servlet wrapper: stored in the wrapped request's attributes. */
    method SetAttribute(name: string, value: AttributeValue)
      modifies request
      ensures request.attributes == old(request.attributes)[name := value]
    {
      request.SetAttribute(name, value);
    }

    /**
     * An overlaid name reads as its overlay value; any other name as in the wrapped request. The
     * single-value lookup always gives the first value of the multi-value one, or null when it has none.
     */
    function GetHeader(name: string): (r: Option<string>)
      reads this
      ensures name in additionalHeaders ==> r == Some(additionalHeaders[name])
      ensures name !in additionalHeaders ==> r == BaseHeader(request.headers, name)
      ensures r == if GetHeaders(name) == [] then None else Some(GetHeaders(name)[0])
      ensures r.Some? ==> name in GetHeaderNames()
    {
      OverlayHeader(additionalHeaders, request.headers, name)
    }

    /**
     * An overlaid name lists exactly its one overlay value; any other name the wrapped request's
     * values. A name with values is always among the listed names.
     */
    function GetHeaders(name: string): (r: seq<string>)
      reads this
      ensures name in additionalHeaders ==> r == [additionalHeaders[name]]
      ensures name !in additionalHeaders ==> r == BaseHeaders(request.headers, name)
      ensures |r| > 0 ==> name in GetHeaderNames()
    {
      OverlayHeaders(additionalHeaders, request.headers, name)
    }

    /** Every overlaid name and every name of the wrapped request, each once. */
    function GetHeaderNames(): (names: set<string>)
      reads this
      ensures forall name :: name in names <==> name in additionalHeaders || name in request.headers
      ensures additionalHeaders.Keys <= names && request.headers.Keys <= names
    {
      OverlayHeaderNames(additionalHeaders, request.headers)
    }
  }

  /** What `chain.doFilter` was given, if it was called. */
  datatype ChainArgument = NotCalled | PassedOriginal(original: ServletRequest) | PassedWrapper(wrapper: CorrelatedServletRequest)

  class RequestCorrelationFilter {
    const correlationIdGenerator: CorrelationIdGenerator
    const interceptors: seq<Interceptor>
    const properties: Props.RequestCorrelationProperties

    constructor (correlationIdGenerator: CorrelationIdGenerator, interceptors: seq<Interceptor>,
                 properties: Props.RequestCorrelationProperties)
      ensures this.correlationIdGenerator == correlationIdGenerator
      ensures this.interceptors == interceptors && this.properties == properties
    {
      this.correlationIdGenerator := correlationIdGenerator;
      this.interceptors := interceptors;
      this.properties := properties;
    }

    /** The public constructor: each of the three arguments is checked against null. */
    static method Create(correlationIdGenerator: Option<CorrelationIdGenerator>, interceptors: Option<seq<Interceptor>>,
                         properties: Props.RequestCorrelationProperties?)
      returns (r: Result<RequestCorrelationFilter>)
      ensures r.Thrown? <==> correlationIdGenerator.None? || interceptors.None? || properties == null
      ensures r.Thrown? ==> r.exception == IllegalArgumentException
      ensures r.Ok? ==> && fresh(r.value)
                        && r.value.correlationIdGenerator == correlationIdGenerator.value
                        && r.value.interceptors == interceptors.value
                        && r.value.properties == properties
    {
      if correlationIdGenerator.None? || interceptors.None? || properties == null {
        return Thrown(IllegalArgumentException);
      }
      var filter := new RequestCorrelationFilter(correlationIdGenerator.value, interceptors.value, properties);
      r := Ok(filter);
    }

    /** The configuration as the filter reads it during a request. */
    function Config(): FilterConfig
      reads properties
    {
      FilterConfig(properties.sessionHeaderName, properties.requestHeaderName, correlationIdGenerator, interceptors)
    }

    /** The stored pair, the overlay value of each configured name, and the wrapper's target. */
    ghost predicate ChainArgumentMatches(request: ServletRequest, chainRequest: Option<ChainRequest>, passed: ChainArgument)
      reads properties
      reads if passed.PassedWrapper? then {passed.wrapper} else {}
    {
      match chainRequest
      case None => passed.NotCalled?
      case Some(Original) => passed == PassedOriginal(request)
      case Some(Wrapped(overlay)) =>
        passed.PassedWrapper? && passed.wrapper.request == request && passed.wrapper.additionalHeaders == overlay
    }

    /** `afterCorrelationIdSet` on each interceptor in list order, up to the first that throws. */
    method TriggerInterceptors(sessionId: Option<string>, requestId: Option<string>)
      returns (calls: seq<Event>, failure: Option<nat>)
      ensures calls == Callbacks(interceptors, AfterCorrelationIdSet, sessionId, requestId)
      ensures failure == FirstFailure(interceptors, AfterCorrelationIdSet)
    {
      calls, failure := [], None;
      var i := 0;
      while i < |interceptors|
        invariant 0 <= i <= |interceptors|
        invariant calls == CallbackRun(AfterCorrelationIdSet, sessionId, requestId, i)
        invariant forall j :: 0 <= j < i ==> !interceptors[j].Throws(AfterCorrelationIdSet)
      {
        calls := calls + [Callback(AfterCorrelationIdSet, i, sessionId, requestId)];
        if interceptors[i].Throws(AfterCorrelationIdSet) {
          CallCountStopsAtFirstFailure(interceptors, AfterCorrelationIdSet, i);
          return calls, Some(i);
        }
        i := i + 1;
      }
      NoFailureCallsEveryone(interceptors, AfterCorrelationIdSet);
    }

    /** `cleanUp` on each interceptor in list order, up to the first that throws. */
    method TriggerInterceptorsCleanup(sessionId: Option<string>, requestId: Option<string>)
      returns (calls: seq<Event>, failure: Option<nat>)
      ensures calls == Callbacks(interceptors, CleanUp, sessionId, requestId)
      ensures failure == FirstFailure(interceptors, CleanUp)
    {
      calls, failure := [], None;
      var i := 0;
      while i < |interceptors|
        invariant 0 <= i <= |interceptors|
        invariant calls == CallbackRun(CleanUp, sessionId, requestId, i)
        invariant forall j :: 0 <= j < i ==> !interceptors[j].Throws(CleanUp)
      {
        calls := calls + [Callback(CleanUp, i, sessionId, requestId)];
        if interceptors[i].Throws(CleanUp) {
          CallCountStopsAtFirstFailure(interceptors, CleanUp, i);
          return calls, Some(i);
        }
        i := i + 1;
      }
      NoFailureCallsEveryone(interceptors, CleanUp);
    }

    /**
     * Wraps the request, stores the pair as its attribute, then sets the two headers under the
     * configured names, session id first; a null id makes the header write throw.
     */
    method EnrichRequest(request: ServletRequest, correlation: DefaultRequestCorrelation)
      returns (wrapper: CorrelatedServletRequest, thrown: Option<Exception>)
      modifies request
      ensures fresh(wrapper) && wrapper.request == request
      ensures request.attributes == Correlated(old(request.attributes), correlation.sessionId, correlation.requestId)
      ensures thrown.Some? <==> correlation.sessionId.None? || correlation.requestId.None?
      ensures thrown.Some? ==> thrown == Some(NullPointerException)
      ensures thrown.None? ==> wrapper.additionalHeaders == Overlay(Config(), correlation.sessionId.value, correlation.requestId.value)
    {
      wrapper := new CorrelatedServletRequest(request);
      wrapper.SetAttribute(RequestCorrelationConsts.ATTRIBUTE_NAME, CorrelationValue(correlation));
      thrown := wrapper.SetHeader(properties.sessionHeaderName, correlation.sessionId);
      if thrown.Some? {
        return;
      }
      thrown := wrapper.SetHeader(properties.requestHeaderName, correlation.requestId);
    }

    /** Settles both ids, notifies the interceptors, wraps the request and runs the chain inside `try`/`finally`. */
    method DoHttpFilter(request: ServletRequest, chain: FilterChain)
      returns (events: seq<Event>, outcome: Outcome, passed: ChainArgument)
      modifies request
      ensures var run := HttpFilterRun(request.headers, old(request.attributes), Config(), chain);
              && events == run.events && outcome == run.outcome && request.attributes == run.attributes
              && ChainArgumentMatches(request, run.chainRequest, passed)
              && (passed.PassedWrapper? ==> fresh(passed.wrapper))
    {
      ghost var cfg, attributes := Config(), request.attributes;
      events, passed := [], NotCalled;
      var sessionId := BaseHeader(request.headers, properties.sessionHeaderName);
      if IsBlank(sessionId) {
        events := events + [GenerateSessionId];
        match correlationIdGenerator.sessionAnswer
        case Throws =>
          return events, Raised(GeneratorFailure(SessionId)), passed;
        case Returns(id) =>
          sessionId := id;
      }
      var requestId := BaseHeader(request.headers, properties.requestHeaderName);
      if IsBlank(requestId) {
        events := events + [GenerateRequestId];
        match correlationIdGenerator.requestAnswer
        case Throws =>
          return events, Raised(GeneratorFailure(RequestId)), passed;
        case Returns(id) =>
          requestId := id;
      }
      assert events == Resolving(request.headers, cfg);
      var calls, failure := TriggerInterceptors(sessionId, requestId);
      events := events + calls;
      if failure.Some? {
        return events, Raised(InterceptorFailure(AfterCorrelationIdSet, failure.value)), passed;
      }
      var wrapper, thrown := EnrichRequest(request, DefaultRequestCorrelation(sessionId, requestId));
      if thrown.Some? {
        return events, Raised(NullPointer), passed;
      }
      passed := PassedWrapper(wrapper);
      events := events + ChainEvents(chain);
      var cleanups, cleanupFailure := TriggerInterceptorsCleanup(sessionId, requestId);
      events := events + cleanups;
      outcome := match cleanupFailure
        case Some(k) => Raised(InterceptorFailure(CleanUp, k))
        case None => ChainOutcome(chain);
    }

    /** Only an HTTP request with an HTTP response is correlated; anything else goes to the chain as it is. */
    method DoFilter(request: ServletRequest, response: ServletResponse, chain: FilterChain)
      returns (events: seq<Event>, outcome: Outcome, passed: ChainArgument)
      modifies request
      ensures var run := DoFilterRun(request.isHttp && response.isHttp, request.headers, old(request.attributes), Config(), chain);
              && events == run.events && outcome == run.outcome && request.attributes == run.attributes
              && ChainArgumentMatches(request, run.chainRequest, passed)
              && (passed.PassedWrapper? ==> fresh(passed.wrapper))
    {
      if request.isHttp && response.isHttp {
        events, outcome, passed := DoHttpFilter(request, chain);
      } else {
        events, outcome, passed := ChainEvents(chain), ChainOutcome(chain), PassedOriginal(request);
      }
    }
  }
}
