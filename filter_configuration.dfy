/** The part of the framework's `FilterRegistrationBean` the configurations set, and the order arithmetic. */
module FilterRegistration {
  import opened Java
  import opened FilterOrderOffset

  datatype DispatcherType = REQUEST | FORWARD | INCLUDE | ASYNC | ERROR

  /** The dispatcher types the correlation filter is registered for. */
  const CORRELATION_DISPATCHER_TYPES: set<DispatcherType> := {REQUEST, FORWARD, ASYNC}

  class FilterRegistrationBean<F> {
    var filter: Option<F>
    var matchAfter: bool
    var dispatcherTypes: Option<set<DispatcherType>>
    var asyncSupported: bool
    var order: int32

    /** The framework's defaults: no filter, not after, no explicit dispatcher types, async, lowest order. */
    constructor ()
      ensures filter == None && !matchAfter && dispatcherTypes == None && asyncSupported
      ensures order == LOWEST_PRECEDENCE
    {
      filter := None;
      matchAfter := false;
      dispatcherTypes := None;
      asyncSupported := true;
      order := LOWEST_PRECEDENCE;
    }
  }

  /**
   * `properties.getFilterOrderFrom().offset + properties.getFilterOrder()`: Java `int` addition,
   * or a NullPointerException (None) when no base is set.
   */
  function EffectiveOrder(from: Option<FilterOrderOffset>, filterOrder: int32): (r: Option<int32>)
    ensures r.None? <==> from.None?
    ensures r.Some? ==> (r.value as int - (from.value.Offset() as int + filterOrder as int)) % TWO_TO_32 == 0
  {
    match from
    case None => None
    case Some(offset) => Some(AddInt(offset.Offset(), filterOrder))
  }

  /** Counting from ZERO keeps the configured order as it is. */
  lemma ZeroKeepsOrder(filterOrder: int32)
    ensures EffectiveOrder(Some(Zero), filterOrder) == Some(filterOrder)
  {
  }

  /** With the default properties (HIGHEST_PRECEDENCE counted from ZERO) the filter runs first: order `Integer.MIN_VALUE`. */
  lemma DefaultOrderIsMinValue()
    ensures EffectiveOrder(Some(Zero), HIGHEST_PRECEDENCE) == Some(MIN_VALUE)
  {
  }

  /** The sum wraps around: HIGHEST + HIGHEST gives 0, LOWEST + LOWEST gives -2, HIGHEST + LOWEST gives -1. */
  lemma OrderWrapsAround()
    ensures EffectiveOrder(Some(HighestPrecedence), HIGHEST_PRECEDENCE) == Some(0)
    ensures EffectiveOrder(Some(LowestPrecedence), LOWEST_PRECEDENCE) == Some(-2)
    ensures EffectiveOrder(Some(HighestPrecedence), LOWEST_PRECEDENCE) == Some(-1)
  {
  }

  /** No wrap-around when counting from HIGHEST_PRECEDENCE by a non-negative order: it comes that many places after it. */
  lemma HighestPlusNonNegativeOrder(filterOrder: int32)
    requires filterOrder >= 0
    ensures EffectiveOrder(Some(HighestPrecedence), filterOrder).value as int == INT_MIN + filterOrder as int
  {
  }
}

/** The filter configuration of the `net.cobery` package family. */
module CoberyFilterConfiguration {
  import opened Java
  import opened FilterRegistration
  import opened CorrelationFilterSpec
  import Props = RequestCorrelationProperties
  import TipsymcstaggerFilter

  class RequestCorrelationConfiguration {
    const properties: Props.RequestCorrelationProperties
    /** The interceptor beans; the declared default is an empty list, and autowiring may replace it. */
    var interceptors: seq<Interceptor>

    constructor (properties: Props.RequestCorrelationProperties)
      ensures this.properties == properties && interceptors == []
    {
      this.properties := properties;
      interceptors := [];
    }

    method SetInterceptors(interceptors: seq<Interceptor>)
      modifies this
      ensures this.interceptors == interceptors
    {
      this.interceptors := interceptors;
    }

    /** The filter gets the interceptor list as it is. */
    method RequestCorrelationFilter(generator: CorrelationIdGenerator, properties: Props.RequestCorrelationProperties)
      returns (filter: TipsymcstaggerFilter.RequestCorrelationFilter)
      ensures fresh(filter)
      ensures filter.correlationIdGenerator == generator && filter.interceptors == interceptors && filter.properties == properties
    {
      filter := new TipsymcstaggerFilter.RequestCorrelationFilter(generator, interceptors, properties);
    }

    /**
     * Registers the filter before others, for REQUEST, FORWARD and ASYNC dispatches, async
     * supported, at the configured order counted from the configured base; a null base throws.
     */
    method RequestCorrelationFilterBean(correlationFilter: TipsymcstaggerFilter.RequestCorrelationFilter)
      returns (r: Result<FilterRegistrationBean<TipsymcstaggerFilter.RequestCorrelationFilter>>)
      ensures r.Thrown? <==> properties.filterOrderFrom.None?
      ensures r.Thrown? ==> r.exception == NullPointerException
      ensures r.Ok? ==> && fresh(r.value)
                        && r.value.filter == Some(correlationFilter)
                        && !r.value.matchAfter
                        && r.value.dispatcherTypes == Some(CORRELATION_DISPATCHER_TYPES)
                        && r.value.asyncSupported
                        && Some(r.value.order) == EffectiveOrder(properties.filterOrderFrom, properties.filterOrder)
    {
      var registration := new FilterRegistrationBean<TipsymcstaggerFilter.RequestCorrelationFilter>();
      registration.filter := Some(correlationFilter);
      registration.matchAfter := false;
      registration.dispatcherTypes := Some({REQUEST, FORWARD, ASYNC});
      registration.asyncSupported := true;
      var order := EffectiveOrder(properties.filterOrderFrom, properties.filterOrder);
      if order.None? {
        return Thrown(NullPointerException);
      }
      registration.order := order.value;
      r := Ok(registration);
    }
  }
}

/** The filter configuration of the `net.saliman` package family. */
module SalimanFilterConfiguration {
  import opened Java
  import opened FilterRegistration
  import opened CorrelationFilterSpec
  import Props = RequestCorrelationProperties
  import SalimanFilter

  class RequestCorrelationConfiguration {
    const properties: Props.RequestCorrelationProperties
    /** The interceptor beans; the declared default is an empty list, and autowiring may replace it. */
    var interceptors: seq<Interceptor>

    constructor (properties: Props.RequestCorrelationProperties)
      ensures this.properties == properties && interceptors == []
    {
      this.properties := properties;
      interceptors := [];
    }

    method SetInterceptors(interceptors: seq<Interceptor>)
      modifies this
      ensures this.interceptors == interceptors
    {
      this.interceptors := interceptors;
    }

    /** The filter gets the interceptor list as it is. */
    method RequestCorrelationFilter(generator: CorrelationIdGenerator, properties: Props.RequestCorrelationProperties)
      returns (filter: SalimanFilter.RequestCorrelationFilter)
      ensures fresh(filter)
      ensures filter.correlationIdGenerator == generator && filter.interceptors == interceptors && filter.properties == properties
    {
      filter := new SalimanFilter.RequestCorrelationFilter(generator, interceptors, properties);
    }

    /**
     * Registers the filter before others, for REQUEST, FORWARD and ASYNC dispatches, async
     * supported, at the configured order counted from the configured base; a null base throws.
     */
    method RequestCorrelationFilterBean(correlationFilter: SalimanFilter.RequestCorrelationFilter)
      returns (r: Result<FilterRegistrationBean<SalimanFilter.RequestCorrelationFilter>>)
      ensures r.Thrown? <==> properties.filterOrderFrom.None?
      ensures r.Thrown? ==> r.exception == NullPointerException
      ensures r.Ok? ==> && fresh(r.value)
                        && r.value.filter == Some(correlationFilter)
                        && !r.value.matchAfter
                        && r.value.dispatcherTypes == Some(CORRELATION_DISPATCHER_TYPES)
                        && r.value.asyncSupported
                        && Some(r.value.order) == EffectiveOrder(properties.filterOrderFrom, properties.filterOrder)
    {
      var registration := new FilterRegistrationBean<SalimanFilter.RequestCorrelationFilter>();
      registration.filter := Some(correlationFilter);
      registration.matchAfter := false;
      registration.dispatcherTypes := Some({REQUEST, FORWARD, ASYNC});
      registration.asyncSupported := true;
      var order := EffectiveOrder(properties.filterOrderFrom, properties.filterOrder);
      if order.None? {
        return Thrown(NullPointerException);
      }
      registration.order := order.value;
      r := Ok(registration);
    }
  }
}
