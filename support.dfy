/** The literal constants shared by the filter and the outbound propagators. */
module RequestCorrelationConsts {

  /** The default correlation session id header name. */
  const SESSION_HEADER_NAME: string := "X-Session-Id"

  /** The default correlation request id header name. */
  const REQUEST_HEADER_NAME: string := "X-Request-Id"

  /** The request attribute that holds the resolved pair, separate from the headers. */
  const ATTRIBUTE_NAME: string := "RequestCorrelation.ATTRIBUTE"
}

/**
 * The base values a configured filter order may be counted from. The effective order is the
 * configured order plus the chosen offset (Java `int` addition).
 */
module FilterOrderOffset {
  import opened Java

  /** `Ordered.HIGHEST_PRECEDENCE` and `Ordered.LOWEST_PRECEDENCE` of the framework. */
  const HIGHEST_PRECEDENCE: int32 := MIN_VALUE
  const LOWEST_PRECEDENCE: int32 := MAX_VALUE

  datatype FilterOrderOffset = HighestPrecedence | LowestPrecedence | Zero {

    /** The final `offset` each constant is built with. */
    function Offset(): int32 {
      match this
      case HighestPrecedence => HIGHEST_PRECEDENCE
      case LowestPrecedence => LOWEST_PRECEDENCE
      case Zero => 0
    }
  }

  /** The three constants carry the two extreme ints and zero, and no two share an offset. */
  lemma OffsetValues()
    ensures HighestPrecedence.Offset() as int == INT_MIN
    ensures LowestPrecedence.Offset() as int == INT_MAX
    ensures Zero.Offset() == 0
    ensures forall a: FilterOrderOffset, b: FilterOrderOffset :: a.Offset() == b.Offset() ==> a == b
  {
  }

  /** The documented example: order 102 counted from HIGHEST_PRECEDENCE comes 102 after it. */
  lemma DocumentedExample()
    ensures AddInt(HighestPrecedence.Offset(), 102) as int == INT_MIN + 102
  {
  }
}

/** The configuration properties (prefix `request.correlation`) with their defaults and setters. */
module RequestCorrelationProperties {
  import opened Java
  import opened FilterOrderOffset
  import RequestCorrelationConsts

  class RequestCorrelationProperties {
    /** The priority order of the filter. */
    var filterOrder: int32
    /** The base the order is counted from; the setter accepts null. */
    var filterOrderFrom: Option<FilterOrderOffset>
    /** Header name for the session id. */
    var sessionHeaderName: string
    /** Header name for the request id. */
    var requestHeaderName: string

    /** The defaults: HIGHEST_PRECEDENCE counted from ZERO, and the two standard header names. */
    constructor ()
      ensures filterOrder == HIGHEST_PRECEDENCE && filterOrder as int == INT_MIN
      ensures filterOrderFrom == Some(Zero)
      ensures sessionHeaderName == RequestCorrelationConsts.SESSION_HEADER_NAME
      ensures requestHeaderName == RequestCorrelationConsts.REQUEST_HEADER_NAME
    {
      filterOrder := HIGHEST_PRECEDENCE;
      filterOrderFrom := Some(Zero);
      sessionHeaderName := RequestCorrelationConsts.SESSION_HEADER_NAME;
      requestHeaderName := RequestCorrelationConsts.REQUEST_HEADER_NAME;
    }

    method SetFilterOrder(order: int32)
      modifies this
      ensures filterOrder == order
      ensures filterOrderFrom == old(filterOrderFrom)
      ensures sessionHeaderName == old(sessionHeaderName) && requestHeaderName == old(requestHeaderName)
    {
      filterOrder := order;
    }

    /** No validation: any name is stored, including the empty name or the request header's name. */
    method SetSessionHeaderName(headerName: string)
      modifies this
      ensures sessionHeaderName == headerName
      ensures filterOrder == old(filterOrder) && filterOrderFrom == old(filterOrderFrom)
      ensures requestHeaderName == old(requestHeaderName)
    {
      sessionHeaderName := headerName;
    }

    /** No validation: any name is stored, including the empty name or the session header's name. */
    method SetRequestHeaderName(headerName: string)
      modifies this
      ensures requestHeaderName == headerName
      ensures filterOrder == old(filterOrder) && filterOrderFrom == old(filterOrderFrom)
      ensures sessionHeaderName == old(sessionHeaderName)
    {
      requestHeaderName := headerName;
    }

    /** No validation: null (`None`) is stored as given. */
    method SetFilterOrderFrom(from: Option<FilterOrderOffset>)
      modifies this
      ensures filterOrderFrom == from
      ensures filterOrder == old(filterOrder)
      ensures sessionHeaderName == old(sessionHeaderName) && requestHeaderName == old(requestHeaderName)
    {
      filterOrderFrom := from;
    }
  }

  /** A client of the class: the setters accept equal header names and each getter reads back its own value. */
  method EqualHeaderNamesAreAccepted(name: string) returns (p: RequestCorrelationProperties)
    ensures fresh(p)
    ensures p.sessionHeaderName == name && p.requestHeaderName == name
    ensures p.filterOrder == HIGHEST_PRECEDENCE && p.filterOrderFrom == Some(Zero)
  {
    p := new RequestCorrelationProperties();
    p.SetSessionHeaderName(name);
    p.SetRequestHeaderName(name);
  }
}

/** The immutable (sessionId, requestId) pair stored as the request attribute. */
module DefaultRequestCorrelation {
  import opened Java

  /**
   * Both fields are final and the constructor does no validation: null (`None`) and empty ids
   * are kept as given, and the getters are the field reads.
   */
  datatype DefaultRequestCorrelation = DefaultRequestCorrelation(sessionId: Option<string>, requestId: Option<string>)

  /** A value held in a request's attribute store: a correlation pair or any other object. */
  datatype AttributeValue =
    | CorrelationValue(correlation: DefaultRequestCorrelation)
    | OtherValue(description: string)

  /** The request-scoped attribute store. */
  type RequestAttributes = map<string, AttributeValue>

  /** Each getter returns exactly what the constructor was given, whatever it was. */
  lemma GettersReturnConstructorArguments(sessionId: Option<string>, requestId: Option<string>)
    ensures DefaultRequestCorrelation(sessionId, requestId).sessionId == sessionId
    ensures DefaultRequestCorrelation(sessionId, requestId).requestId == requestId
  {
  }
}

/**
 * Reading the ids bound to the current request. The thread-bound holder is an explicit argument:
 * `None` when no request attributes are bound, else the bound request's attribute store.
 */
module RequestCorrelationUtils {
  import opened Java
  import opened DefaultRequestCorrelation
  import RequestCorrelationConsts

  /** The correlation pair under the attribute key, if one is bound and of the right type. */
  function CurrentCorrelation(bound: Option<RequestAttributes>): (c: Option<DefaultRequestCorrelation>)
    ensures c.Some? <==> bound.Some? && RequestCorrelationConsts.ATTRIBUTE_NAME in bound.value
                         && bound.value[RequestCorrelationConsts.ATTRIBUTE_NAME].CorrelationValue?
    ensures c.Some? ==> bound.value[RequestCorrelationConsts.ATTRIBUTE_NAME] == CorrelationValue(c.value)
  {
    match bound
    case None => None
    case Some(attributes) =>
      if RequestCorrelationConsts.ATTRIBUTE_NAME in attributes
         && attributes[RequestCorrelationConsts.ATTRIBUTE_NAME].CorrelationValue?
      then Some(attributes[RequestCorrelationConsts.ATTRIBUTE_NAME].correlation)
      else None
  }

  /** `getCurrentSessionId`: the bound pair's session id, or null. */
  function GetCurrentSessionId(bound: Option<RequestAttributes>): Option<string> {
    match CurrentCorrelation(bound)
    case Some(c) => c.sessionId
    case None => None
  }

  /** `getCurrentRequestId`: the bound pair's request id, or null. */
  function GetCurrentRequestId(bound: Option<RequestAttributes>): Option<string> {
    match CurrentCorrelation(bound)
    case Some(c) => c.requestId
    case None => None
  }

  /** With no bound request attributes, or no correlation under the key, both getters return null. */
  lemma NoCorrelationGivesNull(bound: Option<RequestAttributes>)
    requires bound.None? || RequestCorrelationConsts.ATTRIBUTE_NAME !in bound.value
             || bound.value[RequestCorrelationConsts.ATTRIBUTE_NAME].OtherValue?
    ensures GetCurrentSessionId(bound).None? && GetCurrentRequestId(bound).None?
  {
  }

  /** Both getters read the same key: they return the two components of one stored pair, or both null. */
  lemma GettersShareOnePair(bound: Option<RequestAttributes>)
    ensures (exists c :: bound.Some? && RequestCorrelationConsts.ATTRIBUTE_NAME in bound.value
                         && bound.value[RequestCorrelationConsts.ATTRIBUTE_NAME] == CorrelationValue(c)
                         && GetCurrentSessionId(bound) == c.sessionId && GetCurrentRequestId(bound) == c.requestId)
            || (GetCurrentSessionId(bound).None? && GetCurrentRequestId(bound).None?)
  {
    var cur := CurrentCorrelation(bound);
    if cur.Some? {
      assert bound.value[RequestCorrelationConsts.ATTRIBUTE_NAME] == CorrelationValue(cur.value);
    }
  }

  /** Storing a pair under the key and reading it back returns that pair's ids, whatever the rest of the store holds. */
  lemma StoredPairReadsBack(attributes: RequestAttributes, c: DefaultRequestCorrelation)
    ensures var bound := Some(attributes[RequestCorrelationConsts.ATTRIBUTE_NAME := CorrelationValue(c)]);
            && CurrentCorrelation(bound) == Some(c)
            && GetCurrentSessionId(bound) == c.sessionId && GetCurrentRequestId(bound) == c.requestId
  {
  }
}
