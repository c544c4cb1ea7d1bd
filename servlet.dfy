/**
 * Header lookups of a servlet request and of the correlation wrapper's overlay, as values.
 * A request's headers are a multimap from name to the values in arrival order.
 */
module HeaderOverlay {
  import opened Java

  type HeaderMultimap = map<string, seq<string>>

  /** `getHeaders` of the container's request: every value under the name (none if absent). */
  function BaseHeaders(base: HeaderMultimap, name: string): seq<string> {
    if name in base then base[name] else []
  }

  /** `getHeader` of the container's request: the first value under the name, or null. */
  function BaseHeader(base: HeaderMultimap, name: string): (r: Option<string>)
    ensures r.Some? <==> name in base && |base[name]| > 0
    ensures r.Some? ==> r.value == base[name][0]
    ensures r == if BaseHeaders(base, name) == [] then None else Some(BaseHeaders(base, name)[0])
  {
    if name in base && |base[name]| > 0 then Some(base[name][0]) else None
  }

  /** `getHeader` of the wrapper: the overlay's value for an overlaid name, else the base's lookup. */
  function OverlayHeader(additional: map<string, string>, base: HeaderMultimap, name: string): Option<string> {
    if name in additional then Some(additional[name]) else BaseHeader(base, name)
  }

  /** `getHeaders` of the wrapper: a fresh list holding the single overlay value, or the base's values. */
  function OverlayHeaders(additional: map<string, string>, base: HeaderMultimap, name: string): seq<string> {
    if name in additional then [additional[name]] else BaseHeaders(base, name)
  }

  /** `getHeaderNames` of the wrapper: a fresh set holding the overlay's names and the base's names. */
  function OverlayHeaderNames(additional: map<string, string>, base: HeaderMultimap): set<string> {
    additional.Keys + base.Keys
  }

  /** No empty value list is stored under a name (as a container parses headers). */
  ghost predicate WellFormed(base: HeaderMultimap) {
    forall name :: name in base ==> |base[name]| > 0
  }

  /**
   * An overlaid name reads as exactly its one overlay value through both lookups; any other name
   * reads exactly as the base does.
   */
  lemma OverlayOverridesBase(additional: map<string, string>, base: HeaderMultimap, name: string)
    ensures name in additional ==> OverlayHeader(additional, base, name) == Some(additional[name])
                                   && OverlayHeaders(additional, base, name) == [additional[name]]
    ensures name !in additional ==> OverlayHeader(additional, base, name) == BaseHeader(base, name)
                                    && OverlayHeaders(additional, base, name) == BaseHeaders(base, name)
  {
  }

  /**
   * The three lookups agree: a name is listed exactly when it has values, and the single-value
   * lookup returns the first of them (the base must not store empty lists for this to hold).
   */
  lemma {:induction false} LookupsAgree(additional: map<string, string>, base: HeaderMultimap, name: string)
    requires WellFormed(base)
    ensures name in OverlayHeaderNames(additional, base) <==> |OverlayHeaders(additional, base, name)| > 0
    ensures OverlayHeader(additional, base, name).Some? <==> |OverlayHeaders(additional, base, name)| > 0
    ensures OverlayHeader(additional, base, name).Some?
            ==> OverlayHeader(additional, base, name).value == OverlayHeaders(additional, base, name)[0]
  {
    if name !in additional && name in base {
      assert |base[name]| > 0;
    }
  }

  /** The name listing is the duplicate-free union: a name appears once whether it is overlaid, in the base, or both. */
  lemma NamesAreUnion(additional: map<string, string>, base: HeaderMultimap)
    ensures forall name :: name in OverlayHeaderNames(additional, base) <==> name in additional || name in base
    ensures additional.Keys <= OverlayHeaderNames(additional, base) && base.Keys <= OverlayHeaderNames(additional, base)
  {
  }

  /** Overlaying never hides a base header: unrelated base values stay visible unchanged. */
  lemma UnrelatedBaseHeadersUnchanged(additional: map<string, string>, base: HeaderMultimap, name: string)
    requires name !in additional
    requires name in base
    ensures OverlayHeaders(additional, base, name) == base[name]
    ensures name in OverlayHeaderNames(additional, base)
  {
  }

  /** `setHeader` is a `put`: the last write to a name wins. */
  lemma LastWriteWins(additional: map<string, string>, name: string, first: string, second: string, base: HeaderMultimap)
    ensures OverlayHeader(additional[name := first][name := second], base, name) == Some(second)
    ensures additional[name := first][name := second] == additional[name := second]
  {
  }
}

/** The parts of the servlet container the filter touches. */
module Servlet {
  import opened Java
  import opened DefaultRequestCorrelation
  import opened HeaderOverlay

  /**
   * The container's request. Its headers are never changed by the filter; its attribute store is
   * (the wrapper's `setAttribute` writes through to the wrapped request).
   */
  class ServletRequest {
    /** Whether the request is an `HttpServletRequest`. */
    const isHttp: bool
    const headers: HeaderMultimap
    var attributes: RequestAttributes

    constructor (isHttp: bool, headers: HeaderMultimap, attributes: RequestAttributes)
      ensures this.isHttp == isHttp && this.headers == headers && this.attributes == attributes
    {
      this.isHttp := isHttp;
      this.headers := headers;
      this.attributes := attributes;
    }

    method SetAttribute(name: string, value: AttributeValue)
      modifies this
      ensures attributes == old(attributes)[name := value]
    {
      attributes := attributes[name := value];
    }
  }

  /** The container's response; only whether it is an `HttpServletResponse` matters. */
  datatype ServletResponse = ServletResponse(isHttp: bool)
}
