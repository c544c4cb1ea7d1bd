/** Inbound and outbound together: what the chain's outgoing calls carry. */
module EndToEnd {
  import opened Java
  import opened HeaderOverlay
  import opened DefaultRequestCorrelation
  import opened CorrelationFilterSpec
  import opened OutboundHeaders
  import RequestCorrelationUtils

  /**
   * While the chain runs, the request bound to the thread holds the attributes the filter left; an
   * outgoing call made then, with the same header names configured, appends to its headers exactly
   * the ids the chain reads through the wrapper, and nothing else.
   */
  lemma OutboundCallsForwardInboundIds(base: HeaderMultimap, attributes: RequestAttributes, cfg: FilterConfig,
                                       chain: FilterChain, outgoing: HeaderMultimap)
    requires ChainEntered(base, attributes, cfg, chain)
    requires cfg.sessionHeaderName != cfg.requestHeaderName
    ensures var run := HttpFilterRun(base, attributes, cfg, chain);
            var bound := Some(run.attributes);
            var overlay := run.chainRequest.value.overlay;
            var sent := Propagate(outgoing, cfg.sessionHeaderName, cfg.requestHeaderName,
                                  RequestCorrelationUtils.GetCurrentSessionId(bound),
                                  RequestCorrelationUtils.GetCurrentRequestId(bound));
            && Values(sent, cfg.sessionHeaderName)
               == Values(outgoing, cfg.sessionHeaderName) + [OverlayHeader(overlay, base, cfg.sessionHeaderName).value]
            && Values(sent, cfg.requestHeaderName)
               == Values(outgoing, cfg.requestHeaderName) + [OverlayHeader(overlay, base, cfg.requestHeaderName).value]
            && forall name :: name != cfg.sessionHeaderName && name != cfg.requestHeaderName ==>
                 Values(sent, name) == Values(outgoing, name)
  {
    var run := HttpFilterRun(base, attributes, cfg, chain);
    var bound := Some(run.attributes);
    ChainSeesResolvedIds(base, attributes, cfg, chain);
    PropagateAppends(outgoing, cfg.sessionHeaderName, cfg.requestHeaderName,
                     RequestCorrelationUtils.GetCurrentSessionId(bound), RequestCorrelationUtils.GetCurrentRequestId(bound));
  }
}
