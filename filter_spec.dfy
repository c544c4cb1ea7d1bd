/**
 * What one pass of a request through the correlation filter does, as a value: the calls it makes
 * on its collaborators (the event trace), how it ends, the attribute store it leaves behind and the
 * request it hands to the rest of the chain. Both filter classes are proved to do exactly this.
 *
 * The collaborators are oracles describing how they behave on the request at hand: the id
 * generator returns a (possibly null) id or throws, each interceptor callback returns or throws,
 * and the rest of the chain returns or throws.
 */
module CorrelationFilterSpec {
  import opened Java
  import opened DefaultRequestCorrelation
  import opened HeaderOverlay
  import RequestCorrelationConsts
  import RequestCorrelationUtils

  /** How one generator method behaves when called: it returns an id (null allowed) or throws. */
  datatype GeneratorAnswer = Returns(id: Option<string>) | Throws

  datatype CorrelationIdGenerator = CorrelationIdGenerator(sessionAnswer: GeneratorAnswer, requestAnswer: GeneratorAnswer)

  /** The two callbacks of a `RequestCorrelationInterceptor`. */
  datatype Phase = AfterCorrelationIdSet | CleanUp

  datatype Interceptor = Interceptor(afterCorrelationIdSetThrows: bool, cleanUpThrows: bool) {
    predicate Throws(phase: Phase) {
      match phase
      case AfterCorrelationIdSet => afterCorrelationIdSetThrows
      case CleanUp => cleanUpThrows
    }
  }

  /** How `chain.doFilter` ends. */
  datatype FilterChain = ChainReturns | ChainThrows

  datatype IdKind = SessionId | RequestId

  /** Where the exception that leaves `doFilter` came from. */
  datatype Failure =
    | GeneratorFailure(kind: IdKind)
    | InterceptorFailure(phase: Phase, index: nat)
    | NullPointer                  // a null id reached the wrapper's header map
    | ChainFailure

  datatype Outcome = Completed | Raised(failure: Failure)

  /** The calls the filter makes on its collaborators, in order. */
  datatype Event =
    | GenerateSessionId
    | GenerateRequestId
    | Callback(phase: Phase, index: nat, sessionId: Option<string>, requestId: Option<string>)
    | ChainEnter
    | ChainReturn
    | ChainThrow

  /** What `chain.doFilter` receives: the request as given, or the wrapper with its header overlay. */
  datatype ChainRequest = Original | Wrapped(overlay: map<string, string>)

  /** The filter's configuration as read during one request. */
  datatype FilterConfig = FilterConfig(
    sessionHeaderName: string,
    requestHeaderName: string,
    generator: CorrelationIdGenerator,
    interceptors: seq<Interceptor>)

  /** The observable effect of one `doFilter` call; `chainRequest` is None when the chain never ran. */
  datatype FilterRun = FilterRun(
    events: seq<Event>,
    outcome: Outcome,
    attributes: RequestAttributes,
    chainRequest: Option<ChainRequest>)

  /** How one id was settled: taken from its header, generated, or the generator threw. */
  datatype Resolution = Adopted(header: string) | Generated(generated: Option<string>) | GenerationFailed {
    function Value(): Option<string>
      requires !GenerationFailed?
    {
      match this
      case Adopted(h) => Some(h)
      case Generated(g) => g
    }
  }

  /** A header value that is not blank is kept verbatim; otherwise the generator is asked. */
  function ResolveId(header: Option<string>, answer: GeneratorAnswer): (r: Resolution)
    ensures r.Adopted? <==> !IsBlank(header)
    ensures r.Adopted? ==> header == Some(r.header)
    ensures r.GenerationFailed? <==> IsBlank(header) && answer.Throws?
    ensures r.Generated? ==> answer == Returns(r.generated)
  {
    if !IsBlank(header) then Adopted(header.value)
    else match answer
      case Throws => GenerationFailed
      case Returns(id) => Generated(id)
  }

  function GenerationEvents(r: Resolution, generate: Event): seq<Event> {
    if r.Adopted? then [] else [generate]
  }

  function SessionResolution(base: HeaderMultimap, cfg: FilterConfig): Resolution {
    ResolveId(BaseHeader(base, cfg.sessionHeaderName), cfg.generator.sessionAnswer)
  }

  function RequestResolution(base: HeaderMultimap, cfg: FilterConfig): Resolution {
    ResolveId(BaseHeader(base, cfg.requestHeaderName), cfg.generator.requestAnswer)
  }

  /** The index of the first interceptor whose callback throws in the given phase, if any. */
  function FirstFailure(interceptors: seq<Interceptor>, phase: Phase): (k: Option<nat>)
    ensures k.Some? ==> k.value < |interceptors| && interceptors[k.value].Throws(phase)
    ensures k.Some? ==> forall j :: 0 <= j < k.value ==> !interceptors[j].Throws(phase)
    ensures k.None? ==> forall j :: 0 <= j < |interceptors| ==> !interceptors[j].Throws(phase)
  {
    if interceptors == [] then None
    else if interceptors[0].Throws(phase) then Some(0)
    else match FirstFailure(interceptors[1..], phase)
      case None => None
      case Some(k) => Some(k + 1)
  }

  /** How many callbacks a `for` loop over the interceptors makes: all of them, or up to and including the first that throws. */
  function CallCount(interceptors: seq<Interceptor>, phase: Phase): (n: nat)
    ensures n <= |interceptors|
  {
    match FirstFailure(interceptors, phase)
    case None => |interceptors|
    case Some(k) => k + 1
  }

  /** The callbacks to interceptors 0 .. n-1, in list order, each with the same pair. */
  function CallbackRun(phase: Phase, s: Option<string>, r: Option<string>, n: nat): (events: seq<Event>)
    ensures |events| == n
    ensures forall i :: 0 <= i < n ==> events[i] == Callback(phase, i, s, r)
  {
    if n == 0 then [] else CallbackRun(phase, s, r, n - 1) + [Callback(phase, n - 1, s, r)]
  }

  function Callbacks(interceptors: seq<Interceptor>, phase: Phase, s: Option<string>, r: Option<string>): seq<Event> {
    CallbackRun(phase, s, r, CallCount(interceptors, phase))
  }

  function ChainEvents(chain: FilterChain): seq<Event> {
    [ChainEnter, if chain.ChainThrows? then ChainThrow else ChainReturn]
  }

  function ChainOutcome(chain: FilterChain): Outcome {
    if chain.ChainThrows? then Raised(ChainFailure) else Completed
  }

  /** `try { chain } finally { cleanUp loop }`: an exception from a cleanUp replaces the chain's. */
  function FinallyOutcome(interceptors: seq<Interceptor>, chain: FilterChain): Outcome {
    match FirstFailure(interceptors, CleanUp)
    case Some(k) => Raised(InterceptorFailure(CleanUp, k))
    case None => ChainOutcome(chain)
  }

  /** The correlation attribute as `enrichRequest` stores it. */
  function Correlated(attributes: RequestAttributes, s: Option<string>, r: Option<string>): RequestAttributes {
    attributes[RequestCorrelationConsts.ATTRIBUTE_NAME := CorrelationValue(DefaultRequestCorrelation(s, r))]
  }

  /** The generator calls made while settling the two ids; the request id is settled only once the session id is. */
  function Resolving(base: HeaderMultimap, cfg: FilterConfig): seq<Event> {
    var session := SessionResolution(base, cfg);
    GenerationEvents(session, GenerateSessionId)
      + if session.GenerationFailed? then [] else GenerationEvents(RequestResolution(base, cfg), GenerateRequestId)
  }

  /** The overlay the wrapper holds after `enrichRequest`: the request id is put last. */
  function Overlay(cfg: FilterConfig, s: string, r: string): map<string, string> {
    map[cfg.sessionHeaderName := s][cfg.requestHeaderName := r]
  }

  /**
   * The filter once both ids are settled to `s` and `r`: `triggerInterceptors`, then
   * `enrichRequest` (attribute first, then the headers, each of which rejects null), then the
   * chain inside `try`/`finally` with `triggerInterceptorsCleanup`.
   */
  function SettledRun(resolving: seq<Event>, s: Option<string>, r: Option<string>, attributes: RequestAttributes,
                      cfg: FilterConfig, chain: FilterChain): FilterRun {
    var notified := resolving + Callbacks(cfg.interceptors, AfterCorrelationIdSet, s, r);
    match FirstFailure(cfg.interceptors, AfterCorrelationIdSet)
    case Some(k) =>
      FilterRun(notified, Raised(InterceptorFailure(AfterCorrelationIdSet, k)), attributes, None)
    case None =>
      if s.None? || r.None? then
        FilterRun(notified, Raised(NullPointer), Correlated(attributes, s, r), None)
      else
        FilterRun(notified + ChainEvents(chain) + Callbacks(cfg.interceptors, CleanUp, s, r),
                  FinallyOutcome(cfg.interceptors, chain),
                  Correlated(attributes, s, r),
                  Some(Wrapped(Overlay(cfg, s.value, r.value))))
  }

  /** `doHttpFilter`. */
  function HttpFilterRun(base: HeaderMultimap, attributes: RequestAttributes, cfg: FilterConfig, chain: FilterChain): FilterRun {
    var session, request := SessionResolution(base, cfg), RequestResolution(base, cfg);
    if session.GenerationFailed? then
      FilterRun(Resolving(base, cfg), Raised(GeneratorFailure(SessionId)), attributes, None)
    else if request.GenerationFailed? then
      FilterRun(Resolving(base, cfg), Raised(GeneratorFailure(RequestId)), attributes, None)
    else
      SettledRun(Resolving(base, cfg), session.Value(), request.Value(), attributes, cfg, chain)
  }

  /** `doFilter`: only an HTTP request with an HTTP response is correlated; anything else passes straight through. */
  function DoFilterRun(isHttp: bool, base: HeaderMultimap, attributes: RequestAttributes, cfg: FilterConfig, chain: FilterChain): FilterRun {
    if isHttp then HttpFilterRun(base, attributes, cfg, chain)
    else FilterRun(ChainEvents(chain), ChainOutcome(chain), attributes, Some(Original))
  }

  // ---------------------------------------------------------------------------------------------
  // Properties of the specification

  /** Each interceptor appears exactly once in a callback run that reaches it, and nothing else does. */
  lemma {:induction false} CallbackRunCount(phase: Phase, s: Option<string>, r: Option<string>, n: nat, e: Event)
    ensures multiset(CallbackRun(phase, s, r, n))[e]
            == if e.Callback? && e.phase == phase && e.index < n && e.sessionId == s && e.requestId == r then 1 else 0
  {
    if n > 0 {
      CallbackRunCount(phase, s, r, n - 1, e);
      assert CallbackRun(phase, s, r, n) == CallbackRun(phase, s, r, n - 1) + [Callback(phase, n - 1, s, r)];
    }
  }

  /** The loop makes one call per interceptor when none throws, and stops right after the first that throws. */
  lemma CallCountStopsAtFirstFailure(interceptors: seq<Interceptor>, phase: Phase, k: nat)
    requires k < |interceptors| && interceptors[k].Throws(phase)
    requires forall j :: 0 <= j < k ==> !interceptors[j].Throws(phase)
    ensures FirstFailure(interceptors, phase) == Some(k)
    ensures CallCount(interceptors, phase) == k + 1
  {
  }

  lemma NoFailureCallsEveryone(interceptors: seq<Interceptor>, phase: Phase)
    requires forall j :: 0 <= j < |interceptors| ==> !interceptors[j].Throws(phase)
    ensures FirstFailure(interceptors, phase).None?
    ensures CallCount(interceptors, phase) == |interceptors|
  {
  }

  /** A request that is not HTTP reaches the chain unchanged: no ids, no callbacks, no wrapper, no attribute. */
  lemma NonHttpPassesThrough(base: HeaderMultimap, attributes: RequestAttributes, cfg: FilterConfig, chain: FilterChain)
    ensures var run := DoFilterRun(false, base, attributes, cfg, chain);
            && run.events == ChainEvents(chain)
            && run.chainRequest == Some(Original)
            && run.attributes == attributes
            && run.outcome == ChainOutcome(chain)
            && forall e :: e in run.events ==> !e.Callback? && e != GenerateSessionId && e != GenerateRequestId
  {
  }

  /** A trace in which the chain ran: the generation calls, the two callback runs around the chain. */
  function ChainedTrace(pre: seq<Event>, s: Option<string>, r: Option<string>, n: nat, m: nat, end: Event): seq<Event> {
    pre + CallbackRun(AfterCorrelationIdSet, s, r, n) + [ChainEnter, end] + CallbackRun(CleanUp, s, r, m)
  }

  /** What sits at each position of such a trace. */
  lemma TracePositions(pre: seq<Event>, s: Option<string>, r: Option<string>, n: nat, m: nat, end: Event)
    ensures var ev := ChainedTrace(pre, s, r, n, m, end);
            && |ev| == |pre| + n + 2 + m
            && (forall j :: 0 <= j < |pre| ==> ev[j] == pre[j])
            && (forall j :: |pre| <= j < |pre| + n ==> ev[j] == Callback(AfterCorrelationIdSet, j - |pre|, s, r))
            && ev[|pre| + n] == ChainEnter && ev[|pre| + n + 1] == end
            && (forall j :: |pre| + n + 2 <= j < |ev| ==> ev[j] == Callback(CleanUp, j - |pre| - n - 2, s, r))
  {
  }

  /**
   * The layout of a trace in which the chain ran: the chain is entered once, the
   * `afterCorrelationIdSet` calls all come before it and the `cleanUp` calls all after it.
   */
  lemma TraceBracket(pre: seq<Event>, s: Option<string>, r: Option<string>, n: nat, m: nat, end: Event)
    requires forall e :: e in pre ==> !e.Callback? && e != ChainEnter
    requires end == ChainReturn || end == ChainThrow
    ensures var ev := ChainedTrace(pre, s, r, n, m, end);
            forall j, k :: 0 <= j < |ev| && 0 <= k < |ev| && ev[k] == ChainEnter && ev[j].Callback? ==>
              (ev[j].phase == AfterCorrelationIdSet <==> j < k)
  {
    var ev := ChainedTrace(pre, s, r, n, m, end);
    TracePositions(pre, s, r, n, m, end);
  }

  /** Within each phase the callbacks come in list order, and all carry the same pair. */
  lemma TraceOrder(pre: seq<Event>, s: Option<string>, r: Option<string>, n: nat, m: nat, end: Event)
    requires forall e :: e in pre ==> !e.Callback?
    requires !end.Callback?
    ensures var ev := ChainedTrace(pre, s, r, n, m, end);
            && (forall e :: e in ev && e.Callback? ==>
                  e.sessionId == s && e.requestId == r && e.index < (if e.phase == AfterCorrelationIdSet then n else m))
            && (forall j, k :: 0 <= j < k < |ev| && ev[j].Callback? && ev[k].Callback? && ev[j].phase == ev[k].phase ==>
                  ev[j].index < ev[k].index)
  {
    var ev := ChainedTrace(pre, s, r, n, m, end);
    TracePositions(pre, s, r, n, m, end);
    forall e | e in ev && e.Callback?
      ensures e.sessionId == s && e.requestId == r && e.index < (if e.phase == AfterCorrelationIdSet then n else m)
    {
      var j :| 0 <= j < |ev| && ev[j] == e;
    }
  }

  /** How often an event occurs in such a trace: its count in the prefix plus its count in the two callback runs. */
  lemma TraceCount(pre: seq<Event>, s: Option<string>, r: Option<string>, n: nat, m: nat, end: Event, e: Event)
    requires e.Callback? || e == ChainEnter
    requires e !in pre && e != end
    ensures multiset(ChainedTrace(pre, s, r, n, m, end))[e]
            == (if e == ChainEnter then 1 else 0)
               + multiset(CallbackRun(AfterCorrelationIdSet, s, r, n))[e]
               + multiset(CallbackRun(CleanUp, s, r, m))[e]
  {
    var ev := ChainedTrace(pre, s, r, n, m, end);
    assert multiset(ev) == multiset(pre) + multiset(CallbackRun(AfterCorrelationIdSet, s, r, n))
                           + multiset([ChainEnter, end]) + multiset(CallbackRun(CleanUp, s, r, m));
  }

  /** Such a trace enters the chain exactly once. */
  lemma TraceEntersOnce(pre: seq<Event>, s: Option<string>, r: Option<string>, n: nat, m: nat, end: Event)
    requires ChainEnter !in pre
    requires end == ChainReturn || end == ChainThrow
    ensures multiset(ChainedTrace(pre, s, r, n, m, end))[ChainEnter] == 1
  {
    TraceCount(pre, s, r, n, m, end, ChainEnter);
    CallbackRunCount(AfterCorrelationIdSet, s, r, n, ChainEnter);
    CallbackRunCount(CleanUp, s, r, m, ChainEnter);
  }

  /** Such a trace holds each `afterCorrelationIdSet` once and each `cleanUp` the run reaches once. */
  lemma TraceCallbackCount(pre: seq<Event>, s: Option<string>, r: Option<string>, n: nat, m: nat, end: Event, phase: Phase, i: nat)
    requires forall e :: e in pre ==> !e.Callback?
    requires end == ChainReturn || end == ChainThrow
    requires i < n
    ensures multiset(ChainedTrace(pre, s, r, n, m, end))[Callback(phase, i, s, r)]
            == if phase == AfterCorrelationIdSet || i < m then 1 else 0
  {
    var e := Callback(phase, i, s, r);
    TraceCount(pre, s, r, n, m, end, e);
    CallbackRunCount(AfterCorrelationIdSet, s, r, n, e);
    CallbackRunCount(CleanUp, s, r, m, e);
  }

  /** Appending events that make no generator call keeps the prefix and adds no generator call. */
  lemma AppendNoGeneration(pre: seq<Event>, rest: seq<Event>)
    requires forall e :: e in rest ==> e != GenerateSessionId && e != GenerateRequestId
    ensures var ev := pre + rest;
            && |pre| <= |ev| && ev[..|pre|] == pre
            && forall i :: |pre| <= i < |ev| ==> ev[i] != GenerateSessionId && ev[i] != GenerateRequestId
  {
    var ev := pre + rest;
    forall i | |pre| <= i < |ev| ensures ev[i] != GenerateSessionId && ev[i] != GenerateRequestId {
      var k := i - |pre|;
      assert ev[i] == rest[k];
      assert rest[k] in rest;
    }
  }

  /** The settled stage starts from the generation calls and makes no generation call of its own. */
  lemma SettledRunExtendsResolving(resolving: seq<Event>, s: Option<string>, r: Option<string>, attributes: RequestAttributes,
                                   cfg: FilterConfig, chain: FilterChain)
    ensures var ev := SettledRun(resolving, s, r, attributes, cfg, chain).events;
            && |resolving| <= |ev| && ev[..|resolving|] == resolving
            && forall i :: |resolving| <= i < |ev| ==> ev[i] != GenerateSessionId && ev[i] != GenerateRequestId
  {
    var run := SettledRun(resolving, s, r, attributes, cfg, chain);
    var after := Callbacks(cfg.interceptors, AfterCorrelationIdSet, s, r);
    var cleanup := Callbacks(cfg.interceptors, CleanUp, s, r);
    assert forall e :: e in after ==> e.Callback?;
    assert forall e :: e in cleanup ==> e.Callback?;
    if run.chainRequest.Some? {
      var rest := after + ChainEvents(chain) + cleanup;
      assert run.events == resolving + rest;
      AppendNoGeneration(resolving, rest);
    } else {
      assert run.events == resolving + after;
      AppendNoGeneration(resolving, after);
    }
  }

  /** A trace that extends a prefix with events making no generator call has the prefix's generator calls, at the same positions. */
  lemma GenerationFactsExtend(pre: seq<Event>, ev: seq<Event>)
    requires |pre| <= |ev| && ev[..|pre|] == pre
    requires forall i :: |pre| <= i < |ev| ==> ev[i] != GenerateSessionId && ev[i] != GenerateRequestId
    ensures GenerateSessionId in ev <==> GenerateSessionId in pre
    ensures GenerateRequestId in ev <==> GenerateRequestId in pre
    ensures multiset(ev)[GenerateSessionId] == multiset(pre)[GenerateSessionId]
    ensures multiset(ev)[GenerateRequestId] == multiset(pre)[GenerateRequestId]
    ensures forall i :: 0 <= i < |ev| && (ev[i] == GenerateSessionId || ev[i] == GenerateRequestId) ==> i < |pre| && ev[i] == pre[i]
  {
    var tail := ev[|pre|..];
    assert ev == pre + tail;
    assert forall i :: 0 <= i < |tail| ==> tail[i] == ev[|pre| + i];
    assert GenerateSessionId !in tail && GenerateRequestId !in tail;
    assert multiset(ev) == multiset(pre) + multiset(tail);
  }

  /** Whatever happens after the ids are settled makes no generator call. */
  lemma HttpRunExtendsResolving(base: HeaderMultimap, attributes: RequestAttributes, cfg: FilterConfig, chain: FilterChain)
    ensures var ev, pre := HttpFilterRun(base, attributes, cfg, chain).events, Resolving(base, cfg);
            && |pre| <= |ev| && ev[..|pre|] == pre
            && forall i :: |pre| <= i < |ev| ==> ev[i] != GenerateSessionId && ev[i] != GenerateRequestId
  {
    var session, request := SessionResolution(base, cfg), RequestResolution(base, cfg);
    if !session.GenerationFailed? && !request.GenerationFailed? {
      SettledRunExtendsResolving(Resolving(base, cfg), session.Value(), request.Value(), attributes, cfg, chain);
    }
  }

  /** The generator calls while settling the ids: one per blank header, the session id's first. */
  lemma ResolvingCalls(base: HeaderMultimap, cfg: FilterConfig)
    ensures var pre := Resolving(base, cfg);
            && (GenerateSessionId in pre <==> IsBlank(BaseHeader(base, cfg.sessionHeaderName)))
            && (GenerateRequestId in pre <==> !SessionResolution(base, cfg).GenerationFailed?
                                               && IsBlank(BaseHeader(base, cfg.requestHeaderName)))
            && multiset(pre)[GenerateSessionId] <= 1
            && multiset(pre)[GenerateRequestId] <= 1
            && forall i, j :: 0 <= i < |pre| && 0 <= j < |pre| && pre[i] == GenerateSessionId && pre[j] == GenerateRequestId ==> i < j
  {
    var session := SessionResolution(base, cfg);
    var first := GenerationEvents(session, GenerateSessionId);
    var second := if session.GenerationFailed? then [] else GenerationEvents(RequestResolution(base, cfg), GenerateRequestId);
    assert Resolving(base, cfg) == first + second;
    assert first == [] || first == [GenerateSessionId];
    assert second == [] || second == [GenerateRequestId];
  }

  /**
   * The generator is consulted only for a blank header, each of its methods at most once, and the
   * session id is settled before the request id is even read.
   */
  lemma GenerationOnlyForBlankHeaders(base: HeaderMultimap, attributes: RequestAttributes, cfg: FilterConfig, chain: FilterChain)
    ensures var ev := HttpFilterRun(base, attributes, cfg, chain).events;
            && (GenerateSessionId in ev <==> IsBlank(BaseHeader(base, cfg.sessionHeaderName)))
            && (GenerateRequestId in ev <==> !SessionResolution(base, cfg).GenerationFailed?
                                              && IsBlank(BaseHeader(base, cfg.requestHeaderName)))
            && multiset(ev)[GenerateSessionId] <= 1
            && multiset(ev)[GenerateRequestId] <= 1
            && forall i, j :: 0 <= i < |ev| && 0 <= j < |ev| && ev[i] == GenerateSessionId && ev[j] == GenerateRequestId ==> i < j
  {
    var pre, ev := Resolving(base, cfg), HttpFilterRun(base, attributes, cfg, chain).events;
    HttpRunExtendsResolving(base, attributes, cfg, chain);
    GenerationFactsExtend(pre, ev);
    ResolvingCalls(base, cfg);
  }

  /** Whether the chain ran in an HTTP pass. */
  ghost predicate ChainEntered(base: HeaderMultimap, attributes: RequestAttributes, cfg: FilterConfig, chain: FilterChain) {
    HttpFilterRun(base, attributes, cfg, chain).chainRequest.Some?
  }

  /** When the chain ran, both ids were settled, and the run is the full settled stage. */
  lemma EnteredRunIsFullSettledRun(base: HeaderMultimap, attributes: RequestAttributes, cfg: FilterConfig, chain: FilterChain)
    requires ChainEntered(base, attributes, cfg, chain)
    ensures var session, request := SessionResolution(base, cfg), RequestResolution(base, cfg);
            && !session.GenerationFailed? && !request.GenerationFailed?
            && session.Value().Some? && request.Value().Some?
            && FirstFailure(cfg.interceptors, AfterCorrelationIdSet).None?
            && var s, r := session.Value(), request.Value();
               var run := HttpFilterRun(base, attributes, cfg, chain);
               && run.events == ChainedTrace(Resolving(base, cfg), s, r, |cfg.interceptors|,
                                             CallCount(cfg.interceptors, CleanUp), ChainEvents(chain)[1])
               && run.outcome == FinallyOutcome(cfg.interceptors, chain)
               && run.attributes == Correlated(attributes, s, r)
               && run.chainRequest == Some(Wrapped(Overlay(cfg, s.value, r.value)))
  {
  }

  /**
   * The chain runs exactly when both ids were settled to non-null values and no
   * `afterCorrelationIdSet` threw; otherwise the exception leaves before the `try`, and no
   * `cleanUp` is made.
   */
  lemma ChainRunsOnlyAfterSuccessfulSetup(base: HeaderMultimap, attributes: RequestAttributes, cfg: FilterConfig, chain: FilterChain)
    ensures var run := HttpFilterRun(base, attributes, cfg, chain);
            var session, request := SessionResolution(base, cfg), RequestResolution(base, cfg);
            && (run.chainRequest.Some? <==>
                  && !session.GenerationFailed? && !request.GenerationFailed?
                  && FirstFailure(cfg.interceptors, AfterCorrelationIdSet).None?
                  && session.Value().Some? && request.Value().Some?)
            && (ChainEnter in run.events <==> run.chainRequest.Some?)
            && (run.chainRequest.None? ==> run.outcome.Raised? && forall e :: e in run.events ==> !(e.Callback? && e.phase == CleanUp))
            && (!session.GenerationFailed? && !request.GenerationFailed?
                && FirstFailure(cfg.interceptors, AfterCorrelationIdSet).Some?
                ==> run.outcome == Raised(InterceptorFailure(AfterCorrelationIdSet, FirstFailure(cfg.interceptors, AfterCorrelationIdSet).value)))
  {
    var run := HttpFilterRun(base, attributes, cfg, chain);
    var session, request := SessionResolution(base, cfg), RequestResolution(base, cfg);
    var resolving := Resolving(base, cfg);
    assert forall e :: e in resolving ==> !e.Callback? && e != ChainEnter;
    if !session.GenerationFailed? && !request.GenerationFailed? {
      var s, r := session.Value(), request.Value();
      var after := Callbacks(cfg.interceptors, AfterCorrelationIdSet, s, r);
      assert forall e :: e in after ==> e.Callback? && e.phase == AfterCorrelationIdSet;
      if run.chainRequest.Some? {
        assert run.events[|resolving| + |after|] == ChainEnter;
      } else {
        assert run.events == resolving + after;
      }
    }
  }

  /**
   * When the chain runs, it sees through the wrapper the ids that were settled (the header value
   * verbatim when not blank, else the generator's), the attribute holds the same pair, and every
   * other header reads as in the original request. With equal header names the request id wins.
   */
  lemma ChainSeesResolvedIds(base: HeaderMultimap, attributes: RequestAttributes, cfg: FilterConfig, chain: FilterChain)
    requires ChainEntered(base, attributes, cfg, chain)
    ensures var run := HttpFilterRun(base, attributes, cfg, chain);
            var bound := Some(run.attributes);
            var s, r := RequestCorrelationUtils.GetCurrentSessionId(bound), RequestCorrelationUtils.GetCurrentRequestId(bound);
            var sessionHeader, requestHeader := BaseHeader(base, cfg.sessionHeaderName), BaseHeader(base, cfg.requestHeaderName);
            && s.Some? && r.Some?
            && (!IsBlank(sessionHeader) ==> s == sessionHeader)
            && (IsBlank(sessionHeader) ==> cfg.generator.sessionAnswer == Returns(s))
            && (!IsBlank(requestHeader) ==> r == requestHeader)
            && (IsBlank(requestHeader) ==> cfg.generator.requestAnswer == Returns(r))
            && run.attributes.Keys == attributes.Keys + {RequestCorrelationConsts.ATTRIBUTE_NAME}
            && run.chainRequest.value.Wrapped?
            && var overlay := run.chainRequest.value.overlay;
               && OverlayHeader(overlay, base, cfg.requestHeaderName) == r
               && OverlayHeader(overlay, base, cfg.sessionHeaderName) == (if cfg.sessionHeaderName == cfg.requestHeaderName then r else s)
               && OverlayHeaders(overlay, base, cfg.requestHeaderName) == [r.value]
               && OverlayHeaders(overlay, base, cfg.sessionHeaderName)
                  == [if cfg.sessionHeaderName == cfg.requestHeaderName then r.value else s.value]
               && OverlayHeaderNames(overlay, base) == base.Keys + {cfg.sessionHeaderName, cfg.requestHeaderName}
               && forall name :: name != cfg.sessionHeaderName && name != cfg.requestHeaderName ==>
                    OverlayHeader(overlay, base, name) == BaseHeader(base, name)
                    && OverlayHeaders(overlay, base, name) == BaseHeaders(base, name)
  {
    EnteredRunIsFullSettledRun(base, attributes, cfg, chain);
  }

  /**
   * Around a chain that ran: the chain is entered once, and every interceptor gets exactly one
   * `afterCorrelationIdSet` with the stored pair.
   */
  lemma EachInterceptorNotifiedOnce(base: HeaderMultimap, attributes: RequestAttributes, cfg: FilterConfig, chain: FilterChain)
    requires ChainEntered(base, attributes, cfg, chain)
    ensures var run := HttpFilterRun(base, attributes, cfg, chain);
            var ev, c := run.events, run.attributes[RequestCorrelationConsts.ATTRIBUTE_NAME].correlation;
            && multiset(ev)[ChainEnter] == 1
            && forall i :: 0 <= i < |cfg.interceptors| ==>
                 multiset(ev)[Callback(AfterCorrelationIdSet, i, c.sessionId, c.requestId)] == 1
  {
    EnteredRunIsFullSettledRun(base, attributes, cfg, chain);
    var s, r := SessionResolution(base, cfg).Value(), RequestResolution(base, cfg).Value();
    var n, m := |cfg.interceptors|, CallCount(cfg.interceptors, CleanUp);
    var pre, end := Resolving(base, cfg), ChainEvents(chain)[1];
    assert forall e :: e in pre ==> !e.Callback? && e != ChainEnter;
    TraceEntersOnce(pre, s, r, n, m, end);
    forall i | 0 <= i < n
      ensures multiset(ChainedTrace(pre, s, r, n, m, end))[Callback(AfterCorrelationIdSet, i, s, r)] == 1
    {
      TraceCallbackCount(pre, s, r, n, m, end, AfterCorrelationIdSet, i);
    }
  }

  /**
   * Around a chain that ran: every callback carries the stored pair; all `afterCorrelationIdSet`
   * calls come before the chain is entered and all `cleanUp` calls after it; within each phase the
   * interceptors are called in list order.
   */
  lemma CallbacksBracketTheChain(base: HeaderMultimap, attributes: RequestAttributes, cfg: FilterConfig, chain: FilterChain)
    requires ChainEntered(base, attributes, cfg, chain)
    ensures var run := HttpFilterRun(base, attributes, cfg, chain);
            var ev, c := run.events, run.attributes[RequestCorrelationConsts.ATTRIBUTE_NAME].correlation;
            && (forall e :: e in ev && e.Callback? ==> e.index < |cfg.interceptors| && e.sessionId == c.sessionId && e.requestId == c.requestId)
            && (forall j, k :: 0 <= j < |ev| && 0 <= k < |ev| && ev[k] == ChainEnter && ev[j].Callback? ==>
                  (ev[j].phase == AfterCorrelationIdSet <==> j < k))
            && (forall j, k :: 0 <= j < k < |ev| && ev[j].Callback? && ev[k].Callback? && ev[j].phase == ev[k].phase ==>
                  ev[j].index < ev[k].index)
  {
    EnteredRunIsFullSettledRun(base, attributes, cfg, chain);
    var s, r := SessionResolution(base, cfg).Value(), RequestResolution(base, cfg).Value();
    var n, m := |cfg.interceptors|, CallCount(cfg.interceptors, CleanUp);
    var pre, end := Resolving(base, cfg), ChainEvents(chain)[1];
    assert forall e :: e in pre ==> !e.Callback? && e != ChainEnter;
    TraceBracket(pre, s, r, n, m, end);
    TraceOrder(pre, s, r, n, m, end);
  }

  /**
   * After a chain that ran, every interceptor gets its `cleanUp` with the same pair, up to the first
   * that throws; the chain's exception still leaves the filter unless a `cleanUp` threw, in which
   * case that exception replaces it.
   */
  lemma CleanUpAlwaysFollowsTheChain(base: HeaderMultimap, attributes: RequestAttributes, cfg: FilterConfig, chain: FilterChain)
    requires ChainEntered(base, attributes, cfg, chain)
    ensures var run := HttpFilterRun(base, attributes, cfg, chain);
            var ev, c := run.events, run.attributes[RequestCorrelationConsts.ATTRIBUTE_NAME].correlation;
            var failure := FirstFailure(cfg.interceptors, CleanUp);
            && (forall i :: 0 <= i < |cfg.interceptors| ==>
                  multiset(ev)[Callback(CleanUp, i, c.sessionId, c.requestId)]
                  == if failure.None? || i <= failure.value then 1 else 0)
            && (failure.None? ==> run.outcome == ChainOutcome(chain))
            && (failure.Some? ==> run.outcome == Raised(InterceptorFailure(CleanUp, failure.value)))
            && (chain.ChainThrows? && failure.None? ==> run.outcome == Raised(ChainFailure))
  {
    EnteredRunIsFullSettledRun(base, attributes, cfg, chain);
    var s, r := SessionResolution(base, cfg).Value(), RequestResolution(base, cfg).Value();
    var n, m := |cfg.interceptors|, CallCount(cfg.interceptors, CleanUp);
    var pre, end := Resolving(base, cfg), ChainEvents(chain)[1];
    assert forall e :: e in pre ==> !e.Callback?;
    forall i | 0 <= i < n
      ensures multiset(ChainedTrace(pre, s, r, n, m, end))[Callback(CleanUp, i, s, r)] == if i < m then 1 else 0
    {
      TraceCallbackCount(pre, s, r, n, m, end, CleanUp, i);
    }
  }

  /**
   * With a generator that always produces non-blank ids, the chain runs (unless an interceptor
   * throws first) and sees two non-blank ids.
   */
  lemma NonBlankIdsReachTheChain(base: HeaderMultimap, attributes: RequestAttributes, cfg: FilterConfig, chain: FilterChain)
    requires cfg.generator.sessionAnswer.Returns? && !IsBlank(cfg.generator.sessionAnswer.id)
    requires cfg.generator.requestAnswer.Returns? && !IsBlank(cfg.generator.requestAnswer.id)
    requires FirstFailure(cfg.interceptors, AfterCorrelationIdSet).None?
    ensures var run := HttpFilterRun(base, attributes, cfg, chain);
            var bound := Some(run.attributes);
            && run.chainRequest.Some?
            && !IsBlank(RequestCorrelationUtils.GetCurrentSessionId(bound))
            && !IsBlank(RequestCorrelationUtils.GetCurrentRequestId(bound))
  {
  }
}
