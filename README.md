# Request correlation, modelled in Dafny

This project models the core of a Spring starter that correlates HTTP requests across services.
Each inbound request carries two ids, a session id and a request id, in two configurable headers
(`X-Session-Id` and `X-Request-Id` by default). The library code comes in three package families,
`net.saliman`, `net.cobery` and `com.tipsymcstagger`, which overlap.

- **Inbound filter** (`java.dfy`, `servlet.dfy`, `filter_spec.dfy`, `tipsymcstagger_filter.dfy`, `saliman_filter.dfy`).
  `RequestCorrelationFilter` reads both headers and calls the id generator for a blank one. It
  then notifies every `RequestCorrelationInterceptor` (`afterCorrelationIdSet`), stores a
  `DefaultRequestCorrelation` pair in the request attribute `RequestCorrelation.ATTRIBUTE`, and
  wraps the request in `CorrelatedServletRequest`, whose header overlay makes both ids readable.
  It runs the filter chain inside `try`, and notifies the interceptors again (`cleanUp`) in
  `finally`.
  - The filter is a class whose methods (`TriggerInterceptors`, `EnrichRequest`, `DoHttpFilter`,
    `DoFilter`) are loops and state updates over the servlet request's attribute store.
  - Each method is proved equal to a specification function in `CorrelationFilterSpec`. That
    function records the calls the filter makes on its collaborators as an event trace (generator
    calls, callbacks, chain entry and exit). The lemmas about it state the ordering, counting and
    error-path properties.
  - The generator, the interceptors and the chain are parameters that say how each one behaves on
    the request at hand: it returns, it throws, or the generator returns null.
- **Context lookup** (`RequestCorrelationUtils` in `support.dfy`). It reads the correlation pair
  from the bound request attributes, which the model passes in as an explicit optional map.
- **Outbound propagators** (`outbound_headers.dfy`, `client_http_interceptor.dfy`, `webclient_interceptor.dfy`, `feign_interceptors.dfy`).
  The `RestTemplate` interceptor, the `WebClient` exchange filter and both Feign interceptors
  append each non-null current id to the outgoing header multimap. The `RestTemplate`
  interceptor and the `WebClient` filter then hand the request on exactly once. The Feign
  interceptors only update the request template.
- **Configuration** (`support.dfy`, `client_http_configuration.dfy`, `filter_configuration.dfy`):
  - the properties with their defaults and setters;
  - the `FilterOrderOffset` constants;
  - the initializer that appends one correlation interceptor to every `RestTemplate`-style client, whose setter then sorts the list by `@Order`;
  - the filter registration, whose order is a Java 32-bit wrapping sum.
- **End to end** (`end_to_end.dfy`). While the chain runs, an outgoing call forwards exactly the
  ids the chain sees.

Java `null` is `Option.None`. `int` is the `int32` newtype, and its addition wraps explicitly
(`Java.AddInt`). `StringUtils.isBlank` is `Java.IsBlank`, which uses the whitespace set of
`Character.isWhitespace`. A method that can throw returns the exception as a value (`Result`,
`Option<Exception>` or an `Outcome`).

Three behaviours of the code worth knowing:

- **Outbound headers are appended.** `HttpHeaders.add`, `ClientRequest.Builder.header` and
  `RequestTemplate.header` add a value and never replace one. A caller's own value does not win
  over the propagated one; both are sent.
- **Non-empty ids are not guaranteed.** An id taken from a header is never blank. A generated id
  is used as the generator returns it, with no check. The chain sees non-blank ids only when the
  generator returns non-blank ones (`CorrelationFilterSpec.NonBlankIdsReachTheChain`).
- **A null generated id throws.** It reaches the wrapper's `ConcurrentHashMap.put`, which throws
  a `NullPointerException`. By then the attribute is already set and the chain has not run.

## Model

| member | source | states |
|---|---|---|
| Java.AddInt | src/main/java/net/cobery/spring/request/correlation/filter/RequestCorrelationConfiguration.java:92 | Java `int` addition: the result is congruent to the exact sum modulo 2^32, equals it when it fits, and is shifted by 2^32 on overflow or underflow |
| Java.NonBlankHasVisibleCharacter | src/main/java/com/tipsymcstagger/spring/request/correlation/filter/RequestCorrelationFilter.java:132 | `StringUtils.isBlank` as the filter uses it, tied to `StringUtils.strip`: a non-null value is blank exactly when stripping its leading and trailing whitespace leaves the empty string, and a value is non-blank exactly when it is non-null and has a character outside `Character.isWhitespace`'s set (U+0009-000D, U+001C-001F, U+0020, U+1680, U+2000-2006, U+2008-200A, U+2028, U+2029, U+205F, U+3000; the no-break spaces excluded) |
| Java.BlankConcatenation | src/main/java/com/tipsymcstagger/spring/request/correlation/filter/RequestCorrelationFilter.java:132 | a concatenation of two values is blank exactly when both values are |
| Java.PaddedValueIsNotBlank | src/main/java/com/tipsymcstagger/spring/request/correlation/filter/RequestCorrelationFilter.java:141 | a padded id such as `" id "` is non-blank, so it is adopted as it is (no trimming); null, empty and whitespace-only values are blank |
| FilterOrderOffset.OffsetValues | src/main/java/com/tipsymcstagger/spring/request/correlation/support/FilterOrderOffset.java:25-35 | HIGHEST_PRECEDENCE is `Integer.MIN_VALUE`, LOWEST_PRECEDENCE is `Integer.MAX_VALUE`, ZERO is 0, and the three offsets are distinct |
| FilterOrderOffset.DocumentedExample | src/main/java/com/tipsymcstagger/spring/request/correlation/support/FilterOrderOffset.java:19-21 | order 102 counted from HIGHEST_PRECEDENCE is `MIN_VALUE + 102` |
| RequestCorrelationProperties.RequestCorrelationProperties.constructor | src/main/java/net/saliman/spring/request/correlation/support/RequestCorrelationProperties.java:38-64 | defaults: order HIGHEST_PRECEDENCE (`Integer.MIN_VALUE`), base ZERO, header names `X-Session-Id` and `X-Request-Id` |
| RequestCorrelationProperties.RequestCorrelationProperties.SetFilterOrder | src/main/java/net/saliman/spring/request/correlation/support/RequestCorrelationProperties.java:76-78 | the getter then returns the order set; the other three fields are unchanged |
| RequestCorrelationProperties.RequestCorrelationProperties.SetSessionHeaderName | src/main/java/net/saliman/spring/request/correlation/support/RequestCorrelationProperties.java:94-96 | the getter then returns the name set, with no validation; the other fields are unchanged |
| RequestCorrelationProperties.RequestCorrelationProperties.SetRequestHeaderName | src/main/java/net/saliman/spring/request/correlation/support/RequestCorrelationProperties.java:112-114 | the getter then returns the name set, with no validation; the other fields are unchanged |
| RequestCorrelationProperties.RequestCorrelationProperties.SetFilterOrderFrom | src/main/java/net/saliman/spring/request/correlation/support/RequestCorrelationProperties.java:120-122 | the getter then returns the base set, null included; the other fields are unchanged |
| RequestCorrelationProperties.EqualHeaderNamesAreAccepted | src/main/java/net/saliman/spring/request/correlation/support/RequestCorrelationProperties.java:94-114 | both header names can be set to the same value; nothing rejects it |
| DefaultRequestCorrelation.GettersReturnConstructorArguments | src/main/java/com/tipsymcstagger/spring/request/correlation/filter/DefaultRequestCorrelation.java:38-61 | each getter returns exactly what the constructor was given, null and empty ids included |
| RequestCorrelationUtils.NoCorrelationGivesNull | src/main/java/net/cobery/spring/request/correlation/support/RequestCorrelationUtils.java:34-44 | with no bound attributes, or no correlation under the attribute name, both getters return null |
| RequestCorrelationUtils.GettersShareOnePair | src/main/java/net/cobery/spring/request/correlation/support/RequestCorrelationUtils.java:52-65 | both getters read the same attribute: they return the two parts of one stored pair, or both return null |
| RequestCorrelationUtils.StoredPairReadsBack | src/main/java/net/cobery/spring/request/correlation/support/RequestCorrelationUtils.java:40-62 | after a pair is stored under the attribute name, whatever else the store holds, the lookup finds that pair and the getters return its session id and its request id |
| HeaderOverlay.BaseHeader | src/main/java/com/tipsymcstagger/spring/request/correlation/filter/RequestCorrelationFilter.java:280 | the wrapped request's `getHeader` gives the first value its `getHeaders` lists for the name, and null when that list is empty |
| HeaderOverlay.OverlayOverridesBase | src/main/java/com/tipsymcstagger/spring/request/correlation/filter/RequestCorrelationFilter.java:276-293 | an overlaid name reads as its single overlay value in both lookups; any other name reads as in the base request |
| HeaderOverlay.LookupsAgree | src/main/java/net/saliman/spring/request/correlation/filter/RequestCorrelationFilter.java:292-318 | over a base with no empty value lists, a name is listed exactly when its multi-value lookup is non-empty, exactly when its single lookup is non-null |
| HeaderOverlay.NamesAreUnion | src/main/java/com/tipsymcstagger/spring/request/correlation/filter/RequestCorrelationFilter.java:296-302 | the listed names are the duplicate-free union of overlay and base names |
| HeaderOverlay.UnrelatedBaseHeadersUnchanged | src/main/java/net/saliman/spring/request/correlation/filter/RequestCorrelationFilter.java:300-318 | a base header that is not overlaid keeps all its values and stays listed |
| HeaderOverlay.LastWriteWins | src/main/java/com/tipsymcstagger/spring/request/correlation/filter/RequestCorrelationFilter.java:239-240 | two `setHeader` calls on one name leave the second value, so with equal configured names the request id wins |
| Servlet.ServletRequest.SetAttribute | src/main/java/com/tipsymcstagger/spring/request/correlation/filter/RequestCorrelationFilter.java:238 | the request's attribute store gains, or has replaced, exactly that one entry |
| CorrelationFilterSpec.ResolveId | src/main/java/com/tipsymcstagger/spring/request/correlation/filter/RequestCorrelationFilter.java:129-144 | a non-blank header is adopted as it is; the generator is consulted exactly when the header is blank; a throwing generator fails the resolution |
| CorrelationFilterSpec.FirstFailure | src/main/java/com/tipsymcstagger/spring/request/correlation/filter/RequestCorrelationFilter.java:208-225 | the index of the first interceptor whose callback throws: every earlier one returns; none means that no callback throws |
| CorrelationFilterSpec.CallCount | src/main/java/com/tipsymcstagger/spring/request/correlation/filter/RequestCorrelationFilter.java:208-225 | the number of interceptors called never exceeds the list length |
| CorrelationFilterSpec.CallbackRun | src/main/java/com/tipsymcstagger/spring/request/correlation/filter/RequestCorrelationFilter.java:209-210 | the callbacks of one loop: one per index, in list order, each with the same id pair |
| CorrelationFilterSpec.CallCountStopsAtFirstFailure | src/main/java/com/tipsymcstagger/spring/request/correlation/filter/RequestCorrelationFilter.java:222-224 | when interceptor k is the first to throw, exactly k + 1 interceptors are called and the rest are skipped |
| CorrelationFilterSpec.NoFailureCallsEveryone | src/main/java/net/saliman/spring/request/correlation/filter/RequestCorrelationFilter.java:225-227 | when no callback throws, every interceptor is called |
| CorrelationFilterSpec.NonHttpPassesThrough | src/main/java/com/tipsymcstagger/spring/request/correlation/filter/RequestCorrelationFilter.java:107-112 | a non-HTTP pair reaches the chain as it is: no generator call, no callback, no wrapper, attributes unchanged, the chain's outcome returned |
| CorrelationFilterSpec.GenerationOnlyForBlankHeaders | src/main/java/com/tipsymcstagger/spring/request/correlation/filter/RequestCorrelationFilter.java:129-144 | the session generator is called exactly when the session header is blank; the request generator exactly when the session id was settled and the request header is blank; each at most once, session before request |
| CorrelationFilterSpec.EnteredRunIsFullSettledRun | src/main/java/com/tipsymcstagger/spring/request/correlation/filter/RequestCorrelationFilter.java:124-162 | when the chain runs, the trace is: generator calls, every `afterCorrelationIdSet`, chain entry and exit, then the `cleanUp` calls up to the first that throws; the wrapper overlays exactly the two resolved ids and the attribute holds the pair |
| CorrelationFilterSpec.ChainRunsOnlyAfterSuccessfulSetup | src/main/java/com/tipsymcstagger/spring/request/correlation/filter/RequestCorrelationFilter.java:147-158 | the chain runs exactly when both ids were settled non-null and no `afterCorrelationIdSet` threw; otherwise the request fails and no `cleanUp` is called; a throwing callback's exception is the one raised |
| CorrelationFilterSpec.ChainSeesResolvedIds | src/main/java/net/saliman/spring/request/correlation/filter/RequestCorrelationFilter.java:141-174 | the chain's wrapper and the attribute agree: `getHeader` under each configured name gives the adopted or generated id, `getHeaders` a single value, the names gain both configured names, and every other header is as in the base |
| CorrelationFilterSpec.EachInterceptorNotifiedOnce | src/main/java/net/saliman/spring/request/correlation/filter/RequestCorrelationFilter.java:160-173 | the chain is entered once, and every interceptor gets exactly one `afterCorrelationIdSet` with the stored pair |
| CorrelationFilterSpec.CallbacksBracketTheChain | src/main/java/com/tipsymcstagger/spring/request/correlation/filter/RequestCorrelationFilter.java:147-161 | every `afterCorrelationIdSet` comes before the chain and every `cleanUp` after it; within a phase the callbacks follow list order; all carry the stored pair |
| CorrelationFilterSpec.CleanUpAlwaysFollowsTheChain | src/main/java/com/tipsymcstagger/spring/request/correlation/filter/RequestCorrelationFilter.java:156-161 | once the chain ran, each interceptor gets one `cleanUp` up to the first that throws, whether the chain returned or threw; the chain's exception propagates unless a `cleanUp` throws, whose exception then replaces it |
| CorrelationFilterSpec.NonBlankIdsReachTheChain | src/main/java/com/tipsymcstagger/spring/request/correlation/filter/RequestCorrelationFilter.java:129-158 | with a generator that produces non-blank ids and no throwing callback, the chain runs and the current ids are both non-blank |
| TipsymcstaggerFilter.CorrelatedServletRequest.constructor | src/main/java/com/tipsymcstagger/spring/request/correlation/filter/RequestCorrelationFilter.java:252-262 | the wrapper holds the request and an empty overlay |
| TipsymcstaggerFilter.CorrelatedServletRequest.SetHeader | src/main/java/com/tipsymcstagger/spring/request/correlation/filter/RequestCorrelationFilter.java:270-273 | the overlay maps the key to the value, replacing any earlier one; a null value throws a `NullPointerException` and changes nothing |
| TipsymcstaggerFilter.CorrelatedServletRequest.SetAttribute | src/main/java/com/tipsymcstagger/spring/request/correlation/filter/RequestCorrelationFilter.java:238 | the attribute is written through to the wrapped request |
| TipsymcstaggerFilter.CorrelatedServletRequest.GetHeader | src/main/java/com/tipsymcstagger/spring/request/correlation/filter/RequestCorrelationFilter.java:276-281 | an overlaid name gives its overlay value; any other name gives the wrapped request's header; the result is always the first value `getHeaders` lists, or null when it lists none, and a non-null result's name is listed by `getHeaderNames` |
| TipsymcstaggerFilter.CorrelatedServletRequest.GetHeaders | src/main/java/com/tipsymcstagger/spring/request/correlation/filter/RequestCorrelationFilter.java:284-293 | an overlaid name gives exactly its one overlay value; any other name gives all the wrapped request's values; a name with values is listed by `getHeaderNames` |
| TipsymcstaggerFilter.CorrelatedServletRequest.GetHeaderNames | src/main/java/com/tipsymcstagger/spring/request/correlation/filter/RequestCorrelationFilter.java:296-302 | a name is listed exactly when it is overlaid or is a header of the wrapped request, so every name of either is listed |
| TipsymcstaggerFilter.RequestCorrelationFilter.constructor | src/main/java/com/tipsymcstagger/spring/request/correlation/filter/RequestCorrelationFilter.java:85-87 | the filter keeps the generator, the interceptor list and the properties it is given |
| TipsymcstaggerFilter.RequestCorrelationFilter.Create | src/main/java/com/tipsymcstagger/spring/request/correlation/filter/RequestCorrelationFilter.java:77-88 | a null generator, interceptor list or properties throws `IllegalArgumentException`; otherwise a filter holding the three arguments |
| TipsymcstaggerFilter.RequestCorrelationFilter.TriggerInterceptors | src/main/java/com/tipsymcstagger/spring/request/correlation/filter/RequestCorrelationFilter.java:208-212 | the loop calls `afterCorrelationIdSet` in list order with the given pair, up to and including the first that throws, whose index it reports |
| TipsymcstaggerFilter.RequestCorrelationFilter.TriggerInterceptorsCleanup | src/main/java/com/tipsymcstagger/spring/request/correlation/filter/RequestCorrelationFilter.java:220-225 | the loop calls `cleanUp` in list order with the given pair, up to and including the first that throws, whose index it reports |
| TipsymcstaggerFilter.RequestCorrelationFilter.EnrichRequest | src/main/java/com/tipsymcstagger/spring/request/correlation/filter/RequestCorrelationFilter.java:234-242 | a fresh wrapper around the request; the attribute holds the pair; the overlay maps the configured names to the two ids, or a null id throws `NullPointerException` |
| TipsymcstaggerFilter.RequestCorrelationFilter.DoHttpFilter | src/main/java/com/tipsymcstagger/spring/request/correlation/filter/RequestCorrelationFilter.java:124-162 | the calls made, the outcome, the new attribute store and the chain's argument equal the specification run over the request's headers and attributes |
| TipsymcstaggerFilter.RequestCorrelationFilter.DoFilter | src/main/java/com/tipsymcstagger/spring/request/correlation/filter/RequestCorrelationFilter.java:104-113 | an HTTP pair is filtered as above; any other pair is handed to the chain unchanged; both equal the specification run |
| SalimanFilter.CorrelatedServletRequest.constructor | src/main/java/net/saliman/spring/request/correlation/filter/RequestCorrelationFilter.java:268-278 | the wrapper holds the request and an empty overlay |
| SalimanFilter.CorrelatedServletRequest.SetHeader | src/main/java/net/saliman/spring/request/correlation/filter/RequestCorrelationFilter.java:286-289 | the overlay maps the key to the value, replacing any earlier one; a null value throws a `NullPointerException` and changes nothing |
| SalimanFilter.CorrelatedServletRequest.SetAttribute | src/main/java/net/saliman/spring/request/correlation/filter/RequestCorrelationFilter.java:252 | the attribute is written through to the wrapped request |
| SalimanFilter.CorrelatedServletRequest.GetHeader | src/main/java/net/saliman/spring/request/correlation/filter/RequestCorrelationFilter.java:292-297 | an overlaid name gives its overlay value; any other name gives the wrapped request's header; the result is always the first value `getHeaders` lists, or null when it lists none, and a non-null result's name is listed by `getHeaderNames` |
| SalimanFilter.CorrelatedServletRequest.GetHeaders | src/main/java/net/saliman/spring/request/correlation/filter/RequestCorrelationFilter.java:300-309 | an overlaid name gives exactly its one overlay value; any other name gives all the wrapped request's values; a name with values is listed by `getHeaderNames` |
| SalimanFilter.CorrelatedServletRequest.GetHeaderNames | src/main/java/net/saliman/spring/request/correlation/filter/RequestCorrelationFilter.java:312-318 | a name is listed exactly when it is overlaid or is a header of the wrapped request, so every name of either is listed |
| SalimanFilter.RequestCorrelationFilter.constructor | src/main/java/net/saliman/spring/request/correlation/filter/RequestCorrelationFilter.java:97-99 | the filter keeps the generator, the interceptor list and the properties it is given |
| SalimanFilter.RequestCorrelationFilter.Create | src/main/java/net/saliman/spring/request/correlation/filter/RequestCorrelationFilter.java:91-100 | a null generator, interceptor list or properties throws `IllegalArgumentException`; otherwise a filter holding the three arguments |
| SalimanFilter.RequestCorrelationFilter.TriggerInterceptors | src/main/java/net/saliman/spring/request/correlation/filter/RequestCorrelationFilter.java:223-228 | the loop calls `afterCorrelationIdSet` in list order with the given pair, up to and including the first that throws, whose index it reports |
| SalimanFilter.RequestCorrelationFilter.TriggerInterceptorsCleanup | src/main/java/net/saliman/spring/request/correlation/filter/RequestCorrelationFilter.java:235-240 | the loop calls `cleanUp` in list order with the given pair, up to and including the first that throws, whose index it reports |
| SalimanFilter.RequestCorrelationFilter.EnrichRequest | src/main/java/net/saliman/spring/request/correlation/filter/RequestCorrelationFilter.java:249-256 | a fresh wrapper around the request; the attribute holds the pair; the overlay maps the configured names to the two ids, or a null id throws `NullPointerException` |
| SalimanFilter.RequestCorrelationFilter.DoHttpFilter | src/main/java/net/saliman/spring/request/correlation/filter/RequestCorrelationFilter.java:141-174 | the calls made, the outcome, the new attribute store and the chain's argument equal the specification run over the request's headers and attributes |
| SalimanFilter.RequestCorrelationFilter.DoFilter | src/main/java/net/saliman/spring/request/correlation/filter/RequestCorrelationFilter.java:122-130 | an HTTP pair is filtered as above; any other pair is handed to the chain unchanged; both equal the specification run |
| OutboundHeaders.Add | src/main/java/com/tipsymcstagger/spring/request/correlation/http/ClientHttpRequestCorrelationInterceptor.java:58 | adding a header appends one value to that name's values and leaves every other name's values as they were |
| OutboundHeaders.NoContextLeavesHeadersUnchanged | src/main/java/com/tipsymcstagger/spring/request/correlation/http/ClientHttpRequestCorrelationInterceptor.java:56-65 | with no current ids the outgoing headers are left exactly as they were |
| OutboundHeaders.PropagateAppends | src/main/java/com/tipsymcstagger/spring/request/correlation/http/ClientHttpRequestCorrelationInterceptor.java:56-65 | each non-null id is appended under its configured name, after any values already there; no other header changes |
| OutboundHeaders.FromEmptyEachNameHasOneValue | src/test/java/com/tipsymcstagger/spring/request/correlation/http/ClientHttpRequestCorrelationInterceptorTest.java:76-89 | from empty headers with both ids bound and two distinct names, each name ends with exactly one value, its id |
| OutboundHeaders.FromEmptyOnlyGivenNames | src/test/java/com/tipsymcstagger/spring/request/correlation/http/ClientHttpRequestCorrelationInterceptorTest.java:95-130 | from empty headers, no name other than the two configured names is present, so custom names leave the defaults absent |
| ClientHttpInterceptor.ClientHttpRequestCorrelationInterceptor.constructor | src/main/java/com/tipsymcstagger/spring/request/correlation/http/ClientHttpRequestCorrelationInterceptor.java:44-48 | the interceptor keeps the properties |
| ClientHttpInterceptor.ClientHttpRequestCorrelationInterceptor.Create | src/main/java/com/tipsymcstagger/spring/request/correlation/http/ClientHttpRequestCorrelationInterceptor.java:44-48 | null properties throw `IllegalArgumentException`; otherwise an interceptor holding them |
| ClientHttpInterceptor.ClientHttpRequestCorrelationInterceptor.Intercept | src/main/java/com/tipsymcstagger/spring/request/correlation/http/ClientHttpRequestCorrelationInterceptor.java:52-69 | the request's headers gain the current ids under the configured names; then the request and body are executed exactly once, with those headers, and the execution's answer is returned unchanged |
| WebClientInterceptor.WebClientCorrelationInterceptor.constructor | src/main/java/net/cobery/spring/request/correlation/webclient/WebClientCorrelationInterceptor.java:41-45 | the customizer keeps the properties |
| WebClientInterceptor.WebClientCorrelationInterceptor.Create | src/main/java/net/cobery/spring/request/correlation/webclient/WebClientCorrelationInterceptor.java:41-45 | null properties throw `IllegalArgumentException`; otherwise a customizer holding them |
| WebClientInterceptor.WebClientCorrelationInterceptor.Customize | src/main/java/net/cobery/spring/request/correlation/webclient/WebClientCorrelationInterceptor.java:53-55 | exactly one filter, this customizer's correlation filter, is registered after those already on the builder |
| WebClientInterceptor.WebClientCorrelationInterceptor.CorrelatedRequest | src/main/java/net/cobery/spring/request/correlation/webclient/WebClientCorrelationInterceptor.java:66-79 | the copy keeps method and URL; with distinct names, each name's values are the original's followed by its non-null current id; every other header's values are the original's |
| WebClientInterceptor.WebClientCorrelationInterceptor.AddCorrelationHeaders | src/main/java/net/cobery/spring/request/correlation/webclient/WebClientCorrelationInterceptor.java:64-81 | the copy is exchanged exactly once and the exchange's response is returned |
| WebClientInterceptor.NoContextCopiesRequest | src/main/java/net/cobery/spring/request/correlation/webclient/WebClientCorrelationInterceptor.java:66-79 | with no current context the copy equals the original request |
| CoberyFeign.FeignCorrelationInterceptor.constructor | src/main/java/net/cobery/spring/request/correlation/feign/FeignCorrelationInterceptor.java:38-42 | the interceptor keeps the properties |
| CoberyFeign.FeignCorrelationInterceptor.Create | src/main/java/net/cobery/spring/request/correlation/feign/FeignCorrelationInterceptor.java:38-42 | null properties throw `IllegalArgumentException`; otherwise an interceptor holding them |
| CoberyFeign.FeignCorrelationInterceptor.Apply | src/main/java/net/cobery/spring/request/correlation/feign/FeignCorrelationInterceptor.java:46-57 | the template gains each non-null current id under its configured name; nothing else changes |
| CoberyFeign.CustomHeaderNamesHonoured | src/main/java/net/cobery/spring/request/correlation/feign/FeignCorrelationInterceptor.java:50-55 | for any interceptor whose two configured names differ from each other and from the defaults, with both ids bound an empty template ends with exactly one value under each configured name, its id, and nothing under the defaults |
| SalimanFeign.FeignCorrelationInterceptor.constructor | src/main/java/net/saliman/spring/request/correlation/feign/FeignCorrelationInterceptor.java:44-48 | the interceptor keeps the properties |
| SalimanFeign.FeignCorrelationInterceptor.Create | src/main/java/net/saliman/spring/request/correlation/feign/FeignCorrelationInterceptor.java:44-48 | null properties throw `IllegalArgumentException`; otherwise an interceptor holding them |
| SalimanFeign.FeignCorrelationInterceptor.Apply | src/main/java/net/saliman/spring/request/correlation/feign/FeignCorrelationInterceptor.java:54-65 | the template gains each non-null current id under the constant default names; the stored properties are not read |
| SalimanFeign.NoIdsNoHeaders | src/test/java/net/saliman/spring/request/correlation/feign/FeignCorrelationInterceptorTest.java:99-111 | with null ids, the template is left unchanged |
| SalimanFeign.DefaultNamesHoldOneValueEach | src/test/java/net/saliman/spring/request/correlation/feign/FeignCorrelationInterceptorTest.java:55-72 | with both ids bound, an empty template ends with exactly one value under each default name |
| SalimanFeign.CustomHeaderNamesIgnored | src/main/java/net/saliman/spring/request/correlation/feign/FeignCorrelationInterceptor.java:58-63 | for any interceptor whose configured names both differ from the defaults, with both ids bound an empty template gets neither configured name, and one value under each default name, its id |
| HttpAccessors.SortKey | src/main/java/net/cobery/spring/request/correlation/http/ClientHttpCorrelationConfiguration.java:55 | the comparator's rank: `PriorityOrdered` entries rank below every other, an `Ordered` or `@Order` entry ranks by its order value, and the correlation interceptor, which declares no order, ranks as `LOWEST_PRECEDENCE`, the highest rank |
| HttpAccessors.InsertKeepsOrder | src/main/java/net/cobery/spring/request/correlation/http/ClientHttpCorrelationConfiguration.java:55 | one step of the stable sort adds exactly the new entry and keeps an ordered list in order |
| HttpAccessors.SortIsOrderedPermutation | src/main/java/net/cobery/spring/request/correlation/http/ClientHttpCorrelationConfiguration.java:55 | the sort `setInterceptors` applies returns a permutation of the entries, in the comparator's order |
| HttpAccessors.SortKeepsOrderedList | src/main/java/net/cobery/spring/request/correlation/http/ClientHttpCorrelationConfiguration.java:55 | a list already in the comparator's order is left as it is by the sort |
| HttpAccessors.UnorderedEntrySortsLast | src/main/java/net/cobery/spring/request/correlation/http/ClientHttpCorrelationConfiguration.java:54-55 | an entry of rank `LOWEST_PRECEDENCE` appended to any list stays last after the sort, behind the sorted old entries |
| HttpAccessors.InitializeOnceMore | src/main/java/net/cobery/spring/request/correlation/http/ClientHttpCorrelationConfiguration.java:52-55 | one more copy, append and set on a client keeps the description: its old entries in the comparator's order, then one more correlation interceptor |
| HttpAccessors.OrderedListKeepsItsOrder | src/main/java/net/cobery/spring/request/correlation/http/ClientHttpCorrelationConfiguration.java:49-58 | a client whose interceptors were already in the comparator's order keeps them in front, as they were, followed by the new correlation interceptors |
| HttpAccessors.ExtendByOne | src/main/java/net/cobery/spring/request/correlation/http/ClientHttpCorrelationConfiguration.java:52-55 | copying a client's list and appending one correlation interceptor extends it by one, keeping the old entries in order |
| HttpAccessors.ExtensionsCompose | src/main/java/net/cobery/spring/request/correlation/http/ClientHttpCorrelationConfiguration.java:49-58 | two runs of the initializer append twice, so it is not idempotent |
| CoberyClientHttpConfiguration.ClientHttpCorrelationConfiguration.constructor | src/main/java/net/cobery/spring/request/correlation/http/ClientHttpCorrelationConfiguration.java:41-42 | the client list defaults to an empty list |
| CoberyClientHttpConfiguration.ClientHttpCorrelationConfiguration.ClientsCorrelationInitializer | src/main/java/net/cobery/spring/request/correlation/http/ClientHttpCorrelationConfiguration.java:44-49 | the bean captures this configuration and the properties; it reads the client list only when it runs |
| CoberyClientHttpConfiguration.CorrelationInitializer.AfterPropertiesSet | src/main/java/net/cobery/spring/request/correlation/http/ClientHttpCorrelationConfiguration.java:49-58 | a null list changes nothing; otherwise `setInterceptors` sorts each copy, so a client listed `k > 0` times holds its old interceptors in the comparator's stable order (unchanged when they were in order already), followed by `k` new correlation interceptors; an unlisted client is untouched |
| SalimanClientHttpConfiguration.ClientHttpCorrelationConfiguration.constructor | src/main/java/net/saliman/spring/request/correlation/http/ClientHttpCorrelationConfiguration.java:44-45 | the client list defaults to an empty list |
| SalimanClientHttpConfiguration.ClientHttpCorrelationConfiguration.ClientsCorrelationInitializer | src/main/java/net/saliman/spring/request/correlation/http/ClientHttpCorrelationConfiguration.java:47-50 | the bean captures this configuration and the properties; it reads the client list only when it runs |
| SalimanClientHttpConfiguration.CorrelationInitializer.AfterPropertiesSet | src/main/java/net/saliman/spring/request/correlation/http/ClientHttpCorrelationConfiguration.java:52-61 | a null list changes nothing; otherwise `setInterceptors` sorts each copy, so a client listed `k > 0` times holds its old interceptors in the comparator's stable order (unchanged when they were in order already), followed by `k` new correlation interceptors; an unlisted client is untouched |
| FilterRegistration.EffectiveOrder | src/main/java/net/cobery/spring/request/correlation/filter/RequestCorrelationConfiguration.java:92 | the order is the base's offset plus the configured order in Java `int` arithmetic; a null base gives none (a `NullPointerException`) |
| FilterRegistration.ZeroKeepsOrder | src/main/java/net/saliman/spring/request/correlation/support/RequestCorrelationConfiguration.java:71 | counting from ZERO keeps the configured order |
| FilterRegistration.DefaultOrderIsMinValue | src/main/java/net/saliman/spring/request/correlation/support/RequestCorrelationProperties.java:38-48 | with the default properties the order is `Integer.MIN_VALUE` |
| FilterRegistration.OrderWrapsAround | src/main/java/net/cobery/spring/request/correlation/filter/RequestCorrelationConfiguration.java:92 | the sum wraps: HIGHEST plus HIGHEST is 0, LOWEST plus LOWEST is -2, HIGHEST plus LOWEST is -1 |
| FilterRegistration.HighestPlusNonNegativeOrder | src/main/java/net/saliman/spring/request/correlation/support/RequestCorrelationConfiguration.java:71 | counting from HIGHEST_PRECEDENCE by a non-negative order does not wrap |
| CoberyFilterConfiguration.RequestCorrelationConfiguration.constructor | src/main/java/net/cobery/spring/request/correlation/filter/RequestCorrelationConfiguration.java:46-47 | the interceptor list defaults to empty |
| CoberyFilterConfiguration.RequestCorrelationConfiguration.RequestCorrelationFilter | src/main/java/net/cobery/spring/request/correlation/filter/RequestCorrelationConfiguration.java:70-73 | the filter gets the generator, the properties and the interceptor list as it is |
| CoberyFilterConfiguration.RequestCorrelationConfiguration.RequestCorrelationFilterBean | src/main/java/net/cobery/spring/request/correlation/filter/RequestCorrelationConfiguration.java:83-95 | a fresh registration of the filter, match-before, dispatcher types exactly REQUEST, FORWARD and ASYNC, async supported, order the wrapping sum; a null base throws `NullPointerException` |
| SalimanFilterConfiguration.RequestCorrelationConfiguration.constructor | src/main/java/net/saliman/spring/request/correlation/support/RequestCorrelationConfiguration.java:47-48 | the interceptor list defaults to empty |
| SalimanFilterConfiguration.RequestCorrelationConfiguration.RequestCorrelationFilter | src/main/java/net/saliman/spring/request/correlation/support/RequestCorrelationConfiguration.java:57-61 | the filter gets the generator, the properties and the interceptor list as it is |
| SalimanFilterConfiguration.RequestCorrelationConfiguration.RequestCorrelationFilterBean | src/main/java/net/saliman/spring/request/correlation/support/RequestCorrelationConfiguration.java:63-74 | a fresh registration of the filter, match-before, dispatcher types exactly REQUEST, FORWARD and ASYNC, async supported, order the wrapping sum; a null base throws `NullPointerException` |
| EndToEnd.OutboundCallsForwardInboundIds | src/main/java/com/tipsymcstagger/spring/request/correlation/http/ClientHttpRequestCorrelationInterceptor.java:56-68 | with distinct session and request header names, while the chain runs, an outgoing call with the same header names appends exactly the ids the chain reads through the wrapper, and changes no other header |

## Left out

- Id generation (`DefaultIdGenerator`, `UuidGenerator`) is random and creates servlet sessions. The generator is a parameter saying, for each id, whether it returns a value, null, or throws. The UUID format is not modelled.
- Thread binding through `RequestContextHolder` is left out, and so is isolation between concurrent requests. The current request attributes are an explicit `Option` argument.
- `src/main/java/net/cobery/spring/request/correlation/filter/RequestCorrelationFilter.java` is not part of this model. The `net.cobery` configuration builds the `com.tipsymcstagger` filter model in its place.
- The `RequestCorrelation`, `CorrelationIdGenerator` and `RequestCorrelationInterceptor` interfaces of the three package families are one set of types here, as are their properties classes.
- Interceptors and the filter chain are parameters that say whether each call returns or throws. What a chain or an interceptor does inside is not modelled. A `ServletException` and an `IOException` from the chain are one failure kind.
- Header names are compared exactly, as strings. The case-insensitive matching of servlet containers and Spring `HttpHeaders` is not modelled, and neither are null header names.
- Feign's own behaviour is not modelled: template expansion, and the merging of repeated values by `RequestTemplate.header`. A template header is an appended list of values.
- WebClientInterceptor.WebClientCorrelationInterceptor.CorrelatedRequest: the copy made by `ClientRequest.from` keeps the method, the URL and the headers only. Cookies, request attributes and the body inserter are not modelled, so the model does not state that they are copied unchanged.
- The real HTTP execution (`execution.execute`, `next.exchange`) is a recorded call that returns a fixed answer. Request bodies are passed through uninterpreted.
- `FilterRegistrationBean` is reduced to the five properties the configurations set. Its setters are written as field assignments, and its defaults come from the framework, not from this repository.
- `init` and `destroy` of the filter are empty and are not modelled.
- The `logger.debug` calls are not modelled.
- Spring wiring is not modelled: `@Configuration`, `@Conditional*`, `@Autowired`, property binding, `EnableRequestCorrelation`, `WebClientCorrelationConfiguration` and `FeignCorrelationConfiguration`.
- The default-generator beans (`requestIdGenerator`) are not part of this model.
- The `x()` bean of the `net.saliman` `ClientHttpCorrelationConfiguration` only writes a line to standard output, so it is not modelled.
- CoberyClientHttpConfiguration.CorrelationInitializer.AfterPropertiesSet, SalimanClientHttpConfiguration.CorrelationInitializer.AfterPropertiesSet: Spring's `setInterceptors` is modelled as clear, add all and `AnnotationAwareOrderComparator.sort`. Each entry's order is given as data: `PriorityOrdered`, an order value, or none. How the comparator finds it (`@Priority`, proxies, `OrderSourceProvider`) is not modelled, and neither is its `noNullElements` check.
- `HeaderOverlay.LookupsAgree`: stated only for base requests with no empty value list. An empty value list is a name the container lists but cannot look up.

## Findings

| source | as written | input that shows it | evidently intended | confidence | as-written member | corrected member |
|---|---|---|---|---|---|---|
| src/main/java/net/saliman/spring/request/correlation/feign/FeignCorrelationInterceptor.java:58-63 | `apply` writes the ids under the constants `X-Session-Id` and `X-Request-Id`; the configured properties are kept but never read | header names configured as `My-Session` and `My-Request`, both ids bound, an empty template: the template gets `X-Session-Id` and `X-Request-Id`, and neither custom name | the configured names are used, as the `net.cobery` copy does and as src/test/java/net/saliman/spring/request/correlation/feign/FeignCorrelationInterceptorTest.java:75-97 expects | not executed | SalimanFeign.CustomHeaderNamesIgnored | CoberyFeign.CustomHeaderNamesHonoured |
