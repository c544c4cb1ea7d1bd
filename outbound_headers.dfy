/**
 * What every outbound propagator does to a header multimap: append the current session id and
 * request id, each only when it is non-null, under the given names. Appending (`add`) keeps any
 * value already present under the name.
 */
module OutboundHeaders {
  import opened Java
  import opened HeaderOverlay

  /** The values under a name, none when the name is absent. */
  function Values(headers: HeaderMultimap, name: string): seq<string> {
    if name in headers then headers[name] else []
  }

  /** The values a nullable id contributes: none for null, else the id itself. */
  function Contribution(id: Option<string>): seq<string> {
    if id.Some? then [id.value] else []
  }

  /** `add(name, value)`: the value goes after those already under the name; no other name changes. */
  function Add(headers: HeaderMultimap, name: string, value: string): (r: HeaderMultimap)
    ensures Values(r, name) == Values(headers, name) + [value]
    ensures r.Keys == headers.Keys + {name}
    ensures forall other :: other != name ==> Values(r, other) == Values(headers, other)
  {
    headers[name := Values(headers, name) + [value]]
  }

  /** The `if (id != null) add(name, id)` step. */
  function AddIfPresent(headers: HeaderMultimap, name: string, id: Option<string>): HeaderMultimap {
    if id.Some? then Add(headers, name, id.value) else headers
  }

  /** Both steps, session id first. */
  function Propagate(headers: HeaderMultimap, sessionHeaderName: string, requestHeaderName: string,
                     sessionId: Option<string>, requestId: Option<string>): HeaderMultimap {
    AddIfPresent(AddIfPresent(headers, sessionHeaderName, sessionId), requestHeaderName, requestId)
  }

  /** With no current context both ids are null, and the headers are left exactly as they were. */
  lemma NoContextLeavesHeadersUnchanged(headers: HeaderMultimap, sessionHeaderName: string, requestHeaderName: string)
    ensures Propagate(headers, sessionHeaderName, requestHeaderName, None, None) == headers
  {
  }

  /**
   * Each id is appended after the values already under its name (both after one another when the
   * names coincide); no other name changes, and a name is added only for a non-null id.
   */
  lemma PropagateAppends(headers: HeaderMultimap, sessionHeaderName: string, requestHeaderName: string,
                         sessionId: Option<string>, requestId: Option<string>)
    ensures var p := Propagate(headers, sessionHeaderName, requestHeaderName, sessionId, requestId);
            && (sessionHeaderName != requestHeaderName ==>
                  && Values(p, sessionHeaderName) == Values(headers, sessionHeaderName) + Contribution(sessionId)
                  && Values(p, requestHeaderName) == Values(headers, requestHeaderName) + Contribution(requestId))
            && (sessionHeaderName == requestHeaderName ==>
                  Values(p, sessionHeaderName) == Values(headers, sessionHeaderName) + Contribution(sessionId) + Contribution(requestId))
            && (forall name :: name != sessionHeaderName && name != requestHeaderName ==> Values(p, name) == Values(headers, name))
            && p.Keys == headers.Keys + (if sessionId.Some? then {sessionHeaderName} else {})
                                      + (if requestId.Some? then {requestHeaderName} else {})
  {
    var middle := AddIfPresent(headers, sessionHeaderName, sessionId);
    assert Values(middle, sessionHeaderName) == Values(headers, sessionHeaderName) + Contribution(sessionId);
    if sessionHeaderName == requestHeaderName && requestId.Some? {
      assert Values(headers, sessionHeaderName) + Contribution(sessionId) + [requestId.value]
          == Values(headers, sessionHeaderName) + Contribution(sessionId) + Contribution(requestId);
    }
  }

  /** Starting from no headers, two distinct names each end up with exactly their one id. */
  lemma FromEmptyEachNameHasOneValue(sessionHeaderName: string, requestHeaderName: string, sessionId: string, requestId: string)
    requires sessionHeaderName != requestHeaderName
    ensures Propagate(map[], sessionHeaderName, requestHeaderName, Some(sessionId), Some(requestId))
            == map[sessionHeaderName := [sessionId], requestHeaderName := [requestId]]
  {
    var empty: HeaderMultimap := map[];
    assert Values(empty, sessionHeaderName) + [sessionId] == [sessionId];
    var middle := Add(empty, sessionHeaderName, sessionId);
    assert Values(middle, requestHeaderName) + [requestId] == [requestId];
  }

  /** Starting from no headers, only the names used appear: any other name, a default one included, stays absent. */
  lemma FromEmptyOnlyGivenNames(sessionHeaderName: string, requestHeaderName: string,
                                sessionId: Option<string>, requestId: Option<string>, other: string)
    requires other != sessionHeaderName && other != requestHeaderName
    ensures other !in Propagate(map[], sessionHeaderName, requestHeaderName, sessionId, requestId)
  {
  }
}
