/** The `RestTemplate`-style clients whose interceptor lists the initializer extends. */
module HttpAccessors {
  import Java
  import ClientHttpInterceptor
  import Props = RequestCorrelationProperties

  /**
   * How `AnnotationAwareOrderComparator` sees an interceptor: it implements `PriorityOrdered`,
   * it has an order value (`Ordered` or `@Order`), or it declares none.
   */
  datatype OrderDeclaration = PriorityOrdered(order: Java.int32) | Ordered(order: Java.int32) | NoOrder

  /**
   * An entry of a client's interceptor list: a correlation interceptor, which declares no order,
   * or any other.
   */
  datatype ClientHttpRequestInterceptor =
    | Correlation(interceptor: ClientHttpInterceptor.ClientHttpRequestCorrelationInterceptor)
    | OtherInterceptor(name: string, declared: OrderDeclaration)

  /**
   * The comparator's rank of an entry: every `PriorityOrdered` entry comes before every other one,
   * then entries go by order value, and one that declares none counts as `LOWEST_PRECEDENCE`.
   */
  function SortKey(e: ClientHttpRequestInterceptor): (r: int)
    ensures r <= Java.INT_MAX
    ensures e.Correlation? ==> r == Java.INT_MAX
    ensures e.OtherInterceptor? && e.declared.PriorityOrdered? ==> r < Java.INT_MIN
    ensures e.OtherInterceptor? && e.declared.Ordered? ==> r == e.declared.order as int
  {
    match e
    case Correlation(_) => Java.INT_MAX
    case OtherInterceptor(_, PriorityOrdered(order)) => order as int - Java.TWO_TO_32
    case OtherInterceptor(_, Ordered(order)) => order as int
    case OtherInterceptor(_, NoOrder) => Java.INT_MAX
  }

  /** The entries are in the comparator's order. */
  ghost predicate InOrder(s: seq<ClientHttpRequestInterceptor>) {
    forall i, j :: 0 <= i < j < |s| ==> SortKey(s[i]) <= SortKey(s[j])
  }

  /** Stable insertion: `x` goes after every entry of `t` whose rank is not greater than its own. */
  function InsertInOrder(t: seq<ClientHttpRequestInterceptor>, x: ClientHttpRequestInterceptor): seq<ClientHttpRequestInterceptor> {
    if |t| == 0 then [x]
    else if SortKey(t[|t| - 1]) <= SortKey(x) then t + [x]
    else InsertInOrder(t[..|t| - 1], x) + [t[|t| - 1]]
  }

  /** Insertion adds exactly `x` and keeps an ordered list in order. */
  lemma {:induction false} InsertKeepsOrder(t: seq<ClientHttpRequestInterceptor>, x: ClientHttpRequestInterceptor)
    ensures multiset(InsertInOrder(t, x)) == multiset(t) + multiset{x}
    ensures InOrder(t) ==> InOrder(InsertInOrder(t, x))
  {
    if |t| > 0 && SortKey(x) < SortKey(t[|t| - 1]) {
      var init := t[..|t| - 1];
      assert t == init + [t[|t| - 1]];
      InsertKeepsOrder(init, x);
      if InOrder(t) {
        assert InOrder(init) by {
          forall i, j | 0 <= i < j < |init|
            ensures SortKey(init[i]) <= SortKey(init[j])
          {
            assert init[i] == t[i] && init[j] == t[j];
          }
        }
        InsertedStaysBelow(t, x, InsertInOrder(init, x));
      }
    }
  }

  /** The entries inserted before the last one of `t` all rank no higher than it. */
  lemma InsertedStaysBelow(t: seq<ClientHttpRequestInterceptor>, x: ClientHttpRequestInterceptor,
                           rest: seq<ClientHttpRequestInterceptor>)
    requires |t| > 0 && SortKey(x) < SortKey(t[|t| - 1])
    requires multiset(rest) == multiset(t[..|t| - 1]) + multiset{x}
    requires InOrder(t) && InOrder(rest)
    ensures InOrder(rest + [t[|t| - 1]])
  {
    var r := rest + [t[|t| - 1]];
    forall i, j | 0 <= i < j < |r|
      ensures SortKey(r[i]) <= SortKey(r[j])
    {
      if j == |r| - 1 {
        assert r[i] == rest[i];
        assert r[i] in multiset(rest);
        if r[i] != x {
          assert r[i] in multiset(t[..|t| - 1]);
          var k :| 0 <= k < |t| - 1 && t[..|t| - 1][k] == r[i];
          assert t[k] == r[i];
        }
      } else {
        assert r[i] == rest[i] && r[j] == rest[j];
      }
    }
  }

  /**
   * `AnnotationAwareOrderComparator.sort`: a stable sort (`List.sort`) by rank, here as an
   * insertion sort.
   */
  function OrderSorted(s: seq<ClientHttpRequestInterceptor>): seq<ClientHttpRequestInterceptor> {
    if |s| == 0 then [] else InsertInOrder(OrderSorted(s[..|s| - 1]), s[|s| - 1])
  }

  /** The sort returns a permutation of the entries, in the comparator's order. */
  lemma {:induction false} SortIsOrderedPermutation(s: seq<ClientHttpRequestInterceptor>)
    ensures multiset(OrderSorted(s)) == multiset(s)
    ensures InOrder(OrderSorted(s))
  {
    if |s| > 0 {
      var init := s[..|s| - 1];
      assert s == init + [s[|s| - 1]];
      SortIsOrderedPermutation(init);
      InsertKeepsOrder(OrderSorted(init), s[|s| - 1]);
    }
  }

  /** The sort leaves a list that is already in order as it is. */
  lemma {:induction false} SortKeepsOrderedList(s: seq<ClientHttpRequestInterceptor>)
    requires InOrder(s)
    ensures OrderSorted(s) == s
  {
    if |s| > 0 {
      var init := s[..|s| - 1];
      assert InOrder(init) by {
        forall i, j | 0 <= i < j < |init|
          ensures SortKey(init[i]) <= SortKey(init[j])
        {
          assert init[i] == s[i] && init[j] == s[j];
        }
      }
      SortKeepsOrderedList(init);
      if |init| > 0 {
        assert SortKey(s[|s| - 2]) <= SortKey(s[|s| - 1]);
      }
      assert init + [s[|s| - 1]] == s;
    }
  }

  /** An entry that declares no order, such as a correlation interceptor, is sorted to the end. */
  lemma UnorderedEntrySortsLast(s: seq<ClientHttpRequestInterceptor>, x: ClientHttpRequestInterceptor)
    requires SortKey(x) == Java.INT_MAX
    ensures OrderSorted(s + [x]) == OrderSorted(s) + [x]
  {
    assert (s + [x])[..|s|] == s;
  }

  /** `InterceptingHttpAccessor`: a client holding a list of interceptors. */
  class InterceptingHttpAccessor {
    var interceptors: seq<ClientHttpRequestInterceptor>

    constructor (interceptors: seq<ClientHttpRequestInterceptor>)
      ensures this.interceptors == interceptors
    {
      this.interceptors := interceptors;
    }

    /**
     * `setInterceptors`: the list is cleared, refilled with the given entries and sorted with
     * `AnnotationAwareOrderComparator`.
     */
    method SetInterceptors(interceptors: seq<ClientHttpRequestInterceptor>)
      modifies this
      ensures this.interceptors == OrderSorted(interceptors)
    {
      this.interceptors := OrderSorted(interceptors);
    }
  }

  /**
   * `after` is `before`, unchanged and in order, followed by `k` correlation interceptors built
   * with the given properties.
   */
  ghost predicate ExtendedBy(before: seq<ClientHttpRequestInterceptor>, after: seq<ClientHttpRequestInterceptor>, k: nat,
                             properties: Props.RequestCorrelationProperties) {
    && |after| == |before| + k
    && after[..|before|] == before
    && forall j :: |before| <= j < |after| ==> after[j].Correlation? && after[j].interceptor.properties == properties
  }

  /** Appending one more correlation interceptor extends by one more. */
  lemma ExtendByOne(before: seq<ClientHttpRequestInterceptor>, after: seq<ClientHttpRequestInterceptor>, k: nat,
                    properties: Props.RequestCorrelationProperties,
                    added: ClientHttpInterceptor.ClientHttpRequestCorrelationInterceptor)
    requires ExtendedBy(before, after, k, properties)
    requires added.properties == properties
    ensures ExtendedBy(before, after + [Correlation(added)], k + 1, properties)
  {
    assert (after + [Correlation(added)])[..|before|] == after[..|before|];
  }

  /** Extensions compose: running the initializer twice appends twice, so it is not idempotent. */
  lemma ExtensionsCompose(first: seq<ClientHttpRequestInterceptor>, second: seq<ClientHttpRequestInterceptor>,
                            third: seq<ClientHttpRequestInterceptor>, k: nat, l: nat,
                            properties: Props.RequestCorrelationProperties)
    requires ExtendedBy(first, second, k, properties)
    requires ExtendedBy(second, third, l, properties)
    ensures ExtendedBy(first, third, k + l, properties)
    ensures l > 0 ==> third != second
  {
    assert third[..|first|] == third[..|second|][..|first|];
    forall j | |first| <= j < |third|
      ensures third[j].Correlation? && third[j].interceptor.properties == properties
    {
      if j < |second| {
        assert third[j] == third[..|second|][j];
      }
    }
  }
  /**
   * What `k` runs of the initializer leave on one client: nothing changes for `k == 0`;
   * otherwise the old entries in the comparator's order, then the `k` new correlation interceptors.
   */
  ghost predicate InitializedBy(before: seq<ClientHttpRequestInterceptor>, after: seq<ClientHttpRequestInterceptor>, k: nat,
                                properties: Props.RequestCorrelationProperties) {
    if k == 0 then after == before else ExtendedBy(OrderSorted(before), after, k, properties)
  }

  /** Correlation interceptors appended to an ordered list leave it in order. */
  lemma ExtendedStaysInOrder(before: seq<ClientHttpRequestInterceptor>, after: seq<ClientHttpRequestInterceptor>, k: nat,
                             properties: Props.RequestCorrelationProperties)
    requires InOrder(before) && ExtendedBy(before, after, k, properties)
    ensures InOrder(after)
  {
    forall i, j | 0 <= i < j < |after|
      ensures SortKey(after[i]) <= SortKey(after[j])
    {
      if j < |before| {
        assert after[i] == after[..|before|][i] && after[j] == after[..|before|][j];
      }
    }
  }

  /**
   * One more run of the loop body on a client: copy its list, append a correlation interceptor,
   * set the copy back (which sorts it).
   */
  lemma InitializeOnceMore(before: seq<ClientHttpRequestInterceptor>, after: seq<ClientHttpRequestInterceptor>, k: nat,
                           properties: Props.RequestCorrelationProperties,
                           added: ClientHttpInterceptor.ClientHttpRequestCorrelationInterceptor)
    requires InitializedBy(before, after, k, properties)
    requires added.properties == properties
    ensures InitializedBy(before, OrderSorted(after + [Correlation(added)]), k + 1, properties)
  {
    UnorderedEntrySortsLast(after, Correlation(added));
    if k == 0 {
      assert ExtendedBy(OrderSorted(before), OrderSorted(before), 0, properties);
      ExtendByOne(OrderSorted(before), OrderSorted(before), 0, properties, added);
    } else {
      SortIsOrderedPermutation(before);
      ExtendedStaysInOrder(OrderSorted(before), after, k, properties);
      SortKeepsOrderedList(after);
      ExtendByOne(OrderSorted(before), after, k, properties, added);
    }
  }

  /** A client whose interceptors were already in order keeps them as they were, in front. */
  lemma OrderedListKeepsItsOrder(before: seq<ClientHttpRequestInterceptor>, after: seq<ClientHttpRequestInterceptor>, k: nat,
                                 properties: Props.RequestCorrelationProperties)
    requires InOrder(before) && InitializedBy(before, after, k, properties)
    ensures ExtendedBy(before, after, k, properties)
  {
    SortKeepsOrderedList(before);
    if k == 0 {
      assert after[..|before|] == before;
    }
  }
}

/** The client initializer of the `net.cobery` package family. */
module CoberyClientHttpConfiguration {
  import opened Java
  import opened HttpAccessors
  import ClientHttpInterceptor
  import Props = RequestCorrelationProperties

  class ClientHttpCorrelationConfiguration {
    /** The client beans; the declared default is an empty list, and autowiring may replace it. */
    var clients: Option<seq<InterceptingHttpAccessor>>

    constructor ()
      ensures clients == Some([])
    {
      clients := Some([]);
    }

    method SetClients(clients: Option<seq<InterceptingHttpAccessor>>)
      modifies this
      ensures this.clients == clients
    {
      this.clients := clients;
    }

    function Clients(): seq<InterceptingHttpAccessor>
      reads this
    {
      if clients.Some? then clients.value else []
    }

    /** The `@Bean` method: it returns the initializer, which reads the client list only when run. */
    method ClientsCorrelationInitializer(properties: Props.RequestCorrelationProperties) returns (bean: CorrelationInitializer)
      ensures fresh(bean) && bean.configuration == this && bean.properties == properties
    {
      bean := new CorrelationInitializer(this, properties);
    }
  }

  /** The `InitializingBean` the configuration returns. */
  class CorrelationInitializer {
    const configuration: ClientHttpCorrelationConfiguration
    const properties: Props.RequestCorrelationProperties

    constructor (configuration: ClientHttpCorrelationConfiguration, properties: Props.RequestCorrelationProperties)
      ensures this.configuration == configuration && this.properties == properties
    {
      this.configuration := configuration;
      this.properties := properties;
    }

    /**
     * Null clients: nothing happens. Otherwise each client's list is copied, one new correlation
     * interceptor is appended and the copy is set back, which sorts it; a client listed `k` times
     * gets `k` of them, after its old entries in the comparator's order.
     */
    method AfterPropertiesSet()
      modifies set c | c in configuration.Clients()
      ensures forall c :: c in old(configuration.Clients()) ==>
                InitializedBy(old(c.interceptors), c.interceptors, multiset(old(configuration.Clients()))[c], properties)
    {
      if configuration.clients == None {
        return;
      }
      var clients := configuration.clients.value;
      var i := 0;
      while i < |clients|
        invariant 0 <= i <= |clients|
        invariant forall c :: c in clients ==> InitializedBy(old(c.interceptors), c.interceptors, multiset(clients[..i])[c], properties)
        modifies set c | c in clients
      {
        var client := clients[i];
        var interceptors := client.interceptors;
        var added := new ClientHttpInterceptor.ClientHttpRequestCorrelationInterceptor(properties);
        InitializeOnceMore(old(client.interceptors), interceptors, multiset(clients[..i])[client], properties, added);
        interceptors := interceptors + [Correlation(added)];
        label Before:
        client.SetInterceptors(interceptors);
        assert clients[..i + 1] == clients[..i] + [client];
        forall c | c in clients
          ensures InitializedBy(old(c.interceptors), c.interceptors, multiset(clients[..i + 1])[c], properties)
        {
          if c != client {
            assert c.interceptors == old@Before(c.interceptors);
            assert multiset(clients[..i + 1])[c] == multiset(clients[..i])[c];
          }
        }
        i := i + 1;
      }
      assert clients[..|clients|] == clients;
    }
  }
}

/** The client initializer of the `net.saliman` package family. */
module SalimanClientHttpConfiguration {
  import opened Java
  import opened HttpAccessors
  import ClientHttpInterceptor
  import Props = RequestCorrelationProperties

  class ClientHttpCorrelationConfiguration {
    /** The client beans; the declared default is an empty list, and autowiring may replace it. */
    var clients: Option<seq<InterceptingHttpAccessor>>

    constructor ()
      ensures clients == Some([])
    {
      clients := Some([]);
    }

    method SetClients(clients: Option<seq<InterceptingHttpAccessor>>)
      modifies this
      ensures this.clients == clients
    {
      this.clients := clients;
    }

    function Clients(): seq<InterceptingHttpAccessor>
      reads this
    {
      if clients.Some? then clients.value else []
    }

    /** The `@Bean` method: it returns the initializer, which reads the client list only when run. */
    method ClientsCorrelationInitializer(properties: Props.RequestCorrelationProperties) returns (bean: CorrelationInitializer)
      ensures fresh(bean) && bean.configuration == this && bean.properties == properties
    {
      bean := new CorrelationInitializer(this, properties);
    }
  }

  /** The anonymous `InitializingBean` the configuration returns. */
  class CorrelationInitializer {
    const configuration: ClientHttpCorrelationConfiguration
    const properties: Props.RequestCorrelationProperties

    constructor (configuration: ClientHttpCorrelationConfiguration, properties: Props.RequestCorrelationProperties)
      ensures this.configuration == configuration && this.properties == properties
    {
      this.configuration := configuration;
      this.properties := properties;
    }

    /**
     * Null clients: nothing happens. Otherwise each client's list is copied, one new correlation
     * interceptor is appended and the copy is set back, which sorts it; a client listed `k` times
     * gets `k` of them, after its old entries in the comparator's order.
     */
    method AfterPropertiesSet()
      modifies set c | c in configuration.Clients()
      ensures forall c :: c in old(configuration.Clients()) ==>
                InitializedBy(old(c.interceptors), c.interceptors, multiset(old(configuration.Clients()))[c], properties)
    {
      if configuration.clients == None {
        return;
      }
      var clients := configuration.clients.value;
      var i := 0;
      while i < |clients|
        invariant 0 <= i <= |clients|
        invariant forall c :: c in clients ==> InitializedBy(old(c.interceptors), c.interceptors, multiset(clients[..i])[c], properties)
        modifies set c | c in clients
      {
        var client := clients[i];
        var interceptors := client.interceptors;
        var added := new ClientHttpInterceptor.ClientHttpRequestCorrelationInterceptor(properties);
        InitializeOnceMore(old(client.interceptors), interceptors, multiset(clients[..i])[client], properties, added);
        interceptors := interceptors + [Correlation(added)];
        label Before:
        client.SetInterceptors(interceptors);
        assert clients[..i + 1] == clients[..i] + [client];
        forall c | c in clients
          ensures InitializedBy(old(c.interceptors), c.interceptors, multiset(clients[..i + 1])[c], properties)
        {
          if c != client {
            assert c.interceptors == old@Before(c.interceptors);
            assert multiset(clients[..i + 1])[c] == multiset(clients[..i])[c];
          }
        }
        i := i + 1;
      }
      assert clients[..|clients|] == clients;
    }
  }
}
