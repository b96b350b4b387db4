/** The client lifecycle of libs/apolloClient.ts: the module-level `cache` and
    `apolloClient` variables, `createApolloClient`, `initializeApollo`,
    `addApolloState` and the state lookup of `useApollo`, and the path an
    operation takes through a client's link chain. */
module ApolloClient {
  import opened JsonValues
  import opened CacheMerge
  import opened AuthLink
  import opened Transport

  /** `APOLLO_STATE_PROP_NAME` (line 11): the page property carrying the snapshot. */
  const ApolloStatePropName := "__APOLLO_STATE__"

  /** An `InMemoryCache`: `extract` reads its content, `restore` replaces it. */
  class InMemoryCache {
    var data: Snapshot

    constructor ()
      ensures data == map[]
    {
      data := map[];
    }

    method Extract() returns (snapshot: Snapshot)
      ensures snapshot == data
    {
      snapshot := data;
    }

    method Restore(snapshot: Snapshot)
      modifies this
      ensures data == snapshot
    {
      data := snapshot;
    }
  }

  /** An `ApolloClient`: the override token its `authLink` captured, the cache
      it was given and whether it runs in server-side rendering mode. */
  class Client {
    const token: Option<string>
    const cache: InMemoryCache
    const ssrMode: bool

    constructor (token: Option<string>, cache: InMemoryCache, ssrMode: bool)
      ensures this.token == token && this.cache == cache && this.ssrMode == ssrMode
    {
      this.token := token;
      this.cache := cache;
      this.ssrMode := ssrMode;
    }
  }

  /** An operation as it enters the link chain. */
  datatype Operation = Operation(definition: Definition, headers: Headers)

  /** What reaches a transport: the chosen transport and the outgoing headers. */
  datatype Request = Request(transport: Transport, headers: Headers)

  /** `from([errorLink, authLink.concat(splitLink)])` (line 67) applied to one
      operation: the headers are stamped from the cache as it is now, then
      the split link picks the transport. The split link is `SplitLink`, with
      the arguments of `split` in the intended order; the order as written is
      `SplitLinkAsWritten`. The error link only observes. */
  function Dispatch(client: Client, op: Operation): (req: Request)
    reads client.cache
    ensures req.transport == WebSocket <==> !client.ssrMode && IsSubscription(op.definition)
    ensures req.headers.Keys == op.headers.Keys + {JwtHeader}
    ensures forall k :: k in op.headers && k != JwtHeader ==> req.headers[k] == op.headers[k]
    ensures req.headers[JwtHeader] == ResolveToken(client.token, client.cache.data)
  {
    SplitLinkRoutes(!client.ssrMode, op.definition);
    Request(Route(SplitLink(!client.ssrMode), op.definition),
            AuthHeaders(op.headers, client.token, client.cache.data))
  }

  /** The state of the module: whether `window` exists, the one `cache` every
      client is built with (line 48), and the stored `apolloClient` (line 13). */
  class ApolloModule {
    const hasWindow: bool
    const cache: InMemoryCache
    var apolloClient: Client?

    /** A client is stored only in the browser, and it is built over the
        module's cache in browser mode. */
    ghost predicate Valid()
      reads this
    {
      (!hasWindow ==> apolloClient == null)
      && (apolloClient != null ==> apolloClient.cache == cache && !apolloClient.ssrMode)
    }

    /** The module as it is loaded: an empty cache and no client. */
    constructor (hasWindow: bool)
      ensures Valid() && this.hasWindow == hasWindow
      ensures apolloClient == null && fresh(cache) && cache.data == map[]
    {
      this.hasWindow := hasWindow;
      cache := new InMemoryCache();
      apolloClient := null;
    }

    /** `createApolloClient(token)` (lines 50-70): a new client over the shared cache. */
    method CreateApolloClient(token: Option<string>) returns (client: Client)
      ensures fresh(client)
      ensures client.token == token && client.cache == cache && client.ssrMode == !hasWindow
    {
      client := new Client(token, cache, !hasWindow);
    }

    /** `initializeApollo(initialState, token)` (lines 72-91). */
    method InitializeApollo(initialState: Option<Snapshot>, token: Option<string>) returns (client: Client)
      requires Valid()
      modifies this, cache
      ensures Valid()
      ensures old(apolloClient) != null ==> client == old(apolloClient)
      ensures old(apolloClient) == null ==> fresh(client) && client.token == token
      ensures client.cache == cache && client.ssrMode == !hasWindow
      ensures cache.data == Hydrated(old(cache.data), initialState)
      ensures apolloClient == (if hasWindow then client else null)
      ensures old(apolloClient) != null ==> apolloClient == old(apolloClient)
    {
      if apolloClient != null {
        client := apolloClient;
      } else {
        client := CreateApolloClient(token);
      }
      if initialState.Some? {
        var existingCache := client.cache.Extract();
        var data := Hydrate(existingCache, initialState.value);
        client.cache.Restore(data);
      }
      if !hasWindow {
        return;
      }
      if apolloClient == null {
        apolloClient := client;
      }
    }

    /** `useApollo(pageProps)` (lines 101-105) without the memoisation:
        initialise from the state found under `__APOLLO_STATE__`. Next.js
        hands the `props` object returned by `getServerSideProps` to the
        application as `pageProps`, so `addApolloState` writes into a
        `PageProps` while `useApollo` reads the `Props` inside it. */
    method UseApollo(pageProps: Props) returns (client: Client)
      requires Valid()
      modifies this, cache
      ensures Valid()
      ensures old(apolloClient) != null ==> client == old(apolloClient)
      ensures old(apolloClient) == null ==> fresh(client) && client.token == None
      ensures client.cache == cache
      ensures cache.data == Hydrated(old(cache.data), ApolloStateOf(pageProps.entries))
      ensures apolloClient == (if hasWindow then client else null)
    {
      var state := ApolloStateOf(pageProps.entries);
      client := InitializeApollo(state, None);
    }
  }

  /** A page's props object. */
  class Props {
    var entries: map<string, Json>

    constructor (entries: map<string, Json>)
      ensures this.entries == entries
    {
      this.entries := entries;
    }
  }

  /** What `getServerSideProps` returns: an object that may carry `props`. */
  class PageProps {
    var props: Props?

    constructor (props: Props?)
      ensures this.props == props
    {
      this.props := props;
    }
  }

  /** The props after the snapshot is written under `__APOLLO_STATE__` (line 95). */
  function WithApolloState(entries: map<string, Json>, snapshot: Snapshot): map<string, Json>
  {
    entries[ApolloStatePropName := Obj(snapshot)]
  }

  /** `pageProps[APOLLO_STATE_PROP_NAME]` (line 102) as `initializeApollo`
      receives it: a snapshot object, or nothing. */
  function ApolloStateOf(entries: map<string, Json>): Option<Snapshot>
  {
    if ApolloStatePropName in entries && entries[ApolloStatePropName].Obj? then
      Some(entries[ApolloStatePropName].fields)
    else
      None
  }

  /** Reading the state back after writing it yields the written snapshot,
      and writing it touches no other property. */
  lemma ApolloStateRoundTrip(entries: map<string, Json>, snapshot: Snapshot)
    ensures ApolloStateOf(WithApolloState(entries, snapshot)) == Some(snapshot)
    ensures forall k :: k in entries && k != ApolloStatePropName ==> WithApolloState(entries, snapshot)[k] == entries[k]
  {
  }

  /** `addApolloState(client, pageProps)` (lines 93-99). */
  method AddApolloState(client: Client, pageProps: PageProps?) returns (result: PageProps?)
    modifies if pageProps != null && pageProps.props != null then {pageProps.props} else {}
    ensures result == pageProps
    ensures pageProps != null && pageProps.props != null ==>
      pageProps.props.entries == WithApolloState(old(pageProps.props.entries), client.cache.data)
  {
    if pageProps != null && pageProps.props != null {
      var snapshot := client.cache.Extract();
      pageProps.props.entries := WithApolloState(pageProps.props.entries, snapshot);
    }
    result := pageProps;
  }

  // ---------------------------------------------------------------------------
  // Sessions

  /** In the browser the first call creates and stores the client; a later
      call, even with another token, returns that same client, whose token is
      still the first one, and hydrates the shared cache again. */
  method BrowserReusesFirstClient(t1: Option<string>, t2: Option<string>, s1: Option<Snapshot>, s2: Option<Snapshot>)
    returns (c1: Client, c2: Client)
    ensures c1 == c2 && c2.token == t1 && !c2.ssrMode
    ensures c2.cache.data == Hydrated(Hydrated(map[], s1), s2)
  {
    var browser := new ApolloModule(true);
    c1 := browser.InitializeApollo(s1, t1);
    c2 := browser.InitializeApollo(s2, t2);
  }

  /** On the server every call creates a new client and nothing is stored,
      but all those clients share the module's one cache: they are not
      isolated from each other. */
  method ServerCreatesClientPerCall(t1: Option<string>, t2: Option<string>, s1: Option<Snapshot>)
    returns (c1: Client, c2: Client)
    ensures c1 != c2 && c1.token == t1 && c2.token == t2 && c1.ssrMode && c2.ssrMode
    ensures c1.cache == c2.cache
    ensures c2.cache.data == Hydrated(map[], s1)
  {
    var server := new ApolloModule(false);
    c1 := server.InitializeApollo(s1, t1);
    c2 := server.InitializeApollo(None, t2);
  }

  /** Server-side rendering hands the cache to the browser: the server writes
      its cache under `__APOLLO_STATE__`, and a freshly loaded browser module
      reading those props ends up with exactly the server's cache content. */
  method ServerStateReachesBrowser(serverData: Snapshot) returns (browserClient: Client)
    ensures browserClient.cache.data == serverData
  {
    var server := new ApolloModule(false);
    var serverClient := server.InitializeApollo(None, None);
    serverClient.cache.Restore(serverData);
    var props := new Props(map[]);
    var page := new PageProps(props);
    page := AddApolloState(serverClient, page);
    ApolloStateRoundTrip(map[], serverData);
    var browser := new ApolloModule(true);
    browserClient := browser.UseApollo(props);
    HydrateIntoEmpty(serverData);
  }

  /** Each operation reads the cache when it is sent: after the cache token
      changes, the same browser client stamps the new token without being
      recreated. */
  method TokenReadPerOperation(op: Operation, before: Snapshot, after: Snapshot)
    returns (r1: Request, r2: Request)
    requires HasCachedToken(before) && HasCachedToken(after)
    ensures JwtHeader in r1.headers && JwtHeader in r2.headers
    ensures r1.headers[JwtHeader] == before[RootQuery].fields[TokenField]
    ensures r2.headers[JwtHeader] == after[RootQuery].fields[TokenField]
  {
    var browser := new ApolloModule(true);
    var client := browser.InitializeApollo(Some(before), None);
    HydrateIntoEmpty(before);
    r1 := Dispatch(client, op);
    client.cache.Restore(after);
    var same := browser.InitializeApollo(None, Some("ignored"));
    assert same == client;
    r2 := Dispatch(same, op);
  }
}
