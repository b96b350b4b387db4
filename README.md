# Apollo client bootstrap of instaclone-web-next, modelled in Dafny

`libs/apolloClient.ts` builds the GraphQL client of a Next.js application.
It does four things:

- It stamps every outgoing operation with an `x-jwt` header (the auth link).
- It means to route subscriptions to a graphql-ws WebSocket link and everything else to an HTTP link (the split link). The links are passed to `split` in swapped order, so as written the routing is the reverse (see Findings).
- It keeps one client per browser session but creates a client per call during server-side rendering (`initializeApollo`).
- It hands the server's cache snapshot to the browser under the page property `__APOLLO_STATE__`, where hydration merges it into the browser cache with a custom array policy.

The model has five modules:

- `JsonValues` (`json_values.dfy`): JSON values, snapshots and JavaScript truthiness.
- `CacheMerge` (`cache_merge.dfy`): the `arrayMerge` policy, the deep merge it is plugged into, and hydration.
- `AuthLink` (`auth_link.dfy`): the `x-jwt` header and the `useAuthInfo` projection it agrees with.
- `Transport` (`transport.dfy`): the split link, as written and as intended.
- `ApolloClient` (`apollo_client.dfy`): the cache, client and module state as classes; `initializeApollo`, `addApolloState`, `useApollo`; the path of one operation through the link chain; and whole sessions built from these.

The pure parts are functions with lemmas. The parts that assign module variables or mutate objects are class methods with `modifies` clauses:

- the module-level `apolloClient` and `cache`;
- `cache.restore`;
- the write into `pageProps.props`.

`deepmerge` is library code. It is modelled under an explicit assumption about its behaviour:

- Two arrays are combined by the `arrayMerge` option.
- Two objects are combined key by key, recursing on keys present in both.
- In every other case the incoming value wins. This is deepmerge's rule for a key whose incoming value is not a mergeable object. The top-level call (line 78) always receives two objects, so deepmerge's different handling of a scalar passed at the top level is never reached.

`lodash/isEqual` on JSON values is structural equality, which is `==` on the `Json` datatype. `cache.restore(data)` replaces the cache content with `data`, and `extract()` reads it.

The model follows the code in two places where a reader would expect per-request isolation or full de-duplication:

- **Shared cache.** Every client is built over the one module-level `cache` (lines 48 and 68). So the clients created per server-side call are distinct objects that share their cache. They are not isolated from each other. `ServerCreatesClientPerCall` proves that they share it.
- **No full de-duplication.** The array policy removes only existing elements that equal an incoming one. Duplicates inside the incoming array, or inside the existing one, are kept (`UnmatchedCounts`).

## Model

| member | source | states |
|---|---|---|
| `CacheMerge.Unmatched` | libs/apolloClient.ts:81 | definition of the `filter`/`every`/`!isEqual` step; its properties are stated by the `UnmatchedMembers`, `UnmatchedCounts`, `UnmatchedIsSubsequence` and `ArrayMergeLength` rows |
| `CacheMerge.ArrayMerge` | libs/apolloClient.ts:79-82 | definition of the `arrayMerge` callback; its properties are stated by the `ArrayMergeStartsWithIncoming`, `ArrayMergeTail`, `ArrayMergeLength`, `ArrayMergeIdempotent` and `ArrayMergeExample` rows |
| `CacheMerge.Hydrate` | libs/apolloClient.ts:76-85 | definition of the content `restore` receives, the existing snapshot merged with the incoming one; its properties are stated by the `HydrateKeepsExisting`, `HydrateIntoEmpty` and `HydrateIdempotent` rows |
| `CacheMerge.Hydrated` | libs/apolloClient.ts:75-86 | definition of the cache content after the hydration step: unchanged without a state, `Hydrate` with one; used by the `InitializeApollo` row |
| `CacheMerge.UnmatchedMembers` | libs/apolloClient.ts:81 | an element is kept by the filter iff it is an existing element that no incoming element structurally equals |
| `CacheMerge.ArrayMergeStartsWithIncoming` | libs/apolloClient.ts:79-80 | the merged array begins with the whole incoming array in its original order |
| `CacheMerge.ArrayMergeTail` | libs/apolloClient.ts:79-81 | an element is in the part after the incoming prefix iff it is an existing element with no equal incoming element; no element of that part equals an element of the prefix |
| `CacheMerge.UnmatchedCounts` | libs/apolloClient.ts:81 | each unmatched existing element is kept as often as it occurs, each matched one is dropped entirely (duplicates within the existing array survive) |
| `CacheMerge.UnmatchedIsSubsequence` | libs/apolloClient.ts:81 | the kept existing elements keep their relative order |
| `CacheMerge.ArrayMergeLength` | libs/apolloClient.ts:79-81 | the merged length is the incoming length plus the number of existing positions whose element no incoming element equals |
| `CacheMerge.ArrayMergeIdempotent` | libs/apolloClient.ts:79-82 | merging the same incoming array again leaves the merged array unchanged |
| `CacheMerge.ArrayMergeExample` | libs/apolloClient.ts:79-82 | existing `[{id:1,v:"a"},{id:2,v:"b"}]` with incoming `[{id:2,v:"b"},{id:3,v:"c"}]` gives `[{id:2,v:"b"},{id:3,v:"c"},{id:1,v:"a"}]` |
| `CacheMerge.Merge` | libs/apolloClient.ts:78-83 | merging two objects yields an object whose keys are the union of both |
| `CacheMerge.MergeSelf` | libs/apolloClient.ts:78-83 | merging a value into itself gives the value back |
| `CacheMerge.MergeIdempotent` | libs/apolloClient.ts:78-83 | deep-merging the same incoming value a second time changes nothing, at every depth |
| `CacheMerge.MergeCoversIncoming` | libs/apolloClient.ts:78-83 | hydration never loses incoming data: incoming scalars win, incoming arrays head the merged arrays, incoming properties are all present, recursively |
| `CacheMerge.HydrateKeepsExisting` | libs/apolloClient.ts:76-85 | no record disappears, and records the incoming snapshot does not mention are kept unchanged |
| `CacheMerge.HydrateIntoEmpty` | libs/apolloClient.ts:76-85 | hydrating an empty cache adopts the incoming snapshot verbatim |
| `CacheMerge.HydrateIdempotent` | libs/apolloClient.ts:75-85 | hydrating twice with the same snapshot equals hydrating once |
| `AuthLink.CacheToken` | libs/apolloClient.ts:52-56 | definition of `cacheToken`; its cases are stated by the `AuthHeaders` row |
| `AuthLink.ResolveToken` | libs/apolloClient.ts:60 | definition of line 60's choice of the override `token`, falling back to `cacheToken` when it is absent or empty; its cases are stated by the `AuthHeaders` and `ResolvedTokenIsTokenOrEmpty` rows |
| `AuthLink.AuthInfoOf` | apollo/queries/auth.query.ts:10-18 | definition of the `useAuthInfo` projection; related to the header by the `AuthHeaderAgreesWithAuthInfo` row |
| `AuthLink.AuthHeaders` | libs/apolloClient.ts:51-63 | all incoming headers are kept except `x-jwt`, which is set to the non-empty override token, else to a truthy `ROOT_QUERY.token`, else to `""`; it is defined for every input |
| `AuthLink.ResolvedTokenIsTokenOrEmpty` | libs/apolloClient.ts:52-60 | the `x-jwt` value is either a truthy token or exactly `""` |
| `AuthLink.AuthHeaderAgreesWithAuthInfo` | libs/apolloClient.ts:52-60 | without an override, `x-jwt` equals the token of the `useAuthInfo` projection (apollo/queries/auth.query.ts), which is `""` when `ROOT_QUERY` is absent |
| `AuthLink.HeaderFollowsCache` | libs/apolloClient.ts:51-56 | without an override, two cache states with different `ROOT_QUERY` tokens give different `x-jwt` headers |
| `Transport.Route` | libs/apolloClient.ts:38-45 | definition of Apollo's `split` dispatch (the first link when the test holds); its outcomes are stated by the three `Transport` lemma rows |
| `Transport.SplitLink` | libs/apolloClient.ts:36-46 | definition of `splitLink` with the `split` arguments in the intended order; its routing is stated by the `SplitLinkRoutes` row |
| `Transport.SplitLinkAsWritten` | libs/apolloClient.ts:36-46 | definition of `splitLink` as written; its routing is stated by the `SplitLinkAsWrittenSwapsTransports` and `SplitLinkAsWrittenMisroutes` rows |
| `Transport.SplitLinkRoutes` | libs/apolloClient.ts:36-46 | with the intended argument order, an operation reaches the WebSocket link iff a window exists and its main definition is a subscription; without a window everything goes over HTTP |
| `Transport.SplitLinkAsWrittenSwapsTransports` | libs/apolloClient.ts:36-46 | as written, an operation reaches the WebSocket link iff a window exists and it is NOT a subscription |
| `Transport.SplitLinkAsWrittenMisroutes` | libs/apolloClient.ts:38-45 | as written, a browser subscription goes over HTTP and a browser query over the WebSocket |
| `ApolloClient.Dispatch` | libs/apolloClient.ts:51-67 | one operation through the chain, with the `split` arguments in the intended order (see Findings): every incoming header other than `x-jwt` is kept with its value, and `x-jwt` holds the token resolved from the cache as it is at that moment; it reaches the WebSocket iff the client is not in SSR mode and it is a subscription |
| `ApolloClient.InMemoryCache.Extract` | libs/apolloClient.ts:76 | `extract()` returns the current cache content |
| `ApolloClient.InMemoryCache.Restore` | libs/apolloClient.ts:85 | `restore(data)` replaces the cache content with `data` |
| `ApolloClient.Client.constructor` | libs/apolloClient.ts:65-69 | the client holds the given override token, the given cache and the given SSR mode |
| `ApolloClient.ApolloModule.constructor` | libs/apolloClient.ts:13-48 | the module starts with no stored client and one empty cache |
| `ApolloClient.ApolloModule.CreateApolloClient` | libs/apolloClient.ts:50-70 | a new client that captures the given token, uses the module's shared cache and is in SSR mode iff there is no window |
| `ApolloClient.ApolloModule.InitializeApollo` | libs/apolloClient.ts:72-91 | reuses the stored client if there is one, else creates one with the given token; hydrates the cache iff a state is given, otherwise leaves it unchanged; stores the client iff a window exists and never replaces a stored one |
| `ApolloClient.ApolloModule.UseApollo` | libs/apolloClient.ts:101-105 | initialises with the snapshot found under `__APOLLO_STATE__` (none if absent) and no token |
| `ApolloClient.AddApolloState` | libs/apolloClient.ts:93-99 | when `pageProps.props` exists, sets its `__APOLLO_STATE__` to the cache content and changes nothing else; always returns the same `pageProps` |
| `ApolloClient.WithApolloState` | libs/apolloClient.ts:95 | definition of the props after the snapshot is written under `__APOLLO_STATE__`; its properties are stated by the `ApolloStateRoundTrip` and `AddApolloState` rows |
| `ApolloClient.ApolloStateOf` | libs/apolloClient.ts:102 | definition of the lookup of `__APOLLO_STATE__` as `initializeApollo` receives it; its properties are stated by the `ApolloStateRoundTrip` and `UseApollo` rows |
| `ApolloClient.ApolloStateRoundTrip` | libs/apolloClient.ts:93-104 | reading `__APOLLO_STATE__` after writing a snapshot there yields that snapshot; other properties are untouched |
| `ApolloClient.BrowserReusesFirstClient` | libs/apolloClient.ts:72-91 | with a window, two calls return the same instance, carrying the first call's token, with the cache hydrated by both states in turn |
| `ApolloClient.ServerCreatesClientPerCall` | libs/apolloClient.ts:48-91 | without a window, two calls return distinct clients with their own tokens that share one cache |
| `ApolloClient.ServerStateReachesBrowser` | libs/apolloClient.ts:72-105 | a server cache written by `addApolloState` and read by `useApollo` in a freshly loaded browser module becomes exactly the browser cache's content |
| `ApolloClient.TokenReadPerOperation` | libs/apolloClient.ts:51-63 | a stored browser client stamps each operation with the cache token current at that operation, without being recreated |

## Left out

- The error link (libs/apolloClient.ts:15-21) only writes to the console, so it is not modelled. The chain treats it as a pass-through.
- The construction of `HttpLink`, `GraphQLWsLink` and the graphql-ws client is not modelled. The endpoint URLs and the network transports themselves are not modelled either. A transport is a tag.
- `getMainDefinition` is not modelled. An operation carries its main definition directly.
- The `from`/`concat` link machinery is not modelled. `Dispatch` composes the auth and split steps directly.
- Floating point is not modelled. JSON numbers are integers.
- Object key order is not modelled: an object is a map.
- The cloning done by `deepmerge` has no counterpart, because values have no identity in the model.
- `deepmerge`'s guard against prototype keys (such as `__proto__`) is not modelled.
- `deepmerge`'s treatment of non-plain objects (such as `Date`) is not modelled.
- ApolloModule.InitializeApollo: `initialState` is either a snapshot object or nothing. A truthy state that is not an object is not modelled. `deepmerge` would merge such a state by its own rules.
- ApolloClient.ApolloStateOf: a value under `__APOLLO_STATE__` that is not an object is read as no state.
- ApolloModule.UseApollo: React's `useMemo` (line 103) is not modelled. The model keeps only the property lookup and the call to `initializeApollo`.
- AuthLink.AuthInfoOf: Apollo's rule that a query with a missing `@client` field returns no data at all is not modelled. Each field is read on its own, with the defaults of apollo/queries/auth.query.ts:14-17.
- The authLink reads `cache.data.data`, which is Apollo's root entity store. The model reads the cache content, ignoring optimistic layers.
- components/Layout/LoggedIn/index.tsx is not part of this model. It is UI that redirects when `isLoggedIn` is false.
- Concurrency and interleaving of operations in flight are not modelled. Each method runs atomically.

## Findings

| source | as written | input that shows it | evidently intended | confidence | as-written member | corrected member |
|---|---|---|---|---|---|---|
| libs/apolloClient.ts:38-45 | `split(isSubscription, httpLink, wsLink)`: Apollo's `split` sends an operation to its second argument when the test holds, so subscriptions go to `httpLink` and queries and mutations to `wsLink` | in the browser (a window exists), an operation whose main definition is a `subscription` is routed to HTTP, and a `query` is routed to the WebSocket | `split(isSubscription, wsLink, httpLink)`: subscriptions over the WebSocket, everything else over HTTP | high; not executed; rests on Apollo's documented `split(test, left, right)` semantics | `Transport.SplitLinkAsWritten` with `Transport.SplitLinkAsWrittenMisroutes` | `Transport.SplitLink` with `Transport.SplitLinkRoutes` (used by `ApolloClient.Dispatch`) |
