/** The `authLink` of `createApolloClient` (libs/apolloClient.ts:51-63): before
    each operation it stamps the outgoing `x-jwt` header with the override
    token given at client creation, or else with the token kept in the cache's
    `ROOT_QUERY` record, or else with the empty string. */
module AuthLink {
  import opened JsonValues

  const RootQuery := "ROOT_QUERY"
  const TokenField := "token"
  const LoggedInField := "isLoggedIn"
  const JwtHeader := "x-jwt"

  /** Request headers. A header value is whatever JSON value was put there. */
  type Headers = map<string, Json>

  /** `cacheToken` (lines 52-56): `ROOT_QUERY?.token || ''` when the
      `ROOT_QUERY` record is truthy, `''` otherwise. */
  function CacheToken(data: Snapshot): Json
  {
    if RootQuery in data && Truthy(data[RootQuery]) then
      OrElse(Property(data[RootQuery], TokenField), Str(""))
    else
      Str("")
  }

  /** `token || cacheToken` (line 60), where the override `token` may be absent. */
  function ResolveToken(token: Option<string>, data: Snapshot): Json
  {
    if token.Some? && token.value != "" then Str(token.value) else CacheToken(data)
  }

  /** The override token is absent or empty, so the cache decides. */
  predicate NoOverride(token: Option<string>)
  {
    token.None? || token.value == ""
  }

  /** The `ROOT_QUERY` record is an object whose `token` field is truthy. */
  predicate HasCachedToken(data: Snapshot)
  {
    RootQuery in data && data[RootQuery].Obj? && TokenField in data[RootQuery].fields
    && Truthy(data[RootQuery].fields[TokenField])
  }

  /** The headers `authLink` returns (lines 57-62): every incoming header kept,
      and `x-jwt` set (or overwritten) with the resolved token. */
  function AuthHeaders(headers: Headers, token: Option<string>, data: Snapshot): (r: Headers)
    ensures r.Keys == headers.Keys + {JwtHeader}
    ensures forall k :: k in headers && k != JwtHeader ==> r[k] == headers[k]
    ensures !NoOverride(token) ==> r[JwtHeader] == Str(token.value)
    ensures NoOverride(token) && HasCachedToken(data) ==> r[JwtHeader] == data[RootQuery].fields[TokenField]
    ensures NoOverride(token) && !HasCachedToken(data) ==> r[JwtHeader] == Str("")
  {
    headers[JwtHeader := ResolveToken(token, data)]
  }

  /** The resolved token is never a falsy value other than `""`: the header is
      always a non-empty token or exactly the empty string. */
  lemma ResolvedTokenIsTokenOrEmpty(token: Option<string>, data: Snapshot)
    ensures Truthy(ResolveToken(token, data)) || ResolveToken(token, data) == Str("")
  {
  }

  /** `IAuthInfo` as `useAuthInfo` projects it (apollo/queries/auth.query.ts:14-17):
      `isLoggedIn: !!data?.isLoggedIn`, `token: data?.token || ""`. */
  datatype AuthInfo = AuthInfo(isLoggedIn: bool, token: Json)

  /** The projection read from the `ROOT_QUERY` record; `{false, ""}` when the
      record is absent or not an object. */
  function AuthInfoOf(data: Snapshot): AuthInfo
  {
    if RootQuery in data && data[RootQuery].Obj? then
      var root := data[RootQuery];
      AuthInfo(
        Property(root, LoggedInField).Some? && Truthy(root.fields[LoggedInField]),
        OrElse(Property(root, TokenField), Str("")))
    else
      AuthInfo(false, Str(""))
  }

  /** Without an override token, the token sent in `x-jwt` is the token the
      application reads through `useAuthInfo`: what the UI believes the session
      token is, is what the server receives. */
  lemma AuthHeaderAgreesWithAuthInfo(headers: Headers, token: Option<string>, data: Snapshot)
    requires NoOverride(token)
    ensures AuthHeaders(headers, token, data)[JwtHeader] == AuthInfoOf(data).token
  {
  }

  /** The header is recomputed from the cache on every operation: two cache
      states whose `ROOT_QUERY` tokens differ give different headers when no
      override token was supplied. */
  lemma HeaderFollowsCache(headers: Headers, token: Option<string>, before: Snapshot, after: Snapshot)
    requires NoOverride(token) && HasCachedToken(before) && HasCachedToken(after)
    requires before[RootQuery].fields[TokenField] != after[RootQuery].fields[TokenField]
    ensures AuthHeaders(headers, token, before)[JwtHeader] != AuthHeaders(headers, token, after)[JwtHeader]
  {
  }
}
