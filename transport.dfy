/** Transport routing (libs/apolloClient.ts:27-46): the `split` link that sends
    an operation either to the HTTP link or to the graphql-ws WebSocket link.

    Apollo's `split(test, left, right)` hands the operation to `left` when
    `test` holds and to `right` otherwise. The source passes `httpLink` as
    `left` and `wsLink` as `right`, so as written subscriptions go to HTTP
    and every other operation to the WebSocket link. `SplitLinkAsWritten`
    models that; `SplitLink` is the intended routing, used by the rest of
    the model. */
module Transport {

  datatype OperationType = Query | Mutation | Subscription

  /** The main definition of an operation's document, as `getMainDefinition`
      returns it. */
  datatype Definition = OperationDefinition(operation: OperationType) | FragmentDefinition

  datatype Transport = Http | WebSocket

  /** A terminating link, or a `split` on the subscription test. */
  datatype Link = Terminating(transport: Transport) | Split(left: Link, right: Link)

  /** The `split` test (lines 39-42). */
  predicate IsSubscription(definition: Definition)
  {
    definition.OperationDefinition? && definition.operation == Subscription
  }

  /** Where a link delivers an operation: `split` chooses `left` when the test holds. */
  function Route(link: Link, definition: Definition): Transport
  {
    match link
    case Terminating(t) => t
    case Split(left, right) =>
      if IsSubscription(definition) then Route(left, definition) else Route(right, definition)
  }

  /** `splitLink` as written (lines 36-46). `wsLink` exists exactly when a
      `window` exists (lines 27-34), so the `wsLink != null` test adds nothing. */
  function SplitLinkAsWritten(hasWindow: bool): Link
  {
    if hasWindow then Split(Terminating(Http), Terminating(WebSocket)) else Terminating(Http)
  }

  /** `splitLink` with the arguments of `split` in the intended order. */
  function SplitLink(hasWindow: bool): Link
  {
    if hasWindow then Split(Terminating(WebSocket), Terminating(Http)) else Terminating(Http)
  }

  /** Intended routing: the WebSocket link gets an operation iff a window
      exists and its main definition is a subscription; everything else, and
      everything when there is no window, goes over HTTP. */
  lemma SplitLinkRoutes(hasWindow: bool, definition: Definition)
    ensures Route(SplitLink(hasWindow), definition) == WebSocket <==> hasWindow && IsSubscription(definition)
    ensures !hasWindow ==> Route(SplitLink(hasWindow), definition) == Http
  {
  }

  /** As written, the two transports are swapped whenever a window exists. */
  lemma SplitLinkAsWrittenSwapsTransports(hasWindow: bool, definition: Definition)
    ensures Route(SplitLinkAsWritten(hasWindow), definition) == WebSocket
            <==> hasWindow && !IsSubscription(definition)
  {
  }

  /** The input that shows it: in the browser a subscription is sent over HTTP
      and a query over the WebSocket. */
  lemma SplitLinkAsWrittenMisroutes()
    ensures Route(SplitLinkAsWritten(true), OperationDefinition(Subscription)) == Http
    ensures Route(SplitLinkAsWritten(true), OperationDefinition(Query)) == WebSocket
    ensures Route(SplitLink(true), OperationDefinition(Subscription)) == WebSocket
  {
  }
}
