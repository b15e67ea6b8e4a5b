/** The delivery decision of `sendWebhook`: what the key/value store answers for a
    provider, what the HTTP POST answers, and what the bridge does with both. */
module Delivery {
  import opened Js
  import opened Normalizer

  /** The provider-to-endpoint hash held by the key/value store at the moment of a
      lookup, or a store that cannot be reached (the lookup rejects). */
  datatype Store = Reachable(hash: map<string, string>) | Unreachable

  /** What resolving a provider gives: a string-or-nullish endpoint, or an exception. */
  datatype Lookup = Endpoint(value: JsValue) | LookupThrew

  /** What the HTTP POST gives: a response with a status, or an exception
      (network, timeout, DNS). */
  datatype HttpReply = Response(status: int) | PostThrew

  /** How a POST that was sent ended, as the bridge classifies it. */
  datatype PostResult = Success(status: int) | RemoteError(status: int) | SendError

  /** Everything `sendWebhook` can end in once the lookup and the POST have
      answered. None of them is an exception: the operation never throws. */
  datatype Outcome =
    | NoEndpoint
    | LookupError
    | Posted(endpoint: string, body: Payload, result: PostResult)

  /** The store's `hGet` of one provider field: its value, nullish when the field
      is not there, an exception when the store cannot be reached. */
  function StoreGet(store: Store, provider: string): (r: Lookup)
    ensures r.LookupThrew? <==> store.Unreachable?
    ensures store.Reachable? && provider in store.hash ==> r == Endpoint(Str(store.hash[provider]))
    ensures store.Reachable? && provider !in store.hash ==> r == Endpoint(Nullish)
  {
    match store
    case Unreachable => LookupThrew
    case Reachable(hash) => Endpoint(if provider in hash then Str(hash[provider]) else Nullish)
  }

  /** The classification of a POST's outcome: a status in [200, 400) is success,
      every other status is an error from the remote endpoint, and an exception is
      caught as a sending error. */
  function Classify(reply: HttpReply): (r: PostResult)
    ensures r.Success? <==> reply.Response? && 200 <= reply.status < 400
    ensures r.RemoteError? <==> reply.Response? && (reply.status < 200 || reply.status >= 400)
    ensures r.SendError? <==> reply.PostThrew?
    ensures reply.Response? ==> r.status == reply.status
  {
    match reply
    case PostThrew => SendError
    case Response(status) =>
      if status >= 200 && status < 400 then Success(status) else RemoteError(status)
  }

  /** `sendWebhook` once the endpoint lookup and the POST have answered: a lookup
      exception is caught, a falsy endpoint means no POST at all, and otherwise the
      payload is posted once to that endpoint and the reply classified. */
  function Decide(lookup: Lookup, payload: Payload, reply: HttpReply): (d: Outcome)
    ensures d.LookupError? <==> lookup.LookupThrew?
    ensures d.NoEndpoint? <==> lookup.Endpoint? && !Truthy(lookup.value)
    ensures d.Posted? <==> lookup.Endpoint? && Truthy(lookup.value)
    ensures d.Posted? ==> lookup.value == Str(d.endpoint) && d.endpoint != ""
    ensures d.Posted? ==> d.body == payload
    ensures d.Posted? ==> (d.result.Success? <==> reply.Response? && 200 <= reply.status < 400)
    ensures d.Posted? ==> (d.result.SendError? <==> reply.PostThrew?)
  {
    match lookup
    case LookupThrew => LookupError
    case Endpoint(v) =>
      if !Truthy(v) then NoEndpoint else Posted(v.s, payload, Classify(reply))
  }
}
