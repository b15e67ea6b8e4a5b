# Cask webhook bridge, modelled in Dafny

The bridge listens for the subscription-lifecycle events of the Cask
subscriptions contract (created, plan changes, pause, resume, cancel, renewal,
trial end, past due). For each event it builds a JSON payload and posts it to the
webhook endpoint of the event's provider. This project models the deterministic
core of the `WebhookBridge` class in `src/WebhookBridge.js`:

- **Endpoint registry** (`Bridge.WebhookBridge`): the `endpointMap` table that
  `mapProviderToEndpoint` writes. `getProviderEndpoint` resolves a provider from
  that table first. It asks the key/value store only when the table entry is
  falsy (missing or the empty string) and a store is attached. The store's hash
  is a parameter of every lookup, `Store`, so it can change between lookups.
  A store that cannot be reached makes the lookup throw.
- **Start-up modes**: `runSingle` splits a comma-separated provider argument. It
  maps every piece, empty pieces included, to the one endpoint with a loop. It
  records `providerAddresses` as a list when there was a comma and as the bare
  string otherwise. `runMulti` attaches the store and takes `providerAddresses`
  from the store's keys: a bare string for exactly one key, a list otherwise.
- **Payload normaliser** (`Normalizer`): the `args` object each of the eleven
  `handleSubscription*` handlers builds, the `webhookPayload` record, and the
  listener wiring. The wiring is modelled as written. The SubscriptionChangedPlan
  listener calls the Created handler, so its payload has no `prevPlanId` and the
  ChangedPlan handler is never reached. No listener exists for
  SubscriptionChangedDiscount, so the ChangedDiscount handler is never reached
  either. The PendingCancel handler drops `cancelAt`.
- **Delivery decision** (`Delivery`): `sendWebhook` catches every exception. It
  sends nothing when the endpoint is falsy. Otherwise it posts once and
  classifies the reply: a status in [200, 400) is success, any other status is a
  remote error, and an exception is a sending error.

## Points where the code is easy to misread

- A table entry wins only when it is truthy. An entry holding the empty string
  falls through to the store, as a missing entry does.
- A store that cannot be reached makes the lookup throw. `sendWebhook` catches
  that exception, so it ends like any other failure, with a log line.
- `subscriptionId` goes through web3's `numberToHex` before it is sent. The
  payload never carries the raw integer.
- Ten listeners are installed for eleven events. The ChangedPlan and
  PendingCancel payloads lack `prevPlanId` and `cancelAt`.
- `providerAddresses` is a bare string when there is one address and a list
  otherwise. With one store key it is a bare string even though the store
  could hold more keys later.
- The code passes no reconnect option to `createAlchemyWeb3`. Whatever that
  library does on its own is not modelled.

## Model

| member | source | states |
|---|---|---|
| Js.Truthy | src/WebhookBridge.js:35 | the values `!endpoint` treats as missing are exactly nullish and the empty string |
| Js.Split | src/WebhookBridge.js:369 | `split(',')` yields at least one piece, and no piece holds a comma |
| Js.JoinSplit | src/WebhookBridge.js:369 | joining the pieces with commas gives back the original argument, so no character is lost, including empty pieces |
| Js.SplitJoin | src/WebhookBridge.js:369 | splitting a comma-join of comma-free pieces gives back exactly those pieces, in order |
| Js.SplitHasComma | src/WebhookBridge.js:368-369 | `includes(',')` holds exactly when the split has more than one piece; without a comma the split is the string alone |
| Normalizer.HandlerArgs | src/WebhookBridge.js:153-322 | every handler's args hold consumer, provider, ref and planId as given and subscriptionId as `numberToHex` of the raw id; `discountId` is present only for Created, ChangedPlan and ChangedDiscount; `prevPlanId` only for ChangedPlan and PendingChangePlan; no other field (no `cancelAt`) |
| Normalizer.WebhookPayload | src/WebhookBridge.js:324-335 | the payload passes name and args through, copies block number and hash into `block`, copies the transaction hash, and takes `chainId` from the configuration |
| Normalizer.HandlerPayload | src/WebhookBridge.js:154-165 | a handler's payload carries the event's own name, that handler's args (provider as given, subscriptionId through `numberToHex`), the event's block and transaction, and the configured chainId |
| Normalizer.ListenerFor | src/WebhookBridge.js:72-150 | SubscriptionChangedDiscount alone has no listener; SubscriptionChangedPlan goes to the Created handler; every other event goes to its namesake handler; the ChangedDiscount and ChangedPlan handlers are never reached |
| Normalizer.ListenedArgsMatchDeclaredFields | src/WebhookBridge.js:72-322 | for every listened event with well-formed return values, the args keys are the event's declared parameters minus `cancelAt`, and for ChangedPlan also minus `prevPlanId`; every value is defined |
| Normalizer.ChangedPlanPayloadLacksPrevPlanId | src/WebhookBridge.js:80-86 | a SubscriptionChangedPlan event yields a payload named SubscriptionChangedPlan with planId and discountId but without the prevPlanId the event carries |
| Normalizer.PayloadChainIsConfigured | src/WebhookBridge.js:324-335 | frame fact: the payload's chainId is the configured one, and building it for another chain changes that field and nothing else |
| Delivery.StoreGet | src/WebhookBridge.js:36 | the store's hGet gives the stored value, nullish for a missing field, and throws only when the store is unreachable |
| Delivery.Classify | src/WebhookBridge.js:348-357 | status in [200, 400) is success; any other status is a remote error carrying that status; a POST exception is a sending error |
| Delivery.Decide | src/WebhookBridge.js:337-359 | a lookup exception is caught; no POST exactly when the endpoint is falsy; otherwise one POST of the payload to that endpoint, with success exactly for [200, 400) |
| Bridge.MapAll | src/WebhookBridge.js:370-372 | after mapping a list of providers, the table's keys are the old keys plus the list; every listed provider maps to the endpoint; other entries are unchanged |
| Bridge.SingleAddresses | src/WebhookBridge.js:368-377 | `providerAddresses` is a bare string exactly when the argument has no comma, and it holds exactly the split pieces in order |
| Bridge.MultiAddresses | src/WebhookBridge.js:389-394 | `providerAddresses` is a bare string exactly when there is one key, and it holds exactly the keys, in the store's order, possibly none |
| Bridge.WebhookBridge.constructor | src/WebhookBridge.js:9-16 | a new bridge has an empty table, no store and no provider addresses |
| Bridge.WebhookBridge.MapProviderToEndpoint | src/WebhookBridge.js:29-31 | the table maps the provider to the endpoint, overwriting any earlier entry; every other entry is unchanged |
| Bridge.WebhookBridge.GetProviderEndpoint | src/WebhookBridge.js:33-39 | a truthy table entry is returned without asking the store; otherwise an attached store's value is returned; without a store the missing or empty entry is returned as is; only a store lookup can throw |
| Bridge.WebhookBridge.SendWebhook | src/WebhookBridge.js:337-359 | a POST happens exactly when the provider resolves to a truthy endpoint, goes to that endpoint with the payload, and a lookup error can only come from an attached store |
| Bridge.WebhookBridge.OnData | src/WebhookBridge.js:72-166 | nothing happens only for SubscriptionChangedDiscount; otherwise a POST happens exactly when the event's provider resolves, and its body has the event's own name, the listener's handler args, the event's block and transaction, and the configured chain |
| Bridge.WebhookBridge.RunSingle | src/WebhookBridge.js:365-377 | the table maps every split piece to the endpoint; `providerAddresses` is set as by SingleAddresses; every address it then holds resolves to a non-empty endpoint whatever the store holds |
| Bridge.WebhookBridge.RunMulti | src/WebhookBridge.js:382-394 | the store is attached; when its keys are read, `providerAddresses` is set as by MultiAddresses; a rejection leaves it unchanged |
| Bridge.SingleTenantExample | src/WebhookBridge.js:365-377 | with providers "0xAAA,0xBBB" and one endpoint, a SubscriptionCreated event for 0xAAA is posted once to that endpoint, named SubscriptionCreated, with provider 0xAAA |
| Bridge.MultiTenantExample | src/WebhookBridge.js:382-394 | with a store mapping only 0xCCC, `providerAddresses` is that key alone and a SubscriptionCanceled event for 0xDDD is not posted |

## Left out

- The Alchemy web3 websocket, contract construction and the `.on('data')` subscriptions (src/WebhookBridge.js:41-151) are network I/O. Events reach `OnData` as given. The node-side filtering by `providerAddresses` is not modelled.
- How the node reads the `{provider: providerAddresses}` filter is not modelled: an empty list, an empty address or a bare string versus a list. An empty list or an empty address may well match every provider rather than none.
- Reconnection: the only reconnect settings are commented out (src/WebhookBridge.js:44-55). The live code has none.
- The store client's lifecycle is network I/O: `createClient`, `connect`, the error handler and the real `hGet`/`hGetAll`. `enableRedis` is reduced to the `storeAttached` flag. The hash contents are a `Store` parameter of each lookup. The reply of `hGetAll` is the sequence of its keys or a rejection.
- The hash name (`REDIS_PROVIDER_MAP_KEY`, default `CaskProviderMap`) is an environment read. The model works on the one hash it names.
- The axios POST is HTTP I/O. Its reply is an `HttpReply` parameter. By default axios itself rejects non-2xx responses, which then reach the catch. That library behaviour is not modelled: the model classifies whatever reply reaches the status check.
- `axios.post` and `hGet` carry no timeout. A POST or lookup that never answers leaves `sendWebhook` pending, which the model does not represent: each is assumed to answer.
- `numberToHex` is a foreign library call. It is a function parameter with no properties assumed.
- `CaskSDK.defaultChains`, `abi` and `deployments` are foreign lookups. The chain id is a constructor parameter. An environment with no known chain, which crashes at the first `this.chain.chainId`, is not modelled.
- `verbose()` and every `console.log` are environment reads and logging with no behaviour to state.
- The handlers and `sendWebhook` run as un-awaited async callbacks. Their interleaving is not modelled; the model is sequential.
- The `args` object is a map. The insertion order of its keys in the serialised JSON is not modelled.
- `endpointMap` is a plain JavaScript object. Keys inherited from its prototype, such as `constructor` and `__proto__`, are not modelled.
- `runSingle` and `runMulti` end by calling `initWeb3` and logging. Only their effects on the table and on `providerAddresses` are modelled.
- `src/index.js` is process bootstrap, and its call does not match the class. It is not part of this model.
