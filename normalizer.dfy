/** The payload normaliser of WebhookBridge: the eleven subscription-lifecycle
    events, the eleven `handleSubscription*` handlers and the `args` object each
    one builds, the listener that routes each event to a handler, and the fixed
    webhook record of `webhookPayload`. */
module Normalizer {
  import opened Js

  /** The subscription-lifecycle events emitted by the subscriptions contract. */
  datatype EventKind =
    | SubscriptionCreated
    | SubscriptionChangedPlan
    | SubscriptionPendingChangePlan
    | SubscriptionChangedDiscount
    | SubscriptionPaused
    | SubscriptionResumed
    | SubscriptionPendingCancel
    | SubscriptionCanceled
    | SubscriptionRenewed
    | SubscriptionTrialEnded
    | SubscriptionPastDue

  /** The name under which the contract emits an event (the `event` field of a decoded log). */
  function EventName(k: EventKind): string {
    match k
    case SubscriptionCreated => "SubscriptionCreated"
    case SubscriptionChangedPlan => "SubscriptionChangedPlan"
    case SubscriptionPendingChangePlan => "SubscriptionPendingChangePlan"
    case SubscriptionChangedDiscount => "SubscriptionChangedDiscount"
    case SubscriptionPaused => "SubscriptionPaused"
    case SubscriptionResumed => "SubscriptionResumed"
    case SubscriptionPendingCancel => "SubscriptionPendingCancel"
    case SubscriptionCanceled => "SubscriptionCanceled"
    case SubscriptionRenewed => "SubscriptionRenewed"
    case SubscriptionTrialEnded => "SubscriptionTrialEnded"
    case SubscriptionPastDue => "SubscriptionPastDue"
  }

  /** The eleven `handleSubscription*` methods of the bridge. */
  datatype Handler =
    | HandleCreated
    | HandleChangedPlan
    | HandlePendingChangePlan
    | HandleChangedDiscount
    | HandlePaused
    | HandleResumed
    | HandlePendingCancel
    | HandleCanceled
    | HandleRenewed
    | HandleTrialEnded
    | HandlePastDue

  /** The handler named after an event. */
  function Namesake(k: EventKind): Handler {
    match k
    case SubscriptionCreated => HandleCreated
    case SubscriptionChangedPlan => HandleChangedPlan
    case SubscriptionPendingChangePlan => HandlePendingChangePlan
    case SubscriptionChangedDiscount => HandleChangedDiscount
    case SubscriptionPaused => HandlePaused
    case SubscriptionResumed => HandleResumed
    case SubscriptionPendingCancel => HandlePendingCancel
    case SubscriptionCanceled => HandleCanceled
    case SubscriptionRenewed => HandleRenewed
    case SubscriptionTrialEnded => HandleTrialEnded
    case SubscriptionPastDue => HandlePastDue
  }

  /** The decoded `returnValues` of an event. Every event carries the first five;
      `discountId`, `prevPlanId` and `cancelAt` are `undefined` on events that do not
      declare them. `subscriptionId` is the raw unsigned integer. */
  datatype ReturnValues = ReturnValues(
    consumer: string,
    provider: string,
    subscriptionId: nat,
    ref: string,
    planId: string,
    discountId: JsValue,
    prevPlanId: JsValue,
    cancelAt: JsValue)

  /** A decoded contract event as the listener receives it. */
  datatype ChainEvent = ChainEvent(
    event: string,
    returnValues: ReturnValues,
    blockNumber: nat,
    blockHash: string,
    transactionHash: string)

  /** The `args` object of a payload, as a JavaScript object: field name to value. */
  type Args = map<string, JsValue>

  datatype Block = Block(number: nat, hash: string)

  /** The record posted to a webhook endpoint. */
  datatype Payload = Payload(
    event: string,
    args: Args,
    block: Block,
    transactionHash: string,
    chainId: int)

  /** The parameters the subscriptions contract declares for each event. */
  function DeclaredFields(k: EventKind): set<string> {
    var common := {"consumer", "provider", "subscriptionId", "ref", "planId"};
    match k
    case SubscriptionCreated | SubscriptionChangedDiscount => common + {"discountId"}
    case SubscriptionChangedPlan => common + {"prevPlanId", "discountId"}
    case SubscriptionPendingChangePlan => common + {"prevPlanId"}
    case SubscriptionPendingCancel => common + {"cancelAt"}
    case SubscriptionPaused | SubscriptionResumed | SubscriptionCanceled
      | SubscriptionRenewed | SubscriptionTrialEnded | SubscriptionPastDue => common
  }

  /** The return values of an event of kind `k` hold a value for each optional
      parameter `k` declares and nothing for the others. */
  predicate Decoded(k: EventKind, rv: ReturnValues) {
    && (rv.discountId.Str? <==> "discountId" in DeclaredFields(k))
    && (rv.prevPlanId.Str? <==> "prevPlanId" in DeclaredFields(k))
    && (rv.cancelAt.Str? <==> "cancelAt" in DeclaredFields(k))
  }

  /** The `args` object literal a handler builds from an event's return values.
      Every handler carries consumer, provider, ref and planId as they are and
      the subscription id through `numberToHex`; the handlers differ only in
      whether they add `discountId` and `prevPlanId`, and none carries `cancelAt`. */
  function HandlerArgs(h: Handler, rv: ReturnValues, numberToHex: nat -> string): (args: Args)
    ensures args.Keys <= {"consumer", "provider", "subscriptionId", "ref", "planId", "discountId", "prevPlanId"}
    ensures {"consumer", "provider", "subscriptionId", "ref", "planId"} <= args.Keys
    ensures args["consumer"] == Str(rv.consumer) && args["provider"] == Str(rv.provider)
    ensures args["subscriptionId"] == Str(numberToHex(rv.subscriptionId))
    ensures args["ref"] == Str(rv.ref) && args["planId"] == Str(rv.planId)
    ensures "discountId" in args <==> h.HandleCreated? || h.HandleChangedPlan? || h.HandleChangedDiscount?
    ensures "prevPlanId" in args <==> h.HandleChangedPlan? || h.HandlePendingChangePlan?
    ensures "discountId" in args ==> args["discountId"] == rv.discountId
    ensures "prevPlanId" in args ==> args["prevPlanId"] == rv.prevPlanId
  {
    var base := map[
      "consumer" := Str(rv.consumer),
      "provider" := Str(rv.provider),
      "subscriptionId" := Str(numberToHex(rv.subscriptionId)),
      "ref" := Str(rv.ref),
      "planId" := Str(rv.planId)];
    match h
    case HandleCreated | HandleChangedDiscount => base["discountId" := rv.discountId]
    case HandleChangedPlan => base["prevPlanId" := rv.prevPlanId]["discountId" := rv.discountId]
    case HandlePendingChangePlan => base["prevPlanId" := rv.prevPlanId]
    case HandlePaused | HandleResumed | HandlePendingCancel | HandleCanceled
      | HandleRenewed | HandleTrialEnded | HandlePastDue => base
  }

  /** `webhookPayload`: the fixed record around a name and an `args` object. */
  function WebhookPayload(name: string, args: Args, e: ChainEvent, chainId: int): (p: Payload)
    ensures p.event == name && p.args == args
    ensures p.block.number == e.blockNumber && p.block.hash == e.blockHash
    ensures p.transactionHash == e.transactionHash
    ensures p.chainId == chainId
  {
    Payload(name, args, Block(e.blockNumber, e.blockHash), e.transactionHash, chainId)
  }

  /** The payload a handler posts for an event: the event's own name, the handler's
      `args`, the event's block and transaction, and the chain the bridge was
      configured for. */
  function HandlerPayload(h: Handler, e: ChainEvent, numberToHex: nat -> string, chainId: int): (p: Payload)
    ensures p.event == e.event
    ensures p.args == HandlerArgs(h, e.returnValues, numberToHex)
    ensures p.args["provider"] == Str(e.returnValues.provider)
    ensures p.args["subscriptionId"] == Str(numberToHex(e.returnValues.subscriptionId))
    ensures p.block == Block(e.blockNumber, e.blockHash)
    ensures p.transactionHash == e.transactionHash
    ensures p.chainId == chainId
  {
    WebhookPayload(e.event, HandlerArgs(h, e.returnValues, numberToHex), e, chainId)
  }

  /** The handler the listener for an event calls, if a listener is installed.
      No listener is installed for SubscriptionChangedDiscount, so the ChangedDiscount
      handler is never reached. The listener for SubscriptionChangedPlan calls the
      Created handler, so the ChangedPlan handler is never reached either. */
  function ListenerFor(k: EventKind): (h: Option<Handler>)
    ensures h.None? <==> k == SubscriptionChangedDiscount
    ensures k == SubscriptionChangedPlan ==> h == Some(HandleCreated)
    ensures k != SubscriptionChangedPlan && k != SubscriptionChangedDiscount ==> h == Some(Namesake(k))
    ensures h != Some(HandleChangedDiscount) && h != Some(HandleChangedPlan)
  {
    match k
    case SubscriptionChangedDiscount => None
    case SubscriptionChangedPlan => Some(HandleCreated)
    case _ => Some(Namesake(k))
  }

  /** For every event a listener handles, the payload's `args` hold exactly the
      parameters the event declares, except that a PendingCancel payload drops
      `cancelAt` and a ChangedPlan payload drops `prevPlanId`; and every one of
      those values is defined, so serialising the payload loses no field. */
  lemma ListenedArgsMatchDeclaredFields(k: EventKind, rv: ReturnValues, numberToHex: nat -> string)
    requires Decoded(k, rv)
    requires k != SubscriptionChangedDiscount
    ensures var args := HandlerArgs(ListenerFor(k).value, rv, numberToHex);
      && args.Keys == DeclaredFields(k) - {"cancelAt"} - (if k == SubscriptionChangedPlan then {"prevPlanId"} else {})
      && forall f :: f in args ==> args[f].Str?
  {
  }

  /** A SubscriptionChangedPlan event goes through the Created handler: its payload is
      named SubscriptionChangedPlan and carries the new plan and discount, but not the
      previous plan, although the event has one. */
  lemma ChangedPlanPayloadLacksPrevPlanId(e: ChainEvent, numberToHex: nat -> string, chainId: int)
    requires e.event == EventName(SubscriptionChangedPlan)
    requires Decoded(SubscriptionChangedPlan, e.returnValues)
    ensures var p := HandlerPayload(ListenerFor(SubscriptionChangedPlan).value, e, numberToHex, chainId);
      && p.event == "SubscriptionChangedPlan"
      && e.returnValues.prevPlanId.Str?
      && "prevPlanId" !in p.args
      && p.args["planId"] == Str(e.returnValues.planId)
      && p.args["discountId"] == e.returnValues.discountId
  {
  }

  /** A frame fact about the payload: its `chainId` is the configured one, and
      building it for another chain changes that field and nothing else. */
  lemma PayloadChainIsConfigured(h: Handler, e: ChainEvent, numberToHex: nat -> string, c1: int, c2: int)
    ensures HandlerPayload(h, e, numberToHex, c1).chainId == c1
    ensures HandlerPayload(h, e, numberToHex, c1) == HandlerPayload(h, e, numberToHex, c2).(chainId := c1)
  {
  }
}
