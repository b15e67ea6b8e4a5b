/** The WebhookBridge object: its provider-to-endpoint table, the provider addresses
    chosen by the single- and multi-tenant start-ups, endpoint resolution (the
    table first, then the key/value store), and the per-event dispatch that ties
    the listeners, the normaliser and the delivery decision together. */
module Bridge {
  import opened Js
  import opened Normalizer
  import opened Delivery

  /** The `providerAddresses` field: one address, or an array of them. */
  datatype ProviderAddresses = Scalar(address: string) | List(addresses: seq<string>)

  /** The addresses `providerAddresses` holds, in order. */
  function Providers(a: ProviderAddresses): seq<string> {
    match a
    case Scalar(p) => [p]
    case List(ps) => ps
  }

  /** The table after mapping every provider of `ps`, in order, to `endpoint`. */
  function MapAll(m: map<string, string>, ps: seq<string>, endpoint: string): (r: map<string, string>)
    ensures forall p :: p in r <==> p in m || p in ps
    ensures forall p :: p in ps ==> r[p] == endpoint
    ensures forall p :: p in m && p !in ps ==> r[p] == m[p]
  {
    if ps == [] then m
    else
      var rest := MapAll(m, ps[..|ps| - 1], endpoint);
      assert forall p :: p in ps ==> p in ps[..|ps| - 1] || p == ps[|ps| - 1];
      rest[ps[|ps| - 1] := endpoint]
  }

  /** `providerAddresses` after `runSingle(providerAddress, …)`: the split list when
      the argument holds a comma, the bare string otherwise. Either way it holds
      exactly the pieces of the split. */
  function SingleAddresses(providerAddress: string): (a: ProviderAddresses)
    ensures a.Scalar? <==> ',' !in providerAddress
    ensures Providers(a) == Split(providerAddress)
  {
    SplitHasComma(providerAddress);
    if ',' in providerAddress then List(Split(providerAddress)) else Scalar(providerAddress)
  }

  /** `providerAddresses` after `runMulti` read the store's keys: the one key as a
      bare string when there is exactly one, the whole list (even empty) otherwise.
      Either way it holds exactly the keys. */
  function MultiAddresses(keys: seq<string>): (a: ProviderAddresses)
    ensures a.Scalar? <==> |keys| == 1
    ensures Providers(a) == keys
  {
    if |keys| == 1 then Scalar(keys[0]) else List(keys)
  }

  /** The store's `hGetAll` reply as `runMulti` uses it: the field names in the
      order the store gives them, or a rejection (connecting or reading failed). */
  datatype HashReply = Fields(keys: seq<string>) | StoreDown

  class WebhookBridge {
    /** `chain.chainId` of the configured environment. */
    const chainId: int
    /** `endpointMap`: provider to endpoint, written by `mapProviderToEndpoint`. */
    var endpointMap: map<string, string>
    /** Whether `enableRedis` has attached a key/value store client. */
    var storeAttached: bool
    /** `providerAddresses`, undefined until a start-up sets it. */
    var providerAddresses: Option<ProviderAddresses>

    constructor(chainId: int)
      ensures this.chainId == chainId
      ensures endpointMap == map[] && !storeAttached && providerAddresses == None
    {
      this.chainId := chainId;
      endpointMap := map[];
      storeAttached := false;
      providerAddresses := None;
    }

    /** `mapProviderToEndpoint`: insert or overwrite one entry of the table. */
    method MapProviderToEndpoint(provider: string, endpoint: string)
      modifies this`endpointMap
      ensures endpointMap == old(endpointMap)[provider := endpoint]
      ensures provider in endpointMap && endpointMap[provider] == endpoint
      ensures forall p :: p != provider ==> (p in endpointMap <==> p in old(endpointMap))
      ensures forall p :: p != provider && p in old(endpointMap) ==> endpointMap[p] == old(endpointMap)[p]
    {
      endpointMap := endpointMap[provider := endpoint];
    }

    /** `getProviderEndpoint`: a truthy table entry wins without consulting the
        store; otherwise an attached store is asked, and without one the (falsy)
        table entry is the answer. Only a store lookup can throw. */
    function GetProviderEndpoint(provider: string, store: Store): (r: Lookup)
      reads this
      ensures provider in endpointMap && endpointMap[provider] != "" ==> r == Endpoint(Str(endpointMap[provider]))
      ensures !(provider in endpointMap && endpointMap[provider] != "") && storeAttached ==> r == StoreGet(store, provider)
      ensures !(provider in endpointMap && endpointMap[provider] != "") && !storeAttached ==> r.Endpoint? && !Truthy(r.value)
      ensures !storeAttached && provider in endpointMap ==> r == Endpoint(Str(endpointMap[provider]))
      ensures !storeAttached && provider !in endpointMap ==> r == Endpoint(Nullish)
      ensures r.LookupThrew? ==> storeAttached
    {
      var endpoint := if provider in endpointMap then Str(endpointMap[provider]) else Nullish;
      if !Truthy(endpoint) && storeAttached then StoreGet(store, provider) else Endpoint(endpoint)
    }

    /** `sendWebhook`: resolve the provider, then post or not, never throwing
        (assuming the lookup and the POST both answer). */
    function SendWebhook(provider: string, payload: Payload, store: Store, reply: HttpReply): (d: Outcome)
      reads this
      ensures d.Posted? <==> GetProviderEndpoint(provider, store).Endpoint? && Truthy(GetProviderEndpoint(provider, store).value)
      ensures d.Posted? ==> GetProviderEndpoint(provider, store) == Endpoint(Str(d.endpoint)) && d.body == payload
      ensures d.LookupError? ==> storeAttached
    {
      Decide(GetProviderEndpoint(provider, store), payload, reply)
    }

    /** What the listener installed for events of kind `k` does with event `e`:
        nothing when no listener is installed, otherwise its handler builds the
        payload and sends it for the event's provider. */
    function OnData(k: EventKind, e: ChainEvent, numberToHex: nat -> string, store: Store, reply: HttpReply): (d: Option<Outcome>)
      reads this
      ensures d.None? <==> k == SubscriptionChangedDiscount
      ensures d.Some? ==> (d.value.Posted? <==>
        GetProviderEndpoint(e.returnValues.provider, store).Endpoint? && Truthy(GetProviderEndpoint(e.returnValues.provider, store).value))
      ensures d.Some? && d.value.Posted? ==>
        && GetProviderEndpoint(e.returnValues.provider, store) == Endpoint(Str(d.value.endpoint))
        && d.value.body.event == e.event
        && d.value.body.args == HandlerArgs(ListenerFor(k).value, e.returnValues, numberToHex)
        && d.value.body.block == Block(e.blockNumber, e.blockHash)
        && d.value.body.transactionHash == e.transactionHash
        && d.value.body.chainId == chainId
    {
      match ListenerFor(k)
      case None => None
      case Some(h) => Some(SendWebhook(e.returnValues.provider, HandlerPayload(h, e, numberToHex, chainId), store, reply))
    }

    /** `runSingle`: map every provider of the (possibly comma-separated) argument to
        the one endpoint and record them in `providerAddresses`. Every address it
        then holds resolves to that endpoint, whatever the store holds. */
    method RunSingle(providerAddress: string, endpoint: string)
      modifies this`endpointMap, this`providerAddresses
      ensures endpointMap == MapAll(old(endpointMap), Split(providerAddress), endpoint)
      ensures providerAddresses == Some(SingleAddresses(providerAddress))
      ensures endpoint != "" ==> forall p, store :: p in Providers(providerAddresses.value) ==>
        GetProviderEndpoint(p, store) == Endpoint(Str(endpoint))
    {
      SplitHasComma(providerAddress);
      if ',' in providerAddress {
        var providers := Split(providerAddress);
        for i := 0 to |providers|
          invariant endpointMap == MapAll(old(endpointMap), providers[..i], endpoint)
        {
          assert providers[..i + 1][..i] == providers[..i];
          MapProviderToEndpoint(providers[i], endpoint);
        }
        assert providers[..|providers|] == providers;
        providerAddresses := Some(List(providers));
      } else {
        MapProviderToEndpoint(providerAddress, endpoint);
        assert [providerAddress][..0] == [];
        providerAddresses := Some(Scalar(providerAddress));
      }
    }

    /** `runMulti`: attach the store, then set `providerAddresses` from its keys.
        A rejection leaves `providerAddresses` as it was. */
    method RunMulti(reply: HashReply) returns (ok: bool)
      modifies this`storeAttached, this`providerAddresses
      ensures storeAttached
      ensures ok <==> reply.Fields?
      ensures providerAddresses == if ok then Some(MultiAddresses(reply.keys)) else old(providerAddresses)
    {
      storeAttached := true;
      match reply
      case StoreDown =>
        ok := false;
      case Fields(keys) =>
        if |keys| == 1 {
          providerAddresses := Some(Scalar(keys[0]));
        } else {
          providerAddresses := Some(List(keys));
        }
        ok := true;
    }
  }

  /** Single-tenant start-up with "0xAAA,0xBBB" and one endpoint: a
      SubscriptionCreated event for 0xAAA is posted once, to that endpoint, named
      SubscriptionCreated and with provider 0xAAA in its args. */
  method SingleTenantExample(numberToHex: nat -> string, rv: ReturnValues, store: Store, reply: HttpReply)
    returns (d: Option<Outcome>)
    requires rv.provider == "0xAAA"
    ensures d.Some? && d.value.Posted?
    ensures d.value.endpoint == "https://example.com/hook"
    ensures d.value.body.event == "SubscriptionCreated"
    ensures d.value.body.args == HandlerArgs(HandleCreated, rv, numberToHex)
    ensures d.value.body.args["provider"] == Str("0xAAA")
  {
    var bridge := new WebhookBridge(1);
    assert Join(["0xAAA", "0xBBB"]) == "0xAAA,0xBBB";
    SplitJoin(["0xAAA", "0xBBB"]);
    bridge.RunSingle("0xAAA,0xBBB", "https://example.com/hook");
    var e := ChainEvent("SubscriptionCreated", rv, 1, "0xb10c", "0x7a");
    d := bridge.OnData(SubscriptionCreated, e, numberToHex, store, reply);
  }

  /** Multi-tenant start-up with a store that maps only 0xCCC: `providerAddresses` is that
      one key, and a SubscriptionCanceled event for the unmapped 0xDDD is not posted. */
  method MultiTenantExample(numberToHex: nat -> string, rv: ReturnValues, reply: HttpReply)
    returns (addresses: Option<ProviderAddresses>, d: Option<Outcome>)
    requires rv.provider == "0xDDD"
    ensures addresses == Some(Scalar("0xCCC"))
    ensures d == Some(NoEndpoint)
  {
    var bridge := new WebhookBridge(1);
    var ok := bridge.RunMulti(Fields(["0xCCC"]));
    addresses := bridge.providerAddresses;
    var store := Reachable(map["0xCCC" := "https://c.example/hook"]);
    var e := ChainEvent("SubscriptionCanceled", rv, 2, "0xb10c", "0x7b");
    d := bridge.OnData(SubscriptionCanceled, e, numberToHex, store, reply);
  }
}
