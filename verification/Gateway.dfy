// provider.py, and its use by service.py: the registry of providers, the gateway, and one dispatch
// of a claimed intent.
module Gateway {
  import opened Wrappers
  import opened Text
  import opened Contracts
  import opened Service

  /** A registered adapter: what it does with a request, and the requests it has been given. */
  class Provider {
    const key: string
    const behaviour: MessageRequest -> ProviderAnswer
    var received: seq<MessageRequest>

    constructor (key: string, behaviour: MessageRequest -> ProviderAnswer)
      ensures this.key == key && this.behaviour == behaviour && received == []
    {
      this.key, this.behaviour, received := key, behaviour, [];
    }

    method Send(request: MessageRequest) returns (answer: ProviderAnswer)
      modifies this
      ensures answer == behaviour(request) && received == old(received) + [request]
    {
      received := received + [request];
      answer := behaviour(request);
    }
  }

  datatype RegistrationError = BadKey | DuplicateProvider | KeyMismatch

  class ProviderRegistry {
    var providers: map<string, Provider>

    /** Every provider is registered under its own key. */
    ghost predicate Valid()
      reads this
    {
      forall k <- providers :: NonBlank(k) && providers[k].key == k
    }

    constructor ()
      ensures Valid() && providers == map[]
    {
      providers := map[];
    }

    method Register(key: string, provider: Provider) returns (error: Option<RegistrationError>)
      requires Valid()
      modifies this
      ensures Valid()
      ensures error == None <==> NonBlank(key) && key !in old(providers) && provider.key == key
      ensures providers == if error == None then old(providers)[key := provider] else old(providers)
    {
      if !NonBlank(key) {
        return Some(BadKey);
      }
      if key in providers {
        return Some(DuplicateProvider);
      }
      if provider.key != key {
        return Some(KeyMismatch);
      }
      providers := providers[key := provider];
      return None;
    }

    method Get(key: string) returns (provider: Option<Provider>)
      requires Valid()
      ensures provider == if key in providers then Some(providers[key]) else None
    {
      if !NonBlank(key) || key !in providers {
        return None;
      }
      return Some(providers[key]);
    }
  }

  /** What `MessagingGateway.send` returns or raises. */
  datatype GatewayOutcome = Returned(result: SendResult) | NotRegistered | ContractViolated | AdapterRaised

  class MessagingGateway {
    const registry: ProviderRegistry

    constructor (registry: ProviderRegistry)
      ensures this.registry == registry
    {
      this.registry := registry;
    }

    /** The providers that a send may call: at most the selected one. */
    ghost function Selected(key: string): set<object>
      reads registry
    {
      if key in registry.providers then {registry.providers[key]} else {}
    }

    /**
     * Only the selected provider is called, once, with this request. A result is passed on if it
     * names this provider and this request; an adapter's own "not found" is masked.
     */
    method Send(providerKey: string, request: MessageRequest) returns (outcome: GatewayOutcome)
      requires registry.Valid()
      modifies Selected(providerKey)
      ensures registry.Valid() && registry.providers == old(registry.providers)
      ensures outcome.NotRegistered? <==> providerKey !in registry.providers
      ensures providerKey in registry.providers ==>
                var provider := registry.providers[providerKey];
                && provider.received == old(provider.received) + [request]
                && outcome == match provider.behaviour(request)
                              case Raises => AdapterRaised
                              case RaisesNotFound => ContractViolated
                              case Answers(r) =>
                                if r.providerKey == providerKey && r.correlationId == request.correlationId
                                  then Returned(r)
                                else ContractViolated
    {
      var found := registry.Get(providerKey);
      if found == None {
        return NotRegistered;
      }
      var adapterNotFound := false;
      var answer := found.value.Send(request);
      if answer.Raises? {
        return AdapterRaised;
      }
      if answer.RaisesNotFound? {
        adapterNotFound := true;
      }
      if adapterNotFound {
        return ContractViolated;
      }
      if answer.result.providerKey != providerKey {
        return ContractViolated;
      }
      if answer.result.correlationId != request.correlationId {
        return ContractViolated;
      }
      return Returned(answer.result);
    }
  }

  /**
   * `_dispatch_claimed` up to the completion. The provider was invoked exactly if one is registered
   * under the intent's key; whatever it does, the result is the one of the protocol, and it passes the
   * checks of the terminal intent.
   */
  method DispatchClaimed(gateway: MessagingGateway, intent: MessageIntent, request: MessageRequest)
    returns (result: DispatchResult, providerInvoked: bool)
    requires gateway.registry.Valid() && intent.Valid() && request.correlationId == intent.correlationId
    requires forall k <- gateway.registry.providers ::
               gateway.registry.providers[k].behaviour(request).Answers? ==>
                 gateway.registry.providers[k].behaviour(request).result.Valid()
    modifies gateway.Selected(intent.providerKey)
    ensures providerInvoked <==> intent.providerKey in old(gateway.registry.providers)
    ensures result ==
            if providerInvoked then
              GatewayResult(intent, request, old(gateway.registry.providers[intent.providerKey]).behaviour(request))
            else UnregisteredResult(intent)
    ensures if providerInvoked then
              Reports(intent, request,
                      old(gateway.registry.providers[intent.providerKey]).behaviour(request), result)
            else SaysUnregistered(intent, result)
    ensures Expected(intent, result).Valid()
    ensures providerInvoked ==>
              var provider := old(gateway.registry.providers[intent.providerKey]);
              provider.received == old(provider.received) + [request]
  {
    providerInvoked := false;
    ExpectedIsValid(intent, request, Raises);
    var outcome := gateway.Send(intent.providerKey, request);
    match outcome
    case NotRegistered =>
      result := UnregisteredResult(intent);
    case Returned(sent) =>
      providerInvoked := true;
      ExpectedIsValid(intent, request, Answers(sent));
      result := DispatchResult(intent.intentId, sent.providerKey, sent.disposition, sent.correlationId,
                               sent.providerMessageId, sent.providerStatus, sent.error, false);
    case _ =>
      providerInvoked := true;
      result := UnknownResult(intent);
  }
}
