// service.py: a send that nothing interrupts. The methods of the service, run over the Mongo
// repository and the gateway, are proved against one atomic specification.
module ServiceAlone {
  import opened Wrappers
  import opened Text
  import opened Contracts
  import opened IntentRecords
  import opened IntentStore
  import opened Service
  import opened Dispatch
  import opened DispatchInvariant
  import Gateway
  import Linearization
  import MongoRepository
  import Serialization
  import Fingerprint

  /** The clock at the three writes of a send. */
  datatype Times = Times(created: nat, claimed: nat, completed: nat)

  /** What a send finds: the answer of the policies, and the provider registered under its key. */
  datatype World = World(eligible: Result<bool, ServiceError>, provider: Option<MessageRequest -> ProviderAnswer>)

  /** The collection and the outcome after a send, and what was sent. */
  datatype Effect = Effect(docs: Store, outcome: Outcome, sent: seq<MessageRequest>)

  function NoEffect(docs: Store, error: ServiceError): Effect {
    Effect(docs, Failed(error), [])
  }

  function ResultOf(intent: MessageIntent, request: MessageRequest, world: World): DispatchResult {
    if world.provider == None then UnregisteredResult(intent)
    else GatewayResult(intent, request, world.provider.value(request))
  }

  function Claimed(intent: MessageIntent): MessageIntent {
    intent.(state := Dispatching)
  }

  /** A send whose intent is stored at `i`; `created` if this send created it. */
  function Continue(docs: Store, i: nat, job: Job, created: bool, world: World, times: Times): Effect
    requires i < |docs| && JobOk(job)
  {
    var intent := docs[i].intent;
    if !SameRequest(job, intent) then NoEffect(docs, IdempotencyConflict)
    else if intent.state.IsTerminal() then
      if intent.result == None then NoEffect(docs, BadIntentState)
      else Effect(docs, Result(intent.result.value.(idempotentReplay := true)), [])
    else if intent.state.Dispatching? then NoEffect(docs, InProgress)
    else if IsSensitive(job) && !created then NoEffect(docs, Dependency)
    else
      match world.eligible
      case Err(e) => NoEffect(docs, e)
      case Ok(false) =>
        var result := DeniedResult(intent);
        Effect(docs[i := CompletedDoc(docs[i], None, result, times.completed)], Result(result), [])
      case Ok(true) =>
        var request := RequestFor(job, intent.correlationId);
        var result := ResultOf(Claimed(intent), request, world);
        Effect(docs[i := CompletedDoc(ClaimedDoc(docs[i], 0, times.claimed), Some(0), result, times.completed)],
               Result(result), if world.provider.Some? then [request] else [])
  }

  /** The specification of a send. */
  function SendEffect(
    docs: Store, job: Job, intentId: string, correlationId: string, world: World, times: Times): Effect
    requires JobOk(job)
  {
    match Where(docs, job)
    case Some(i) => Continue(docs, i, job, false, world, times)
    case None =>
      if !NonBlank(correlationId) || !NonBlank(intentId) then NoEffect(docs, InvalidArgument)
      else
        var intent := IntentFor(job, intentId, correlationId);
        if IdentityTaken(docs, intent) then NoEffect(docs, Dependency)
        else Continue(docs + [NewDoc(intent, times.created)], |docs|, job, true, world, times)
  }

  // ---- What a send guarantees ----

  /** Every stored intent was created for some job. */
  ghost predicate Originated(docs: Store) {
    forall i :: 0 <= i < |docs| ==> OriginatedAt(docs, i)
  }

  ghost predicate OriginatedAt(docs: Store, i: nat)
    requires i < |docs|
  {
    exists origin :: OriginInv(docs[i], origin)
  }

  lemma NamesOfStored(docs: Store, i: nat)
    requires StoreInv(docs) && i < |docs|
    ensures docs[i].intent.Valid() && WellFormed(docs[i])
  {
  }

  lemma ResultOfIsValid(intent: MessageIntent, request: MessageRequest, world: World)
    requires intent.Valid() && request.correlationId == intent.correlationId
    ensures Expected(intent, ResultOf(intent, request, world)).Valid()
    ensures ResultOf(intent, request, world).Valid() && intent.Matches(ResultOf(intent, request, world))
    ensures !ResultOf(intent, request, world).idempotentReplay
  {
    hide NonBlank;
    ExpectedIsValid(intent, request, if world.provider == None then Raises else world.provider.value(request));
  }

  /** The document after a claim and a completion at once. */
  lemma DispatchedKeepsStore(docs: Store, i: nat, result: DispatchResult, times: Times)
    requires StoreInv(docs) && i < |docs| && docs[i].intent.state.Pending?
    requires result.Valid() && docs[i].intent.Matches(result)
    ensures var claimed := docs[i := ClaimedDoc(docs[i], 0, times.claimed)];
            && StoreInv(claimed) && Evolves(docs, claimed)
            && StoreInv(claimed[i := CompletedDoc(claimed[i], Some(0), result, times.completed)])
            && claimed[i := CompletedDoc(claimed[i], Some(0), result, times.completed)] ==
               docs[i := CompletedDoc(ClaimedDoc(docs[i], 0, times.claimed), Some(0), result, times.completed)]
  {
    hide NonBlank;
    var claimed := docs[i := ClaimedDoc(docs[i], 0, times.claimed)];
    NamesOfStored(docs, i);
    ClaimedDocIsWellFormed(docs[i], times.claimed);
    ReplaceKeepsStore(docs, i, claimed[i]);
    CompletedDocIsWellFormed(claimed[i], result, times.completed);
    ReplaceKeepsStore(claimed, i, CompletedDoc(claimed[i], Some(0), result, times.completed));
  }

  lemma ClaimedKeepsStore(docs: Store, i: nat, now: nat)
    requires StoreInv(docs) && i < |docs| && docs[i].intent.state.Pending?
    ensures StoreInv(docs[i := ClaimedDoc(docs[i], 0, now)])
    ensures docs[i := ClaimedDoc(docs[i], 0, now)][i].intent == Claimed(docs[i].intent)
  {
    hide NonBlank;
    NamesOfStored(docs, i);
    ClaimedDocIsWellFormed(docs[i], now);
    ReplaceKeepsStore(docs, i, ClaimedDoc(docs[i], 0, now));
  }

  lemma DeniedKeepsStore(docs: Store, i: nat, now: nat)
    requires StoreInv(docs) && i < |docs| && docs[i].intent.state.Pending?
    ensures StoreInv(docs[i := CompletedDoc(docs[i], None, DeniedResult(docs[i].intent), now)])
  {
    hide NonBlank;
    NamesOfStored(docs, i);
    LocalResultsAreValid(docs[i].intent);
    CompletedDocIsWellFormed(docs[i], DeniedResult(docs[i].intent), now);
    ReplaceKeepsStore(docs, i, CompletedDoc(docs[i], None, DeniedResult(docs[i].intent), now));
  }

  lemma ContinueKeepsStore(docs: Store, i: nat, job: Job, created: bool, world: World, times: Times)
    requires StoreInv(docs) && i < |docs| && JobOk(job)
    ensures var e := Continue(docs, i, job, created, world, times);
            && StoreInv(e.docs) && |e.docs| == |docs|
            && (forall j :: 0 <= j < |docs| && j != i ==> e.docs[j] == docs[j])
            && e.docs[i].intent.Key() == docs[i].intent.Key()
            && e.docs[i].intent.requestFingerprint == docs[i].intent.requestFingerprint
            && (e.outcome.Result? ==>
                  && e.docs[i].intent.state.IsTerminal() && SameRequest(job, e.docs[i].intent)
                  && e.docs[i].intent.result.Some?
                  && e.docs[i].intent.result.value.(idempotentReplay := true) ==
                     e.outcome.result.(idempotentReplay := true))
  {
    hide NonBlank, Fingerprint.RequestFingerprint, JobOk, DeniedResult, OptionalText, OptionalError;
    var intent := docs[i].intent;
    NamesOfStored(docs, i);
    if SameRequest(job, intent) && intent.state.Pending? && world.eligible.Ok? {
      DeniedKeepsStore(docs, i, times.completed);
      var request := RequestFor(job, intent.correlationId);
      ClaimedIsValid(intent);
      ResultOfIsValid(Claimed(intent), request, world);
      DispatchedKeepsStore(docs, i, ResultOf(Claimed(intent), request, world), times);
    }
  }

  lemma ClaimedIsValid(intent: MessageIntent)
    requires intent.Valid() && intent.state.Pending?
    ensures Claimed(intent).Valid()
  {
  }

  /**
   * A send that returned a result has settled its scope: every later send for the same request,
   * whatever policies and providers then answer, returns that result as a replay, sends nothing and
   * changes nothing.
   */
  lemma RepeatedSendReplays(
    docs: Store, job: Job, intentId: string, correlationId: string, world: World, times: Times,
    again: Job, intentId': string, correlationId': string, world': World, times': Times)
    requires StoreInv(docs) && JobOk(job) && JobOk(again)
    requires again.Scope() == job.Scope() && FingerprintOf(again) == FingerprintOf(job)
    requires SendEffect(docs, job, intentId, correlationId, world, times).outcome.Result?
    ensures var first := SendEffect(docs, job, intentId, correlationId, world, times);
            SendEffect(first.docs, again, intentId', correlationId', world', times') ==
              Effect(first.docs, Result(first.outcome.result.(idempotentReplay := true)), [])
  {
    hide NonBlank, Fingerprint.RequestFingerprint, JobOk, FingerprintOf, IntentFor, Continue;
    var first := SendEffect(docs, job, intentId, correlationId, world, times);
    var (before, i) := Stored(docs, job, intentId, correlationId, times);
    StoredKeepsStore(docs, job, intentId, correlationId, times);
    ContinueKeepsStore(before, i, job, Where(docs, job) == None, world, times);
    FindUnique(first.docs, ByScope(again.Scope()), i);
    Replays(first.docs, i, again, world', times');
  }

  lemma Replays(docs: Store, i: nat, job: Job, world: World, times: Times)
    requires i < |docs| && JobOk(job) && SameRequest(job, docs[i].intent) && docs[i].intent.state.IsTerminal()
    requires docs[i].intent.result.Some?
    ensures Continue(docs, i, job, false, world, times) ==
            Effect(docs, Result(docs[i].intent.result.value.(idempotentReplay := true)), [])
  {
  }

  /** The collection once the intent of the job is stored, and where. */
  function Stored(docs: Store, job: Job, intentId: string, correlationId: string, times: Times): (Store, nat)
    requires JobOk(job)
  {
    match Where(docs, job)
    case Some(i) => (docs, i)
    case None => (docs + [NewDoc(IntentFor(job, intentId, correlationId), times.created)], |docs|)
  }

  lemma StoredKeepsStore(docs: Store, job: Job, intentId: string, correlationId: string, times: Times)
    requires StoreInv(docs) && JobOk(job)
    requires Where(docs, job) == None ==>
               NonBlank(intentId) && NonBlank(correlationId)
                 && !IdentityTaken(docs, IntentFor(job, intentId, correlationId))
    ensures var (before, i) := Stored(docs, job, intentId, correlationId, times);
            StoreInv(before) && i < |before| && before[i].intent.Key() == job.Scope()
  {
    hide NonBlank, Fingerprint.RequestFingerprint, Serialization.Serialize;
    if Where(docs, job) == None {
      IntentForIsValid(job, intentId, correlationId);
      InsertKeepsStore(docs, IntentFor(job, intentId, correlationId), times.created);
    }
  }

  /** The send may go on to the policies: its scope is free, or holds a PENDING intent it can restore. */
  predicate Proceeds(docs: Store, job: Job, intentId: string, correlationId: string)
    requires JobOk(job)
  {
    match Where(docs, job)
    case Some(i) => SameRequest(job, docs[i].intent) && docs[i].intent.state.Pending? && !IsSensitive(job)
    case None =>
      NonBlank(intentId) && NonBlank(correlationId) && !IdentityTaken(docs, IntentFor(job, intentId, correlationId))
  }

  /**
   * A send calls its provider exactly if its scope is free or holds a restorable PENDING intent, the
   * policies allow it and the provider is registered; it then sends one request, its own, under the
   * correlation identifier of the stored intent, and answers with what the provider said.
   */
  lemma SendsIff(docs: Store, job: Job, intentId: string, correlationId: string, world: World, times: Times)
    requires StoreInv(docs) && JobOk(job)
    ensures var e := SendEffect(docs, job, intentId, correlationId, world, times);
            && (e.sent != [] <==>
                  Proceeds(docs, job, intentId, correlationId) && world.eligible == Ok(true) && world.provider.Some?)
            && (e.sent != [] ==>
                  && Where(e.docs, job).Some?
                  && var intent := e.docs[Where(e.docs, job).value].intent;
                     && e.sent == [RequestFor(job, intent.correlationId)]
                     && e.outcome == Result(GatewayResult(intent, e.sent[0], world.provider.value(e.sent[0]))))
  {
    hide NonBlank, Fingerprint.RequestFingerprint, Serialization.Serialize, DeniedResult, WellFormed;
    var e := SendEffect(docs, job, intentId, correlationId, world, times);
    if e.sent != [] {
      var (before, i) := Stored(docs, job, intentId, correlationId, times);
      StoredKeepsStore(docs, job, intentId, correlationId, times);
      ContinueKeepsStore(before, i, job, Where(docs, job) == None, world, times);
      FindUnique(e.docs, ByScope(job.Scope()), i);
    } else if Where(docs, job) == None && Proceeds(docs, job, intentId, correlationId) {
      IntentForIsValid(job, intentId, correlationId);
    }
  }

  /** The document is closed as rejected by policy, with no attempt, and the caller is told so. */
  predicate RejectedByPolicy(d: Doc, outcome: Outcome) {
    && d.intent.state.Rejected? && d.attempts == []
    && d.intent.result.Some? && outcome == Result(d.intent.result.value)
    && SaysRejectedByPolicy(d.intent, d.intent.result.value)
  }

  /**
   * The document is closed with what came of the one attempt, and the caller is told so: what the
   * provider answered to the one request, or that none is registered.
   */
  predicate Dispatched(d: Doc, job: Job, outcome: Outcome, sent: seq<MessageRequest>, world: World, times: Times) {
    && |d.attempts| == 1 && d.dispatchStartedAt == Some(times.claimed) && d.completedAt == Some(times.completed)
    && d.intent.result.Some? && outcome == Result(d.intent.result.value)
    && d.intent.state == TerminalState(d.intent.result.value.disposition)
    && (match world.provider
        case None => sent == [] && SaysUnregistered(d.intent, d.intent.result.value)
        case Some(provider) =>
          && sent == [MessageRequest(job.subject.recipient, job.subject.message, d.intent.correlationId,
                                     job.idempotencyKey)]
          && Reports(d.intent, sent[0], provider(sent[0]), d.intent.result.value))
  }

  /** What the policies decided: exactly one of three ends. */
  predicate DecidedBy(d: Doc, job: Job, e: Effect, world: World, times: Times) {
    && (world.eligible == Ok(false) <==> RejectedByPolicy(d, e.outcome))
    && (world.eligible == Ok(true) <==> d.attempts != [])
    && (world.eligible == Ok(true) ==> Dispatched(d, job, e.outcome, e.sent, world, times))
    && (world.eligible != Ok(true) ==> e.sent == [])
    && (world.eligible.Err? <==> e.outcome == Failed(Dependency))
    && (world.eligible.Err? <==> d.intent.state.Pending?)
  }

  /** What becomes of the intent when the policies are asked. */
  lemma ContinueDecides(docs: Store, i: nat, job: Job, created: bool, world: World, times: Times)
    requires StoreInv(docs) && i < |docs| && JobOk(job)
    requires SameRequest(job, docs[i].intent) && docs[i].intent.state.Pending? && (created || !IsSensitive(job))
    requires world.eligible.Err? ==> world.eligible.error == Dependency
    ensures var e := Continue(docs, i, job, created, world, times);
            |e.docs| == |docs| && DecidedBy(e.docs[i], job, e, world, times)
            && (world.eligible.Err? ==> e == NoEffect(docs, Dependency))
  {
    hide NonBlank, FingerprintOf, JobOk, DeniedResult, ResultOf, WellFormed, DecidedBy, CompletedDoc, ClaimedDoc;
    PendingHasNoAttempt(docs, i);
    if world.eligible.Err? {
      FailureDecides(docs, i, job, world, times);
    } else if world.eligible.value {
      assert world.eligible == Ok(true);
      PermissionDecides(Continue(docs, i, job, created, world, times).docs, docs[i], job, world, times);
    } else {
      assert world.eligible == Ok(false);
      RefusalDecides(Continue(docs, i, job, created, world, times).docs, docs[i], job, world, times);
    }
  }

  lemma FailureDecides(docs: Store, i: nat, job: Job, world: World, times: Times)
    requires i < |docs| && docs[i].intent.state.Pending? && docs[i].attempts == [] && world.eligible.Err?
    ensures DecidedBy(docs[i], job, NoEffect(docs, Dependency), world, times)
  {
    hide SaysRejectedByPolicy, Dispatched;
  }

  lemma RefusalDecides(docs: Store, d: Doc, job: Job, world: World, times: Times)
    requires d.intent.state.Pending? && d.attempts == [] && world.eligible == Ok(false)
    ensures DecidedBy(CompletedDoc(d, None, DeniedResult(d.intent), times.completed), job,
                      Effect(docs, Result(DeniedResult(d.intent)), []), world, times)
  {
    hide DeniedResult, SaysRejectedByPolicy, Dispatched;
    var result := DeniedResult(d.intent);
    ResultsIgnoreState(d.intent, TerminalState(result.disposition), Some(result));
    LocalResultsSay(d.intent.(state := TerminalState(result.disposition), result := Some(result)));
    DeniedIsRejected(d.intent);
  }

  lemma PermissionDecides(docs: Store, d: Doc, job: Job, world: World, times: Times)
    requires d.intent.state.Pending? && d.attempts == [] && world.eligible == Ok(true)
    ensures var request := RequestFor(job, d.intent.correlationId);
            var result := ResultOf(Claimed(d.intent), request, world);
            DecidedBy(CompletedDoc(ClaimedDoc(d, 0, times.claimed), Some(0), result, times.completed), job,
                      Effect(docs, Result(result), if world.provider.Some? then [request] else []), world, times)
  {
    hide ResultOf, SaysRejectedByPolicy, SaysUnregistered, Reports;
    OutcomeSays(d.intent, RequestFor(job, d.intent.correlationId), world);
  }

  lemma DeniedIsRejected(intent: MessageIntent)
    ensures DeniedResult(intent).disposition.Rejected?
  {
  }

  /** What the closed intent of a dispatch says. */
  lemma OutcomeSays(intent: MessageIntent, request: MessageRequest, world: World)
    ensures var result := ResultOf(Claimed(intent), request, world);
            var closed := intent.(state := TerminalState(result.disposition), result := Some(result));
            if world.provider == None then SaysUnregistered(closed, result)
            else Reports(closed, request, world.provider.value(request), result)
  {
    hide UnregisteredResult, GatewayResult, SaysUnregistered, Reports;
    var result := ResultOf(Claimed(intent), request, world);
    var closed := intent.(state := TerminalState(result.disposition), result := Some(result));
    ResultsIgnoreState(intent, Dispatching, intent.result);
    ResultsIgnoreState(intent, closed.state, closed.result);
    LocalResultsSay(closed);
    if world.provider.Some? {
      AnswersIgnoreState(intent, Dispatching, intent.result, request, world.provider.value(request));
      AnswersIgnoreState(intent, closed.state, closed.result, request, world.provider.value(request));
      GatewayReports(closed, request, world.provider.value(request));
    }
  }

  /**
   * A send that may go on to the policies leaves its intent rejected by policy exactly if they refuse
   * it; leaves it PENDING, and fails, exactly if the policy that was needed fails; and has dispatched it
   * exactly if they allow it.
   */
  lemma SendDecides(docs: Store, job: Job, intentId: string, correlationId: string, world: World, times: Times)
    requires StoreInv(docs) && JobOk(job) && Proceeds(docs, job, intentId, correlationId)
    requires world.eligible.Err? ==> world.eligible.error == Dependency
    ensures var e := SendEffect(docs, job, intentId, correlationId, world, times);
            && Where(e.docs, job).Some?
            && DecidedBy(e.docs[Where(e.docs, job).value], job, e, world, times)
            && (world.eligible.Err? ==> e.docs == Stored(docs, job, intentId, correlationId, times).0)
  {
    hide NonBlank, FingerprintOf, JobOk, Continue, WellFormed, IntentFor, DecidedBy;
    var (before, i) := Stored(docs, job, intentId, correlationId, times);
    StoredKeepsStore(docs, job, intentId, correlationId, times);
    StoredIsPending(docs, job, intentId, correlationId, times);
    ContinueDecides(before, i, job, Where(docs, job) == None, world, times);
    ContinueKeepsStore(before, i, job, Where(docs, job) == None, world, times);
    FindUnique(SendEffect(docs, job, intentId, correlationId, world, times).docs, ByScope(job.Scope()), i);
  }

  lemma StoredIsPending(docs: Store, job: Job, intentId: string, correlationId: string, times: Times)
    requires StoreInv(docs) && JobOk(job) && Proceeds(docs, job, intentId, correlationId)
    ensures var (before, i) := Stored(docs, job, intentId, correlationId, times);
            && i < |before| && SameRequest(job, before[i].intent) && before[i].intent.state.Pending?
            && (Where(docs, job) == None || !IsSensitive(job))
  {
    hide NonBlank, FingerprintOf, JobOk, Serialization.Serialize;
  }

  lemma PendingHasNoAttempt(docs: Store, i: nat)
    requires StoreInv(docs) && i < |docs| && docs[i].intent.state.Pending?
    ensures docs[i].attempts == []
  {
    hide NonBlank;
    assert WellFormed(docs[i]);
  }

  /**
   * When a send that may not go on to the policies gives each of its answers; it then changes nothing
   * and sends nothing.
   */
  lemma AnswersIff(docs: Store, job: Job, intentId: string, correlationId: string, world: World, times: Times)
    requires StoreInv(docs) && JobOk(job) && !Proceeds(docs, job, intentId, correlationId)
    ensures var e := SendEffect(docs, job, intentId, correlationId, world, times);
            && e.docs == docs && e.sent == []
            && match Where(docs, job)
               case None =>
                 e.outcome == Failed(if NonBlank(intentId) && NonBlank(correlationId) then Dependency
                                     else InvalidArgument)
               case Some(i) =>
                 var intent := docs[i].intent;
                 && (e.outcome == Failed(IdempotencyConflict) <==> intent.requestFingerprint != FingerprintOf(job))
                 && (intent.requestFingerprint == FingerprintOf(job) ==>
                       match intent.state
                       case Pending => IsSensitive(job) && e.outcome == Failed(Dependency)
                       case Dispatching => e.outcome == Failed(InProgress)
                       case _ =>
                         intent.result.Some? && e.outcome == Result(intent.result.value.(idempotentReplay := true)))
  {
    hide NonBlank, FingerprintOf, JobOk, Serialization.Serialize, OptionalText, OptionalError;
    if Where(docs, job).Some? {
      NamesOfStored(docs, Where(docs, job).value);
    }
  }

  /**
   * A send into a taken scope is refused as conflicting exactly if its request differs from the one
   * the intent was created for in recipient, provider, operation or message up to sensitivity marks
   * and button metadata, or in whether it has sensitive data, or in the key of sensitive fingerprints.
   */
  lemma ConflictIff(
    docs: Store, i: nat, origin: Job, job: Job, intentId: string, correlationId: string, world: World, times: Times)
    requires JobOk(job) && Where(docs, job) == Some(i) && OriginInv(docs[i], origin)
    requires world.eligible.Err? ==> world.eligible.error == Dependency
    ensures SendEffect(docs, job, intentId, correlationId, world, times).outcome == Failed(IdempotencyConflict) <==>
            !Alike(job, origin)
  {
    hide NonBlank, Fingerprint.RequestFingerprint, Serialization.Serialize, DeniedResult, WellFormed, Fingerprint.Erase;
    Fingerprint.FingerprintsAgreeIff(job.subject, job.key, origin.subject, origin.key);
  }

  // ---- The service ----

  /** A request restored from the stored intent is this job's own, at the provider this job selects. */
  lemma StoredRequest(docs: Store, i: nat, job: Job)
    requires StoreInv(docs) && Originated(docs) && i < |docs| && JobOk(job) && Where(docs, job) == Some(i)
    requires SameRequest(job, docs[i].intent)
    ensures docs[i].intent.providerKey == job.subject.providerKey && NonBlank(docs[i].intent.correlationId)
    ensures Serialization.Deserialize(docs[i].intent.serializedRequest) ==
            if IsSensitive(job) then Err(Serialization.SensitiveUnavailable)
            else Ok(RequestFor(job, docs[i].intent.correlationId))
  {
    hide NonBlank, Fingerprint.RequestFingerprint, Serialization.Serialize, Serialization.Deserialize;
    assert OriginatedAt(docs, i);
    var origin :| OriginInv(docs[i], origin);
    SameFingerprint(origin, job);
    RestoredRequest(origin, job, docs[i].intent.correlationId);
  }

  /** The results that adapters return have passed the constructor of `SendResult`. */
  ghost predicate WellTyped(registry: Gateway.ProviderRegistry)
    reads registry
  {
    forall k, r: MessageRequest :: k in registry.providers && registry.providers[k].behaviour(r).Answers? ==>
      registry.providers[k].behaviour(r).result.Valid()
  }

  class MessagingService {
    const repository: MongoRepository.MongoIntentRepository
    const gateway: Gateway.MessagingGateway
    const recipientPolicy: string -> PolicyAnswer
    const textSessionPolicy: (string, string) -> SessionAnswer

    constructor (repository: MongoRepository.MongoIntentRepository, gateway: Gateway.MessagingGateway,
                 recipientPolicy: string -> PolicyAnswer, textSessionPolicy: (string, string) -> SessionAnswer)
      ensures this.repository == repository && this.gateway == gateway
      ensures this.recipientPolicy == recipientPolicy && this.textSessionPolicy == textSessionPolicy
    {
      this.repository, this.gateway := repository, gateway;
      this.recipientPolicy, this.textSessionPolicy := recipientPolicy, textSessionPolicy;
    }

    ghost predicate Valid()
      reads repository.collection, gateway.registry
    {
      StoreInv(repository.collection.docs) && Originated(repository.collection.docs)
      && gateway.registry.Valid() && WellTyped(gateway.registry)
    }

    function Eligible(job: Job): Result<bool, ServiceError> {
      Dispatch.Eligible(job.purpose, recipientPolicy(job.subject.recipient),
                        if job.purpose == None then SessionFails
                        else textSessionPolicy(job.subject.recipient, job.purpose.value))
    }

    /** The recipient has consented and is not suppressed and, for a text, has an active session. */
    predicate Allows(job: Job) {
      && recipientPolicy(job.subject.recipient) == Eligibility(true, false)
      && (job.purpose.Some? ==> textSessionPolicy(job.subject.recipient, job.purpose.value) == Active(true))
    }

    /** The policies answer, and do not allow the job. */
    predicate Refuses(job: Job) {
      var answer := recipientPolicy(job.subject.recipient);
      || (answer.Eligibility? && !(answer.consented && !answer.suppressed))
      || (answer == Eligibility(true, false) && job.purpose.Some?
          && textSessionPolicy(job.subject.recipient, job.purpose.value) == Active(false))
    }

    /** The policy whose answer is needed fails. */
    predicate CannotTell(job: Job) {
      || recipientPolicy(job.subject.recipient) == PolicyFails
      || (recipientPolicy(job.subject.recipient) == Eligibility(true, false) && job.purpose.Some?
          && textSessionPolicy(job.subject.recipient, job.purpose.value) == SessionFails)
    }

    lemma EligibleIffAllowed(job: Job)
      ensures Eligible(job) == Ok(true) <==> Allows(job)
      ensures Eligible(job) == Ok(false) <==> Refuses(job)
      ensures Eligible(job) == Err(Dependency) <==> CannotTell(job)
      ensures Eligible(job).Err? ==> Eligible(job).error == Dependency
    {
      EligibleIff(job.purpose, recipientPolicy(job.subject.recipient),
                  if job.purpose == None then SessionFails
                  else textSessionPolicy(job.subject.recipient, job.purpose.value));
    }

    /** By the answers of the policies, the job's intent has been dispatched, rejected or left pending. */
    predicate Decided(job: Job, docs: Store, outcome: Outcome)
      requires JobOk(job)
    {
      Where(docs, job).Some?
      && var d := docs[Where(docs, job).value];
         && (Allows(job) <==> d.attempts != [])
         && (Refuses(job) <==> RejectedByPolicy(d, outcome))
         && (CannotTell(job) <==> outcome == Failed(Dependency))
         && (CannotTell(job) <==> d.intent.state.Pending?)
    }

    ghost function ProviderOf(key: string): Option<MessageRequest -> ProviderAnswer>
      reads gateway.registry
    {
      if key in gateway.registry.providers then Some(gateway.registry.providers[key].behaviour) else None
    }

    ghost function WorldOf(job: Job): World
      reads gateway.registry
    {
      World(Eligible(job), ProviderOf(job.subject.providerKey))
    }

    /** The specification of a send, in terms of what the policies answer. */
    lemma SendMeans(docs: Store, job: Job, intentId: string, correlationId: string, world: World, times: Times)
      requires StoreInv(docs) && JobOk(job) && world.eligible == Eligible(job)
      ensures var e := SendEffect(docs, job, intentId, correlationId, world, times);
              && (e.sent != [] ==> Allows(job))
              && (Proceeds(docs, job, intentId, correlationId) ==>
                    && Decided(job, e.docs, e.outcome)
                    && (CannotTell(job) ==> e.docs == Stored(docs, job, intentId, correlationId, times).0))
    {
      hide StoreInv, JobOk, SendEffect, Proceeds, RejectedByPolicy, Dispatched, Eligible, Allows, Refuses, CannotTell;
      EligibleIffAllowed(job);
      if Proceeds(docs, job, intentId, correlationId) {
        SendDecides(docs, job, intentId, correlationId, world, times);
      } else {
        AnswersIff(docs, job, intentId, correlationId, world, times);
      }
    }

    lemma ContinueMeans(docs: Store, i: nat, job: Job, created: bool, world: World, times: Times)
      requires StoreInv(docs) && JobOk(job) && Where(docs, job) == Some(i) && world.eligible == Eligible(job)
      ensures var e := Continue(docs, i, job, created, world, times);
              && (e.sent != [] ==> Allows(job))
              && (SameRequest(job, docs[i].intent) && docs[i].intent.state.Pending?
                  && (created || !IsSensitive(job)) ==>
                    Decided(job, e.docs, e.outcome) && (CannotTell(job) ==> e.docs == docs))
    {
      hide NonBlank, FingerprintOf, JobOk, RejectedByPolicy, Dispatched, Eligible, Allows, Refuses, CannotTell,
        ResultOf, WellFormed;
      EligibleIffAllowed(job);
      if SameRequest(job, docs[i].intent) && docs[i].intent.state.Pending? && (created || !IsSensitive(job)) {
        ContinueDecides(docs, i, job, created, world, times);
        ContinueKeepsStore(docs, i, job, created, world, times);
        FindUnique(Continue(docs, i, job, created, world, times).docs, ByScope(job.Scope()), i);
      }
    }

    ghost function ReceivedBy(key: string): seq<MessageRequest>
      reads gateway.registry, gateway.Selected(key)
    {
      if key in gateway.registry.providers then gateway.registry.providers[key].received else []
    }

    /** What the provider that the job selects has received. */
    ghost function Received(job: Job): seq<MessageRequest>
      reads gateway.registry, gateway.Selected(job.subject.providerKey)
    {
      ReceivedBy(job.subject.providerKey)
    }

    method ResolveClaimRace(intent: MessageIntent, now: nat) returns (outcome: Outcome)
      ensures Finished(outcome) ==
              AfterRace(intent, Linearization.Alone(repository.collection.docs, GetRead(intent.Key()), now).pc.response)
    {
      var response := repository.Get(intent.Key(), now);
      match response
      case Found(None) => return Failed(BadIntentState);
      case Found(Some(current)) =>
        if current.requestFingerprint != intent.requestFingerprint {
          return Failed(IdempotencyConflict);
        }
        if current.state.IsTerminal() {
          return if current.result.Some? then Result(current.result.value.(idempotentReplay := true))
            else Failed(BadIntentState);
        }
        return Failed(InProgress);
      case _ => return Failed(Dependency);
    }

    method CompleteLocalRejection(ghost i: nat, intent: MessageIntent, now: nat) returns (outcome: Outcome)
      requires Valid() && i < |repository.collection.docs| && repository.collection.docs[i].intent == intent
      requires intent.state.Pending?
      modifies repository.collection
      ensures repository.collection.docs ==
              old(repository.collection.docs)[i := CompletedDoc(old(repository.collection.docs)[i], None,
                                                                DeniedResult(intent), now)]
      ensures outcome == Result(DeniedResult(intent))
    {
      NamesOfStored(repository.collection.docs, i);
      LocalResultsAreValid(intent);
      MongoRepository.RejectsAlone(repository.collection.docs, i, DeniedResult(intent), now);
      var response := repository.CompleteIntent(intent.intentId, Pending, DeniedResult(intent), now);
      match response
      case Found(Some(completed)) =>
        return if completed.result.Some? then Result(completed.result.value) else Failed(Dependency);
      case Found(None) => outcome := ResolveClaimRace(intent, now);
      case _ => return Failed(Dependency);
    }

    method CompleteClaimedIntent(
      ghost i: nat, intent: MessageIntent, result: DispatchResult, providerInvoked: bool, now: nat)
      returns (outcome: Outcome)
      requires StoreInv(repository.collection.docs) && i < |repository.collection.docs|
      requires repository.collection.docs[i].intent == intent && intent.state.Dispatching?
               && Expected(intent, result).Valid()
      modifies repository.collection
      ensures repository.collection.docs ==
              old(repository.collection.docs)[i := CompletedDoc(old(repository.collection.docs)[i], Some(0), result,
                                                                now)]
      ensures outcome == Result(result)
    {
      MongoRepository.CompletesAlone(repository.collection.docs, i, result, now);
      var response := repository.CompleteIntent(intent.intentId, Dispatching, result, now);
      if response != Found(Some(Expected(intent, result))) {
        return Failed(if providerInvoked then PostDispatchPersistence else Dependency);
      }
      return Result(result);
    }

    /** `_dispatch_claimed`: the one call of the provider, and the completion with what came of it. */
    method DispatchClaimed(
      ghost i: nat, intent: MessageIntent, request: MessageRequest, ghost world: World, now: nat)
      returns (outcome: Outcome)
      requires StoreInv(repository.collection.docs) && i < |repository.collection.docs|
      requires repository.collection.docs[i].intent == intent && intent.state.Dispatching? && intent.Valid()
      requires request.correlationId == intent.correlationId && gateway.registry.Valid() && WellTyped(gateway.registry)
      requires world.provider == ProviderOf(intent.providerKey)
      modifies repository.collection, gateway.Selected(intent.providerKey)
      ensures var result := ResultOf(intent, request, world);
              && outcome == Result(result)
              && repository.collection.docs ==
                   old(repository.collection.docs)[i := CompletedDoc(old(repository.collection.docs)[i], Some(0),
                                                                     result, now)]
      ensures ReceivedBy(intent.providerKey) ==
              old(ReceivedBy(intent.providerKey)) + if world.provider.Some? then [request] else []
    {
      hide NonBlank, StoreInv, CompletedDoc, GatewayResult, UnregisteredResult, Reports, SaysUnregistered;
      var result, providerInvoked := Gateway.DispatchClaimed(gateway, intent, request);
      outcome := CompleteClaimedIntent(i, intent, result, providerInvoked, now);
    }

    /** `_continue_intent`, for the intent stored at `i`. */
    method ContinueIntent(
      ghost i: nat, intent: MessageIntent, job: Job, transient: Option<MessageRequest>, times: Times)
      returns (outcome: Outcome)
      requires Valid() && JobOk(job) && Where(repository.collection.docs, job) == Some(i)
      requires repository.collection.docs[i].intent == intent
      requires transient.Some? ==> IsSensitive(job) && transient.value == RequestFor(job, intent.correlationId)
      modifies repository.collection, gateway.Selected(job.subject.providerKey)
      ensures Effect(repository.collection.docs, outcome, Received(job)) ==
              var e := Continue(old(repository.collection.docs), i, job, transient.Some?, old(WorldOf(job)), times);
              e.(sent := old(Received(job)) + e.sent)
      ensures Received(job) != old(Received(job)) ==> Allows(job)
      ensures SameRequest(job, intent) && intent.state.Pending? && (transient.Some? || !IsSensitive(job)) ==>
                && Decided(job, repository.collection.docs, outcome)
                && (CannotTell(job) ==> repository.collection.docs == old(repository.collection.docs))
    {
      hide NonBlank, Fingerprint.RequestFingerprint, Serialization.Serialize, Serialization.Deserialize, OptionalText,
        OptionalError, OriginatedAt, WellFormed, DeniedResult, UnregisteredResult, UnknownResult, Decided, Allows,
        CannotTell, Reports, SaysUnregistered, GatewayResult;
      ghost var docs := repository.collection.docs;
      ContinueMeans(docs, i, job, transient.Some?, WorldOf(job), times);
      assert Received(job) + [] == Received(job);
      if intent.requestFingerprint != FingerprintOf(job) {
        return Failed(IdempotencyConflict);
      }
      NamesOfStored(docs, i);
      StoredRequest(docs, i, job);
      if intent.state.IsTerminal() {
        return if intent.result.Some? then Result(intent.result.value.(idempotentReplay := true))
          else Failed(BadIntentState);
      }
      if intent.state.Dispatching? {
        return Failed(InProgress);
      }
      var request: MessageRequest;
      if transient.Some? {
        request := transient.value;
      } else {
        var restored := Serialization.Deserialize(intent.serializedRequest);
        if restored.Err? {
          return Failed(Dependency);
        }
        request := restored.value;
      }
      var eligible := Eligible(job);
      if eligible.Err? {
        return Failed(Dependency);
      }
      if !eligible.value {
        outcome := CompleteLocalRejection(i, intent, times.completed);
        return;
      }
      MongoRepository.ClaimsAlone(docs, i, times.claimed);
      ClaimedIsValid(intent);
      var claimed := repository.ClaimIntent(intent.intentId, times.claimed);
      if !claimed.Found? {
        return Failed(Dependency);
      }
      if claimed.found == None {
        outcome := ResolveClaimRace(intent, times.claimed);
        return;
      }
      ClaimedKeepsStore(docs, i, times.claimed);
      outcome := DispatchClaimed(i, claimed.found.value, request, WorldOf(job), times.completed);
    }

    /** `_send`, its arguments checked and its identifiers generated. */
    method Send(job: Job, intentId: string, correlationId: string, times: Times) returns (outcome: Outcome)
      requires Valid() && JobOk(job)
      modifies repository.collection, gateway.Selected(job.subject.providerKey)
      ensures Effect(repository.collection.docs, outcome, Received(job)) ==
              var e := SendEffect(old(repository.collection.docs), job, intentId, correlationId, old(WorldOf(job)),
                                  times);
              e.(sent := old(Received(job)) + e.sent)
      ensures Received(job) != old(Received(job)) ==> Allows(job)
      ensures old(Proceeds(repository.collection.docs, job, intentId, correlationId)) ==>
                && Decided(job, repository.collection.docs, outcome)
                && (CannotTell(job) ==>
                      repository.collection.docs ==
                        Stored(old(repository.collection.docs), job, intentId, correlationId, times).0)
    {
      hide NonBlank, Fingerprint.RequestFingerprint, Serialization.Serialize, Serialization.Deserialize, OptionalText,
        OptionalError, OriginatedAt, WellFormed, Continue, StoreInv, JobOk, FingerprintOf, IsSensitive, Decided,
        Allows, Proceeds;
      ghost var docs := repository.collection.docs;
      SendMeans(docs, job, intentId, correlationId, WorldOf(job), times);
      assert Received(job) + [] == Received(job);
      GetsAlone(docs, job, times.created);
      var existing := repository.Get(job.Scope(), times.created);
      if !existing.Found? {
        return Failed(Dependency);
      }
      if existing.found.Some? {
        outcome := ContinueIntent(Where(docs, job).value, existing.found.value, job, None, times);
        return;
      }
      if !NonBlank(correlationId) || !NonBlank(intentId) {
        return Failed(InvalidArgument);
      }
      var request := RequestFor(job, correlationId);
      var intent := IntentFor(job, intentId, correlationId);
      IntentForIsValid(job, intentId, correlationId);
      MongoRepository.CreatesAlone(docs, intent, times.created);
      var creation := repository.CreateIfAbsent(intent, times.created);
      if !creation.Created? {
        return Failed(Dependency);
      }
      CreatedKeeps(docs, job, intentId, correlationId, times.created);
      PlainIsRestored(docs + [NewDoc(intent, times.created)], |docs|, job, WorldOf(job), times);
      outcome := ContinueIntent(|docs|, creation.intent, job,
                                if creation.created && IsSensitive(job) then Some(request) else None, times);
    }
  }

  lemma GetsAlone(docs: Store, job: Job, now: int)
    requires StoreInv(docs)
    ensures Linearization.Alone(docs, GetRead(job.Scope()), now) ==
            Step(docs, Returned(Found(if Where(docs, job) == None then None
                                      else Some(docs[Where(docs, job).value].intent))))
  {
    Linearization.AloneStep(docs, GetRead(job.Scope()), now);
  }

  /** A request without sensitive data is restored from storage, whoever created the intent. */
  lemma PlainIsRestored(docs: Store, i: nat, job: Job, world: World, times: Times)
    requires i < |docs| && JobOk(job)
    ensures !IsSensitive(job) ==>
              Continue(docs, i, job, false, world, times) == Continue(docs, i, job, true, world, times)
  {
  }

  lemma CreatedKeeps(docs: Store, job: Job, intentId: string, correlationId: string, now: nat)
    requires StoreInv(docs) && Originated(docs) && JobOk(job) && NonBlank(intentId) && NonBlank(correlationId)
    requires Where(docs, job) == None && !IdentityTaken(docs, IntentFor(job, intentId, correlationId))
    ensures var docs' := docs + [NewDoc(IntentFor(job, intentId, correlationId), now)];
            StoreInv(docs') && Originated(docs') && Where(docs', job) == Some(|docs|)
  {
    hide NonBlank, Fingerprint.RequestFingerprint, Serialization.Serialize;
    var intent := IntentFor(job, intentId, correlationId);
    var docs' := docs + [NewDoc(intent, now)];
    IntentForIsValid(job, intentId, correlationId);
    InsertKeepsStore(docs, intent, now);
    FindUnique(docs', ByScope(job.Scope()), |docs|);
    forall i | 0 <= i < |docs'| ensures OriginatedAt(docs', i) {
      if i < |docs| {
        assert OriginatedAt(docs, i);
      } else {
        assert OriginInv(docs'[i], job);
      }
    }
  }
}
