// service.py: what a call of the service asks for, and the results the service itself makes.
module Service {
  import opened Wrappers
  import opened Text
  import opened Contracts
  import opened Fingerprint
  import L = SerializationLaws
  import Phone
  import Serialization
  import Templates

  datatype ServiceError =
    | InvalidArgument
    | UnknownTemplate
    | BadTemplateParameters
    | Dependency              // an injected policy or the repository failed
    | IdempotencyConflict
    | InProgress
    | BadIntentState
    | PostDispatchPersistence // the provider was called, its result could not be stored
    | BrokenContract          // a value refused by the constructor of MessageIntent

  /** The settings of one service instance. */
  datatype Config = Config(textProviderKey: string, defaultRegion: Option<string>, fingerprintKey: Option<seq<bv8>>)

  /** What the template catalog answers. */
  datatype Catalog = CatalogFails | NoAlias | Alias(alias: Templates.TemplateAlias)

  datatype SendCall =
    | SendTemplate(recipient: string, templateKey: string, catalog: Catalog, values: Templates.Values,
                   sourceFlow: string, idempotencyKey: string, actorId: string)
    | SendText(recipient: string, body: string, purposeKey: string,
               sourceFlow: string, idempotencyKey: string, actorId: string)

  /** What the types of the arguments already guarantee. */
  predicate Typed(config: Config, call: SendCall) {
    NonBlank(config.textProviderKey) && (call.SendTemplate? && call.catalog.Alias? ==> call.catalog.alias.Valid())
  }

  /** The arguments of `_send`, checked. */
  datatype Job = Job(
    subject: Subject,
    key: Option<seq<bv8>>,
    sourceFlow: string,
    idempotencyKey: string,
    actorId: string,
    purpose: Option<string>)
  {
    function Scope(): Scope {
      Contracts.Scope(sourceFlow, idempotencyKey)
    }

    /** The recipient and purpose of a text session. */
    function SessionKey(): Option<(string, string)> {
      if purpose.Some? then Some((subject.recipient, purpose.value)) else None
    }
  }

  function CheckJob(job: Job): Result<Job, ServiceError> {
    if !NonBlank(job.sourceFlow) || !NonBlank(job.idempotencyKey) || !NonBlank(job.actorId) then Err(InvalidArgument)
    else if RequestFingerprint(job.subject, job.key).Err? then Err(Dependency)
    else Ok(job)
  }

  /** `send_template` and `send_text` up to the first use of the repository. */
  function Prepare(config: Config, call: SendCall): Result<Job, ServiceError>
    requires Typed(config, call)
  {
    match Phone.Normalize(call.recipient, config.defaultRegion)
    case Err(_) => Err(InvalidArgument)
    case Ok(recipient) =>
      match call
      case SendTemplate(_, templateKey, catalog, values, flow, key, actor) =>
        if !NonBlank(templateKey) then Err(InvalidArgument)
        else
          (match catalog
           case CatalogFails => Err(Dependency)
           case NoAlias => Err(UnknownTemplate)
           case Alias(alias) =>
             match Templates.Build(alias, values)
             case Err(_) => Err(BadTemplateParameters)
             case Ok(message) =>
               var subject := Subject(recipient, alias.providerKey, message, "template", templateKey);
               CheckJob(Job(subject, config.fingerprintKey, flow, key, actor, None)))
      case SendText(_, body, purpose, flow, key, actor) =>
        if !NonBlank(purpose) || !NonBlank(body) then Err(InvalidArgument)
        else
          var subject := Subject(recipient, config.textProviderKey, TextMessage(body), "text", purpose);
          CheckJob(Job(subject, config.fingerprintKey, flow, key, actor, Some(purpose)))
  }

  /** What the rest of the service relies on. */
  predicate JobOk(job: Job) {
    && Phone.IsE164(job.subject.recipient)
    && job.subject.message.Valid() && L.UrlButtonsOnly(job.subject.message)
    && NonBlank(job.subject.providerKey)
    && NonBlank(job.sourceFlow) && NonBlank(job.idempotencyKey) && NonBlank(job.actorId)
    && RequestFingerprint(job.subject, job.key).Ok?
    && (if job.purpose.Some? then
          job.subject.operationKind == "text" && job.purpose.value == job.subject.operationKey
        else
          job.subject.operationKind == "template")
  }

  lemma PreparedJobIsOk(config: Config, call: SendCall)
    requires Typed(config, call) && Prepare(config, call).Ok?
    ensures JobOk(Prepare(config, call).value) && Asked(config, call, Prepare(config, call).value)
  {
    hide Describes, Addressed, Selects, Fingerprint.Preimage;
    PreparedAs(config, call, Prepare(config, call).value);
    Phone.NormalizedIsE164(call.recipient, config.defaultRegion);
    if call.SendTemplate? {
      Templates.BuildIff(call.catalog.alias, call.values);
    }
  }

  // ---- Exactly what is prepared ----

  /** The call's recipient stands for this number. */
  predicate Addressed(config: Config, call: SendCall, recipient: string) {
    recipient != [] && recipient[0] == '+' && Phone.Writes(call.recipient, config.defaultRegion, recipient[1..])
  }

  /** The message is the one the call describes. */
  predicate Describes(call: SendCall, message: Message) {
    match call
    case SendText(_, body, purpose, _, _, _) => NonBlank(purpose) && NonBlank(body) && message == TextMessage(body)
    case SendTemplate(_, templateKey, catalog, values, _, _, _) =>
      NonBlank(templateKey) && catalog.Alias? && Templates.Builds(catalog.alias, values, message)
  }

  /** The provider and the operation that the call selects. */
  predicate Selects(config: Config, call: SendCall, job: Job) {
    match call
    case SendText(_, _, purpose, _, _, _) =>
      && job.subject.providerKey == config.textProviderKey
      && job.subject.operationKind == "text" && job.subject.operationKey == purpose && job.purpose == Some(purpose)
    case SendTemplate(_, templateKey, catalog, _, _, _, _) =>
      && catalog.Alias? && job.subject.providerKey == catalog.alias.providerKey
      && job.subject.operationKind == "template" && job.subject.operationKey == templateKey && job.purpose == None
  }

  /** The job is what the call asks for, under the settings of the service. */
  predicate Asked(config: Config, call: SendCall, job: Job) {
    && Addressed(config, call, job.subject.recipient) && Describes(call, job.subject.message)
    && Selects(config, call, job) && job.key == config.fingerprintKey
    && job.sourceFlow == call.sourceFlow && job.idempotencyKey == call.idempotencyKey && job.actorId == call.actorId
  }

  predicate CallerIsNamed(call: SendCall) {
    NonBlank(call.sourceFlow) && NonBlank(call.idempotencyKey) && NonBlank(call.actorId)
  }

  /** The call stands for this number and message. */
  predicate Means(config: Config, call: SendCall, recipient: string, message: Message) {
    Addressed(config, call, recipient) && Describes(call, message)
  }

  /** What the service raises before it uses its repository, in the order of its checks. */
  ghost predicate Refused(config: Config, call: SendCall, error: ServiceError) {
    match error
    case InvalidArgument =>
      || (forall recipient :: !Addressed(config, call, recipient))
      || (call.SendTemplate? && !NonBlank(call.templateKey))
      || (call.SendText? && !(NonBlank(call.purposeKey) && NonBlank(call.body)))
      || (!CallerIsNamed(call) && exists recipient, message :: Means(config, call, recipient, message))
    case Dependency =>
      && (exists recipient :: Addressed(config, call, recipient))
      && ((call.SendTemplate? && NonBlank(call.templateKey) && call.catalog.CatalogFails?)
          || (CallerIsNamed(call) && config.fingerprintKey == None
              && exists message :: Describes(call, message) && L.ContainsSensitive(message)))
    case UnknownTemplate =>
      && (exists recipient :: Addressed(config, call, recipient))
      && call.SendTemplate? && NonBlank(call.templateKey) && call.catalog.NoAlias?
    case BadTemplateParameters =>
      && (exists recipient :: Addressed(config, call, recipient))
      && call.SendTemplate? && NonBlank(call.templateKey) && call.catalog.Alias?
      && forall message :: !Describes(call, message)
    case _ => false
  }

  lemma AddressedIff(config: Config, call: SendCall, recipient: string)
    ensures Addressed(config, call, recipient) <==>
            Phone.Normalize(call.recipient, config.defaultRegion) == Ok(recipient)
  {
    hide Phone.Normalize, Phone.Writes;
    var n := Phone.Normalize(call.recipient, config.defaultRegion);
    if recipient != [] && recipient[0] == '+' {
      assert recipient == "+" + recipient[1..];
      Phone.NormalizeIff(call.recipient, config.defaultRegion, recipient[1..]);
    }
    if n.Ok? {
      Phone.NormalizedIsE164(call.recipient, config.defaultRegion);
      Phone.NormalizeIff(call.recipient, config.defaultRegion, n.value[1..]);
    }
  }

  lemma DescribesIff(config: Config, call: SendCall, message: Message)
    requires Typed(config, call)
    ensures Describes(call, message) <==>
            if call.SendText? then NonBlank(call.purposeKey) && NonBlank(call.body) && message == TextMessage(call.body)
            else
              && NonBlank(call.templateKey) && call.catalog.Alias?
              && Templates.Build(call.catalog.alias, call.values) == Ok(message)
  {
    hide NonBlank, Templates.Build, Templates.Builds;
    if call.SendTemplate? && call.catalog.Alias? {
      Templates.BuildIff(call.catalog.alias, call.values);
    }
  }

  /**
   * A call is prepared exactly as the job that has its recipient's number, its message, its provider,
   * operation, session and names; and each refusal has exactly its condition.
   */
  lemma PrepareIff(config: Config, call: SendCall)
    requires Typed(config, call)
    ensures forall job :: Prepare(config, call) == Ok(job) <==>
              && Asked(config, call, job) && CallerIsNamed(call)
              && (L.ContainsSensitive(job.subject.message) ==> config.fingerprintKey.Some?)
    ensures forall error :: Prepare(config, call) == Err(error) <==> Refused(config, call, error)
  {
    forall job
      ensures Prepare(config, call) == Ok(job) <==>
              && Asked(config, call, job) && CallerIsNamed(call)
              && (L.ContainsSensitive(job.subject.message) ==> config.fingerprintKey.Some?)
    {
      PreparedAs(config, call, job);
    }
    forall error ensures Prepare(config, call) == Err(error) <==> Refused(config, call, error) {
      RefusedAs(config, call, error);
    }
  }

  lemma PreparedAs(config: Config, call: SendCall, job: Job)
    requires Typed(config, call)
    ensures Prepare(config, call) == Ok(job) <==>
            && Asked(config, call, job) && CallerIsNamed(call)
            && (L.ContainsSensitive(job.subject.message) ==> config.fingerprintKey.Some?)
  {
    hide NonBlank, Templates.Build, Describes, Addressed, Phone.Normalize, L.ContainsSensitive, Fingerprint.Preimage;
    AddressedIff(config, call, job.subject.recipient);
    DescribesIff(config, call, job.subject.message);
  }

  lemma RefusedAs(config: Config, call: SendCall, error: ServiceError)
    requires Typed(config, call)
    ensures Prepare(config, call) == Err(error) <==> Refused(config, call, error)
  {
    hide NonBlank, Templates.Build, Describes, Addressed, Phone.Normalize, L.ContainsSensitive, Fingerprint.Preimage;
    forall recipient
      ensures Addressed(config, call, recipient) <==>
              Phone.Normalize(call.recipient, config.defaultRegion) == Ok(recipient)
    {
      AddressedIff(config, call, recipient);
    }
    forall message
      ensures Describes(call, message) <==>
              if call.SendText? then NonBlank(call.purposeKey) && NonBlank(call.body)
                && message == TextMessage(call.body)
              else
                && NonBlank(call.templateKey) && call.catalog.Alias?
                && Templates.Build(call.catalog.alias, call.values) == Ok(message)
    {
      DescribesIff(config, call, message);
    }
    var number := Phone.Normalize(call.recipient, config.defaultRegion);
    if number.Ok? {
      assert Addressed(config, call, number.value);
      if call.SendText? {
        assert Means(config, call, number.value, TextMessage(call.body)) <==> Describes(call, TextMessage(call.body));
      } else if call.catalog.Alias? && Templates.Build(call.catalog.alias, call.values).Ok? {
        var message := Templates.Build(call.catalog.alias, call.values).value;
        assert Means(config, call, number.value, message) <==> Describes(call, message);
      }
    }
  }

  function FingerprintOf(job: Job): (digest: Digest)
    requires JobOk(job)
    ensures !digest.OtherText?
  {
    RequestFingerprint(job.subject, job.key).value
  }

  predicate IsSensitive(job: Job) {
    L.ContainsSensitive(job.subject.message)
  }

  /**
   * The jobs agree in recipient, provider, operation and message up to sensitivity marks and button
   * metadata, and in whether they have sensitive data, and then in the key of their fingerprints.
   */
  predicate Alike(a: Job, b: Job) {
    && a.subject.(message := Erase(a.subject.message)) == b.subject.(message := Erase(b.subject.message))
    && (IsSensitive(a) <==> IsSensitive(b))
    && (IsSensitive(a) ==> a.key == b.key)
  }

  function RequestFor(job: Job, correlationId: string): MessageRequest {
    MessageRequest(job.subject.recipient, job.subject.message, correlationId, job.idempotencyKey)
  }

  /** The intent that a run creates for its job. */
  function IntentFor(job: Job, intentId: string, correlationId: string): MessageIntent
    requires JobOk(job)
  {
    MessageIntent(intentId, job.sourceFlow, job.idempotencyKey, job.actorId, job.subject.providerKey, correlationId,
                  FingerprintOf(job), Serialization.Serialize(RequestFor(job, correlationId)), Pending, None)
  }

  lemma PrintedIsNotBlank(r: MessageRequest)
    ensures NonBlank(Serialization.Serialize(r))
  {
    var text := Serialization.Serialize(r);
    assert text[0] == '{';
  }

  lemma IntentForIsValid(job: Job, intentId: string, correlationId: string)
    requires JobOk(job) && NonBlank(intentId) && NonBlank(correlationId)
    ensures IntentFor(job, intentId, correlationId).Valid()
    ensures RequestFor(job, correlationId).Valid()
  {
    PrintedIsNotBlank(RequestFor(job, correlationId));
  }

  /**
   * Runs that share a fingerprint agree on the recipient, the provider and the operation, hence on
   * the session they need; and on the message itself, unless it carries sensitive data.
   */
  lemma SameFingerprint(a: Job, b: Job)
    requires JobOk(a) && JobOk(b) && FingerprintOf(a) == FingerprintOf(b)
    ensures a.subject.recipient == b.subject.recipient && a.subject.providerKey == b.subject.providerKey
    ensures a.purpose == b.purpose
    ensures IsSensitive(a) <==> IsSensitive(b)
    ensures !IsSensitive(a) ==> a.subject.message == b.subject.message
  {
    FingerprintsAgreeIff(a.subject, a.key, b.subject, b.key);
    assert "text" != "template";
    if !IsSensitive(a) {
      PlainMessagesAreDetermined(a.subject.message, b.subject.message);
    }
  }

  /**
   * A request restored from an intent that another run created is the request this run asked for,
   * under the stored correlation identifier. A sensitive one is never restored.
   */
  lemma RestoredRequest(origin: Job, job: Job, correlationId: string)
    requires JobOk(origin) && JobOk(job) && FingerprintOf(origin) == FingerprintOf(job) && NonBlank(correlationId)
    requires origin.idempotencyKey == job.idempotencyKey
    ensures Serialization.Deserialize(Serialization.Serialize(RequestFor(origin, correlationId))) ==
            if IsSensitive(job) then Err(Serialization.SensitiveUnavailable) else Ok(RequestFor(job, correlationId))
  {
    SameFingerprint(origin, job);
    IntentForIsValid(origin, "id", correlationId);
    L.SensitiveIsUnavailable(RequestFor(origin, correlationId));
  }

  // ---- Results that the service makes ----

  function LocalError(category: ErrorCategory, message: string, unknown: bool): NormalizedError {
    NormalizedError(category, message, false, unknown, None, None, None, None)
  }

  function ResultFor(
    intent: MessageIntent, disposition: SendDisposition, status: Option<string>,
    error: NormalizedError): DispatchResult
  {
    DispatchResult(intent.intentId, intent.providerKey, disposition, intent.correlationId, None, status, Some(error),
                   false)
  }

  function DeniedResult(intent: MessageIntent): DispatchResult {
    ResultFor(intent, SendDisposition.Rejected, Some("policy_rejected"),
              LocalError(Authorization, "Messaging policy denied the request", false))
  }

  function UnregisteredResult(intent: MessageIntent): DispatchResult {
    ResultFor(intent, SendDisposition.Rejected, Some("provider_not_registered"),
              LocalError(Unsupported, "Selected messaging provider is unavailable", false))
  }

  function UnknownResult(intent: MessageIntent): DispatchResult {
    ResultFor(intent, SendDisposition.Unknown, None, LocalError(UnknownCategory, "Dispatch outcome is unknown", true))
  }

  function RecoveredResult(intent: MessageIntent): DispatchResult {
    ResultFor(intent, SendDisposition.Unknown, Some("stale_dispatch_recovered"),
              LocalError(UnknownCategory, "Dispatch outcome is unknown after stale recovery", true))
  }

  lemma StartsWithText(s: string)
    requires s != [] && !IsSpace(s[0])
    ensures NonBlank(s)
  {
  }

  lemma ResultForIsValid(intent: MessageIntent, disposition: SendDisposition, status: string, error: NormalizedError)
    requires NonBlank(intent.intentId) && NonBlank(intent.providerKey) && NonBlank(intent.correlationId)
    requires status != [] && !IsSpace(status[0]) && error.safeMessage != [] && !IsSpace(error.safeMessage[0])
    requires error == LocalError(error.category, error.safeMessage, error.unknownOutcome)
    ensures ResultFor(intent, disposition, Some(status), error).Valid()
    ensures ResultFor(intent, disposition, None, error).Valid()
    ensures intent.Matches(ResultFor(intent, disposition, Some(status), error))
    ensures intent.Matches(ResultFor(intent, disposition, None, error))
  {
    StartsWithText(status);
    StartsWithText(error.safeMessage);
  }

  lemma LocalResultsAreValid(intent: MessageIntent)
    requires NonBlank(intent.intentId) && NonBlank(intent.providerKey) && NonBlank(intent.correlationId)
    ensures DeniedResult(intent).Valid() && intent.Matches(DeniedResult(intent))
    ensures UnregisteredResult(intent).Valid() && intent.Matches(UnregisteredResult(intent))
    ensures UnknownResult(intent).Valid() && intent.Matches(UnknownResult(intent))
    ensures RecoveredResult(intent).Valid() && intent.Matches(RecoveredResult(intent))
  {
    ResultForIsValid(intent, SendDisposition.Rejected, "policy_rejected", DeniedResult(intent).error.value);
    ResultForIsValid(intent, SendDisposition.Rejected, "provider_not_registered",
                     UnregisteredResult(intent).error.value);
    ResultForIsValid(intent, SendDisposition.Unknown, "stale_dispatch_recovered", UnknownResult(intent).error.value);
    ResultForIsValid(intent, SendDisposition.Unknown, "stale_dispatch_recovered", RecoveredResult(intent).error.value);
  }

  /** What the registered provider does with a request. */
  datatype ProviderAnswer = Answers(result: SendResult) | Raises | RaisesNotFound

  /**
   * `MessagingGateway.send` for a registered provider, and the handling of its exceptions: an answer
   * with another identity, and an adapter that raises anything at all, leave the outcome unknown.
   */
  function GatewayResult(intent: MessageIntent, request: MessageRequest, answer: ProviderAnswer): DispatchResult {
    if answer.Answers? && answer.result.Valid() && answer.result.providerKey == intent.providerKey
       && answer.result.correlationId == request.correlationId
    then
      var r := answer.result;
      DispatchResult(intent.intentId, r.providerKey, r.disposition, r.correlationId, r.providerMessageId,
                     r.providerStatus, r.error, false)
    else UnknownResult(intent)
  }

  /** What the result of a local decision says, field by field. */
  predicate SaysLocally(
    intent: MessageIntent, r: DispatchResult, disposition: SendDisposition, status: Option<string>,
    category: ErrorCategory, message: string, unknownOutcome: bool)
  {
    && r.intentId == intent.intentId && r.providerKey == intent.providerKey && r.correlationId == intent.correlationId
    && r.disposition == disposition && r.providerStatus == status && r.providerMessageId == None && !r.idempotentReplay
    && r.error.Some? && r.error.value.category == category && r.error.value.safeMessage == message
    && !r.error.value.retriable && r.error.value.unknownOutcome == unknownOutcome
    && r.error.value.providerCode == None && r.error.value.httpStatus == None
    && r.error.value.providerSubcode == None && r.error.value.retryAfterSeconds == None
  }

  predicate SaysRejectedByPolicy(intent: MessageIntent, r: DispatchResult) {
    SaysLocally(intent, r, SendDisposition.Rejected, Some("policy_rejected"), Authorization,
                "Messaging policy denied the request", false)
  }

  predicate SaysUnregistered(intent: MessageIntent, r: DispatchResult) {
    SaysLocally(intent, r, SendDisposition.Rejected, Some("provider_not_registered"), Unsupported,
                "Selected messaging provider is unavailable", false)
  }

  predicate SaysRecovered(intent: MessageIntent, r: DispatchResult) {
    SaysLocally(intent, r, SendDisposition.Unknown, Some("stale_dispatch_recovered"), UnknownCategory,
                "Dispatch outcome is unknown after stale recovery", true)
  }

  lemma LocalResultsSay(intent: MessageIntent)
    ensures SaysRejectedByPolicy(intent, DeniedResult(intent))
    ensures SaysUnregistered(intent, UnregisteredResult(intent))
    ensures SaysRecovered(intent, RecoveredResult(intent))
  {
  }

  /** The results of the service name the intent, whatever its state. */
  lemma ResultsIgnoreState(intent: MessageIntent, state: IntentState, result: Option<DispatchResult>)
    ensures var other := intent.(state := state, result := result);
            && DeniedResult(other) == DeniedResult(intent) && UnregisteredResult(other) == UnregisteredResult(intent)
            && UnknownResult(other) == UnknownResult(intent) && RecoveredResult(other) == RecoveredResult(intent)
  {
  }

  /** The provider has answered with a result, for this intent's provider and this request. */
  predicate Answered(intent: MessageIntent, request: MessageRequest, answer: ProviderAnswer) {
    answer.Answers?
    && var r := answer.result;
       && r.providerKey == intent.providerKey && r.correlationId == request.correlationId
       && NonBlank(r.providerKey) && NonBlank(r.correlationId)
       && (r.providerMessageId.Some? ==> NonBlank(r.providerMessageId.value))
       && (r.providerStatus.Some? ==> NonBlank(r.providerStatus.value))
       && (r.error.Some? ==> r.error.value.Valid())
  }

  /** The result tells what the provider answered; whatever else the provider did, the outcome is unknown. */
  predicate Reports(intent: MessageIntent, request: MessageRequest, answer: ProviderAnswer, r: DispatchResult) {
    if Answered(intent, request, answer) then
      && r.intentId == intent.intentId && r.providerKey == intent.providerKey
      && r.correlationId == request.correlationId && !r.idempotentReplay
      && r.disposition == answer.result.disposition && r.providerMessageId == answer.result.providerMessageId
      && r.providerStatus == answer.result.providerStatus && r.error == answer.result.error
    else
      SaysLocally(intent, r, SendDisposition.Unknown, None, UnknownCategory, "Dispatch outcome is unknown", true)
  }

  lemma GatewayReports(intent: MessageIntent, request: MessageRequest, answer: ProviderAnswer)
    ensures Reports(intent, request, answer, GatewayResult(intent, request, answer))
  {
  }

  lemma AnswersIgnoreState(
    intent: MessageIntent, state: IntentState, result: Option<DispatchResult>, request: MessageRequest,
    answer: ProviderAnswer)
    ensures GatewayResult(intent.(state := state, result := result), request, answer) ==
            GatewayResult(intent, request, answer)
  {
    ResultsIgnoreState(intent, state, result);
  }

  /** The terminal intent that `_complete_claimed_intent` expects to be stored. */
  function Expected(intent: MessageIntent, result: DispatchResult): MessageIntent {
    intent.(state := TerminalState(result.disposition), result := Some(result))
  }

  /** Whatever the provider does, the expected terminal intent passes the checks of `MessageIntent`. */
  lemma ExpectedIsValid(intent: MessageIntent, request: MessageRequest, answer: ProviderAnswer)
    requires intent.Valid() && request.correlationId == intent.correlationId
    ensures Expected(intent, GatewayResult(intent, request, answer)).Valid()
    ensures Expected(intent, UnregisteredResult(intent)).Valid()
    ensures Expected(intent, DeniedResult(intent)).Valid()
  {
    LocalResultsAreValid(intent);
  }
}
