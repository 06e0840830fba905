// The value types of the package. Each `Valid` states what the constructor of the type checks.
module Contracts {
  import opened Wrappers
  import opened Text
  import Phone

  datatype SendDisposition = Accepted | Rejected | Unknown

  datatype IntentState = Pending | Dispatching | Accepted | Rejected | Unknown {
    predicate IsTerminal() {
      Accepted? || Rejected? || Unknown?
    }
  }

  datatype ErrorCategory =
    | Validation | Authentication | Authorization | RateLimit | ProviderTemporary | ProviderPermanent
    | Network | Timeout | Protocol | Unsupported | UnknownCategory

  /** The intent state that a disposition closes an intent into. */
  function TerminalState(disposition: SendDisposition): IntentState {
    match disposition
    case Accepted => IntentState.Accepted
    case Rejected => IntentState.Rejected
    case Unknown => IntentState.Unknown
  }

  predicate OptionalText(value: Option<string>) {
    value.Some? ==> NonBlank(value.value)
  }

  predicate OptionalRange(value: Option<int>, low: int, high: int) {
    value.Some? ==> low <= value.value <= high
  }

  datatype NormalizedError = NormalizedError(
    category: ErrorCategory,
    safeMessage: string,
    retriable: bool,
    unknownOutcome: bool,
    providerCode: Option<string>,
    httpStatus: Option<int>,
    providerSubcode: Option<int>,
    retryAfterSeconds: Option<int>)
  {
    predicate Valid() {
      && NonBlank(safeMessage)
      && OptionalText(providerCode)
      && OptionalRange(httpStatus, 100, 599)
      && OptionalRange(providerSubcode, 0, 2147483647)
      && OptionalRange(retryAfterSeconds, 0, 86400)
    }
  }

  predicate OptionalError(error: Option<NormalizedError>) {
    error.Some? ==> error.value.Valid()
  }

  datatype Parameter =
    | TextParameter(text: string)
    | SensitiveTextParameter(text: string)
    | ImageParameter(mediaId: string)
  {
    predicate Valid() {
      match this
      case TextParameter(t) => NonBlank(t)
      case SensitiveTextParameter(t) => NonBlank(t)
      case ImageParameter(id) => MediaId(id)
    }
  }

  /** A Meta media identifier: five to sixty-four digits, the first not zero. */
  predicate MediaId(id: string) {
    5 <= |id| <= 64 && AllDigits(id) && id[0] != '0'
  }

  datatype ComponentType = Header | Body | Button

  const URL := Some("url")

  datatype TemplateComponent = TemplateComponent(
    componentType: ComponentType,
    parameters: seq<Parameter>,
    subType: Option<string>,
    index: Option<int>)
  {
    predicate Valid() {
      && (forall p <- parameters :: p.Valid())
      && (if componentType.Button? then
            (subType == None && index == None) || IsUrlButton()
          else
            subType == None && index == None)
      && ((exists p <- parameters :: p.ImageParameter?) ==> componentType.Header? && |parameters| == 1)
    }

    predicate IsUrlButton() {
      componentType.Button? && subType == URL && index == Some(0)
    }
  }

  datatype TemplateReference = TemplateReference(name: string, languageCode: string) {
    predicate Valid() {
      NonBlank(name) && NonBlank(languageCode)
    }
  }

  datatype Message =
    | TextMessage(body: string)
    | TemplateMessage(template: TemplateReference, components: seq<TemplateComponent>)
  {
    predicate Valid() {
      match this
      case TextMessage(body) => NonBlank(body)
      case TemplateMessage(t, components) => t.Valid() && forall c <- components :: c.Valid()
    }
  }

  datatype MessageRequest = MessageRequest(
    recipient: string,
    message: Message,
    correlationId: string,
    idempotencyKey: string)
  {
    predicate Valid() {
      Phone.IsE164(recipient) && message.Valid() && NonBlank(correlationId) && NonBlank(idempotencyKey)
    }
  }

  /** What a provider adapter returns. */
  datatype SendResult = SendResult(
    providerKey: string,
    disposition: SendDisposition,
    correlationId: string,
    providerMessageId: Option<string>,
    providerStatus: Option<string>,
    error: Option<NormalizedError>)
  {
    predicate Valid() {
      && NonBlank(providerKey)
      && NonBlank(correlationId)
      && OptionalText(providerMessageId)
      && OptionalText(providerStatus)
      && OptionalError(error)
    }
  }

  /** What the service returns and the repository stores. */
  datatype DispatchResult = DispatchResult(
    intentId: string,
    providerKey: string,
    disposition: SendDisposition,
    correlationId: string,
    providerMessageId: Option<string>,
    providerStatus: Option<string>,
    error: Option<NormalizedError>,
    idempotentReplay: bool)
  {
    predicate Valid() {
      && NonBlank(intentId)
      && NonBlank(providerKey)
      && NonBlank(correlationId)
      && OptionalText(providerMessageId)
      && OptionalText(providerStatus)
      && OptionalError(error)
    }
  }

  /**
   * The digest of a request. SHA-256 and HMAC-SHA-256 are taken as ideal functions: different inputs,
   * and different functions, give different digests. A stored text that is neither is kept as it is.
   */
  datatype Digest = Sha256(input: string) | HmacSha256(key: seq<bv8>, input: string) | OtherText(text: string)

  /** The identity under which the caller asks for at most one dispatch. */
  datatype Scope = Scope(sourceFlow: string, idempotencyKey: string)

  datatype MessageIntent = MessageIntent(
    intentId: string,
    sourceFlow: string,
    idempotencyKey: string,
    actorId: string,
    providerKey: string,
    correlationId: string,
    requestFingerprint: Digest,
    serializedRequest: string,
    state: IntentState,
    result: Option<DispatchResult>)
  {
    function Key(): Scope {
      Scope(sourceFlow, idempotencyKey)
    }

    predicate Valid() {
      && NonBlank(intentId)
      && NonBlank(sourceFlow)
      && NonBlank(idempotencyKey)
      && NonBlank(actorId)
      && NonBlank(providerKey)
      && NonBlank(correlationId)
      && (requestFingerprint.OtherText? ==> NonBlank(requestFingerprint.text))
      && NonBlank(serializedRequest)
      && (if state.IsTerminal() then
            && result.Some?
            && result.value.Valid()
            && Matches(result.value)
            && state == TerminalState(result.value.disposition)
          else
            result == None)
    }

    /** The identity checks between an intent and a result offered for it. */
    predicate Matches(r: DispatchResult) {
      r.intentId == intentId && r.providerKey == providerKey && r.correlationId == correlationId
    }
  }
}
