// persistence/mongo.py: intents as the documents that the collection holds, field by field, and the
// repository's operations on them. The typed documents of IntentRecords stand for these.
module IntentDocuments {
  import opened Wrappers
  import opened Text
  import opened Contracts
  import opened IntentRecords

  // ---- Documents ----

  /** The field names in use. */
  datatype Field =
    | RecordSchemaVersion | IntentId | SourceFlow | IdempotencyKey | ActorId | ProviderKey | CorrelationId
    | RequestFingerprint | SerializedRequest | State | StoredResult | CreatedAtEpoch | UpdatedAtEpoch
    | DispatchStartedAtEpoch | CompletedAtEpoch | AttemptCount | Attempts | AttemptNumber | StartedAtEpoch
    | Disposition | ProviderMessageId | ProviderStatus | StoredError | IdempotentReplay | Category | SafeMessage
    | Retriable | UnknownOutcome | ProviderCode | HttpStatus | ProviderSubcode | RetryAfterSeconds

  /** A field may be absent or hold anything; a digest stands for its hexadecimal text. */
  datatype Value =
    | Null
    | Flag(flag: bool)
    | Number(number: int)
    | Double(value: real)
    | Str(text: string)
    | Hash(digest: HexDigest)
    | List(items: seq<Value>)
    | Nested(fields: map<Field, Value>)

  type Fields = map<Field, Value>

  /** A digest of this package, in hexadecimal. */
  type HexDigest = d: Digest | !d.OtherText? witness Sha256("")

  /** `document.get` */
  function FieldOf(d: Fields, f: Field): Value {
    if f in d then d[f] else Null
  }

  // ---- Wire names ----

  function StateName(s: IntentState): string {
    match s
    case Pending => "pending"
    case Dispatching => "dispatching"
    case Accepted => "accepted"
    case Rejected => "rejected"
    case Unknown => "unknown"
  }

  function StateOf(name: string): Option<IntentState> {
    if name == "pending" then Some(Pending)
    else if name == "dispatching" then Some(Dispatching)
    else if name == "accepted" then Some(IntentState.Accepted)
    else if name == "rejected" then Some(IntentState.Rejected)
    else if name == "unknown" then Some(IntentState.Unknown)
    else None
  }

  function DispositionName(d: SendDisposition): string {
    StateName(TerminalState(d))
  }

  function DispositionOf(name: string): Option<SendDisposition> {
    if name == "accepted" then Some(SendDisposition.Accepted)
    else if name == "rejected" then Some(SendDisposition.Rejected)
    else if name == "unknown" then Some(SendDisposition.Unknown)
    else None
  }

  function CategoryName(c: ErrorCategory): string {
    match c
    case Validation => "validation"
    case Authentication => "authentication"
    case Authorization => "authorization"
    case RateLimit => "rate_limit"
    case ProviderTemporary => "provider_temporary"
    case ProviderPermanent => "provider_permanent"
    case Network => "network"
    case Timeout => "timeout"
    case Protocol => "protocol"
    case Unsupported => "unsupported"
    case UnknownCategory => "unknown"
  }

  function CategoryOf(name: string): Option<ErrorCategory> {
    if name == "validation" then Some(Validation)
    else if name == "authentication" then Some(Authentication)
    else if name == "authorization" then Some(Authorization)
    else if name == "rate_limit" then Some(RateLimit)
    else if name == "provider_temporary" then Some(ProviderTemporary)
    else if name == "provider_permanent" then Some(ProviderPermanent)
    else if name == "network" then Some(Network)
    else if name == "timeout" then Some(Timeout)
    else if name == "protocol" then Some(Protocol)
    else if name == "unsupported" then Some(Unsupported)
    else if name == "unknown" then Some(UnknownCategory)
    else None
  }

  /** A name is read as a state exactly if it is that state's name; every other name is refused. */
  lemma StateNamesInvert(name: string, s: IntentState)
    ensures StateOf(name) == Some(s) <==> name == StateName(s)
    ensures NonBlank(StateName(s))
  {
  }

  lemma DispositionNamesInvert(name: string, d: SendDisposition)
    ensures DispositionOf(name) == Some(d) <==> name == DispositionName(d)
    ensures NonBlank(DispositionName(d))
  {
  }

  lemma CategoryNamesInvert(name: string, c: ErrorCategory)
    ensures CategoryOf(name) == Some(c) <==> name == CategoryName(c)
    ensures NonBlank(CategoryName(c))
  {
    hide NonBlank;
    CategoryHasName(c);
  }

  lemma CategoryHasName(c: ErrorCategory)
    ensures NonBlank(CategoryName(c))
  {
    assert CategoryName(c) != [] && !IsSpace(CategoryName(c)[0]);
  }

  // ---- Reading fields ----

  function ReadText(d: Fields, f: Field): Result<string, RecordError> {
    match FieldOf(d, f)
    case Str(text) => if NonBlank(text) then Ok(text) else Err(RecordError)
    case _ => Err(RecordError)
  }

  function ReadOptionalText(d: Fields, f: Field): Result<Option<string>, RecordError> {
    if FieldOf(d, f).Null? then Ok(None)
    else
      var text :- ReadText(d, f);
      Ok(Some(text))
  }

  function ReadInt(d: Fields, f: Field, minimum: int): Result<int, RecordError> {
    match FieldOf(d, f)
    case Number(n) => if n >= minimum then Ok(n) else Err(RecordError)
    case _ => Err(RecordError)
  }

  function ReadOptionalInt(d: Fields, f: Field): Result<Option<int>, RecordError> {
    if FieldOf(d, f).Null? then Ok(None)
    else
      var n :- ReadInt(d, f, 0);
      Ok(Some(n))
  }

  function ReadFlag(d: Fields, f: Field): Result<bool, RecordError> {
    match FieldOf(d, f)
    case Flag(b) => Ok(b)
    case _ => Err(RecordError)
  }

  function ReadDigest(d: Fields, f: Field): Result<Digest, RecordError> {
    match FieldOf(d, f)
    case Hash(digest) => Ok(digest)
    case Str(text) => if NonBlank(text) then Ok(OtherText(text)) else Err(RecordError)
    case _ => Err(RecordError)
  }

  function Known<T>(value: Option<T>): Result<T, RecordError> {
    match value
    case Some(v) => Ok(v)
    case None => Err(RecordError)
  }

  /** The comparison with 1 also holds of true and of the double 1.0. */
  predicate SchemaSupported(d: Fields) {
    FieldOf(d, RecordSchemaVersion) in {Number(RECORD_SCHEMA_VERSION), Flag(true), Double(1.0)}
  }

  // ---- Reading records ----

  /** `_error_from_document` */
  function ReadError(v: Value): Result<Option<NormalizedError>, RecordError> {
    match v
    case Null => Ok(None)
    case Nested(d) =>
      var name :- ReadText(d, Category);
      var category :- Known(CategoryOf(name));
      var safeMessage :- ReadText(d, SafeMessage);
      var retriable :- ReadFlag(d, Retriable);
      var unknownOutcome :- ReadFlag(d, UnknownOutcome);
      var providerCode :- ReadOptionalText(d, ProviderCode);
      var httpStatus :- ReadOptionalInt(d, HttpStatus);
      var providerSubcode :- ReadOptionalInt(d, ProviderSubcode);
      var retryAfterSeconds :- ReadOptionalInt(d, RetryAfterSeconds);
      var error := NormalizedError(category, safeMessage, retriable, unknownOutcome, providerCode, httpStatus,
                                   providerSubcode, retryAfterSeconds);
      if error.Valid() then Ok(Some(error)) else Err(RecordError)
    case _ => Err(RecordError)
  }

  /** `_result_from_document` */
  function ReadResult(v: Value): Result<DispatchResult, RecordError> {
    match v
    case Nested(d) =>
      var intentId :- ReadText(d, IntentId);
      var providerKey :- ReadText(d, ProviderKey);
      var name :- ReadText(d, Disposition);
      var disposition :- Known(DispositionOf(name));
      var correlationId :- ReadText(d, CorrelationId);
      var providerMessageId :- ReadOptionalText(d, ProviderMessageId);
      var providerStatus :- ReadOptionalText(d, ProviderStatus);
      var error :- ReadError(FieldOf(d, StoredError));
      var idempotentReplay :- ReadFlag(d, IdempotentReplay);
      var result := DispatchResult(intentId, providerKey, disposition, correlationId, providerMessageId, providerStatus,
                                   error, idempotentReplay);
      if result.Valid() then Ok(result) else Err(RecordError)
    case _ => Err(RecordError)
  }

  function ReadOptionalResult(v: Value): Result<Option<DispatchResult>, RecordError> {
    if v.Null? then Ok(None)
    else
      var result :- ReadResult(v);
      Ok(Some(result))
  }

  predicate DispositionReadable(a: Fields) {
    var name := ReadOptionalText(a, Disposition);
    name.Ok? && (name.value.Some? ==> DispositionOf(name.value.value).Some?)
  }

  predicate AttemptReadable(v: Value, number: int) {
    match v
    case Nested(a) =>
      && ReadInt(a, AttemptNumber, 1) == Ok(number)
      && ReadInt(a, StartedAtEpoch, 0).Ok?
      && ReadOptionalInt(a, CompletedAtEpoch).Ok?
      && ReadText(a, State).Ok?
      && DispositionReadable(a)
      && ReadOptionalText(a, ProviderMessageId).Ok?
      && ReadOptionalText(a, ProviderStatus).Ok?
      && ReadError(FieldOf(a, StoredError)).Ok?
    case _ => false
  }

  predicate AttemptsReadable(d: Fields) {
    match FieldOf(d, Attempts)
    case List(items) =>
      ReadInt(d, AttemptCount, 0) == Ok(|items|) && forall i :: 0 <= i < |items| ==> AttemptReadable(items[i], i + 1)
    case _ => false
  }

  /** The loop of `_validate_attempts`: the attempts are counted, numbered from one, and each is readable. */
  method ValidateAttempts(d: Fields) returns (valid: bool)
    ensures valid <==> GoodAttempts(d)
  {
    hide GoodAttempts;
    GoodAttemptsIff(d);
    var attempts := FieldOf(d, Attempts);
    if !attempts.List? {
      return false;
    }
    var count := ReadInt(d, AttemptCount, 0);
    if count.Err? || |attempts.items| != count.value {
      return false;
    }
    for i := 0 to |attempts.items|
      invariant forall k :: 0 <= k < i ==> AttemptReadable(attempts.items[k], k + 1)
    {
      if !AttemptReadable(attempts.items[i], i + 1) {
        return false;
      }
    }
    return true;
  }

  /** `_intent_from_document` */
  function ReadIntent(v: Value): Result<MessageIntent, RecordError> {
    match v
    case Nested(d) =>
      if !SchemaSupported(d) || !AttemptsReadable(d) then Err(RecordError)
      else
        var name :- ReadText(d, State);
        var state :- Known(StateOf(name));
        var result :- ReadOptionalResult(FieldOf(d, StoredResult));
        var intentId :- ReadText(d, IntentId);
        var sourceFlow :- ReadText(d, SourceFlow);
        var idempotencyKey :- ReadText(d, IdempotencyKey);
        var actorId :- ReadText(d, ActorId);
        var providerKey :- ReadText(d, ProviderKey);
        var correlationId :- ReadText(d, CorrelationId);
        var requestFingerprint :- ReadDigest(d, RequestFingerprint);
        var serializedRequest :- ReadText(d, SerializedRequest);
        var intent := MessageIntent(intentId, sourceFlow, idempotencyKey, actorId, providerKey, correlationId,
                                    requestFingerprint, serializedRequest, state, result);
        if intent.Valid() then Ok(intent) else Err(RecordError)
    case _ => Err(RecordError)
  }

  // ---- Writing records ----

  function WriteText(value: Option<string>): Value {
    if value.Some? then Str(value.value) else Null
  }

  function WriteInt(value: Option<int>): Value {
    if value.Some? then Number(value.value) else Null
  }

  function WriteDigest(digest: Digest): Value {
    if digest.OtherText? then Str(digest.text) else Hash(digest)
  }

  /** `_error_to_document` */
  function WriteError(error: Option<NormalizedError>): Value {
    match error
    case None => Null
    case Some(e) => Nested(map[
      Category := Str(CategoryName(e.category)),
      SafeMessage := Str(e.safeMessage),
      Retriable := Flag(e.retriable),
      UnknownOutcome := Flag(e.unknownOutcome),
      ProviderCode := WriteText(e.providerCode),
      HttpStatus := WriteInt(e.httpStatus),
      ProviderSubcode := WriteInt(e.providerSubcode),
      RetryAfterSeconds := WriteInt(e.retryAfterSeconds)])
  }

  /** `_result_to_document` */
  function WriteResult(r: DispatchResult): Value {
    Nested(map[
      IntentId := Str(r.intentId),
      ProviderKey := Str(r.providerKey),
      Disposition := Str(DispositionName(r.disposition)),
      CorrelationId := Str(r.correlationId),
      ProviderMessageId := WriteText(r.providerMessageId),
      ProviderStatus := WriteText(r.providerStatus),
      StoredError := WriteError(r.error),
      IdempotentReplay := Flag(r.idempotentReplay)])
  }

  function WriteOptionalResult(r: Option<DispatchResult>): Value {
    if r.Some? then WriteResult(r.value) else Null
  }

  /** `_intent_to_document` */
  function WriteIntent(intent: MessageIntent, now: int): Fields {
    map[
      RecordSchemaVersion := Number(RECORD_SCHEMA_VERSION),
      IntentId := Str(intent.intentId),
      SourceFlow := Str(intent.sourceFlow),
      IdempotencyKey := Str(intent.idempotencyKey),
      ActorId := Str(intent.actorId),
      ProviderKey := Str(intent.providerKey),
      CorrelationId := Str(intent.correlationId),
      RequestFingerprint := WriteDigest(intent.requestFingerprint),
      SerializedRequest := Str(intent.serializedRequest),
      State := Str(StateName(Pending)),
      StoredResult := Null,
      CreatedAtEpoch := Number(now),
      UpdatedAtEpoch := Number(now),
      DispatchStartedAtEpoch := Null,
      CompletedAtEpoch := Null,
      AttemptCount := Number(0),
      Attempts := List([])]
  }

  // ---- Updates ----

  /** `$inc` by one. */
  function Increment(d: Fields, f: Field): Fields {
    if FieldOf(d, f).Number? then d[f := Number(d[f].number + 1)] else d
  }

  /** `$push` */
  function Push(d: Fields, f: Field, v: Value): Fields {
    if FieldOf(d, f).List? then d[f := List(d[f].items + [v])] else d
  }

  /** `$set` of fields of the attempt at an index. */
  function SetAttempt(d: Fields, i: nat, changes: Fields): Fields {
    if FieldOf(d, Attempts).List? && i < |d[Attempts].items| && d[Attempts].items[i].Nested? then
      d[Attempts := List(d[Attempts].items[i := Nested(d[Attempts].items[i].fields + changes)])]
    else d
  }

  /** The new attempt of `claim`. */
  function NewAttempt(number: int, now: int): Value {
    Nested(map[
      AttemptNumber := Number(number),
      StartedAtEpoch := Number(now),
      CompletedAtEpoch := Null,
      State := Str(StateName(Dispatching)),
      Disposition := Null,
      ProviderMessageId := Null,
      ProviderStatus := Null,
      StoredError := Null])
  }

  /** The update of `claim`. */
  function ClaimUpdate(d: Fields, attemptCount: int, now: int): Fields {
    var changed := d + map[
      State := Str(StateName(Dispatching)),
      UpdatedAtEpoch := Number(now),
      DispatchStartedAtEpoch := Number(now)];
    Push(Increment(changed, AttemptCount), Attempts, NewAttempt(attemptCount + 1, now))
  }

  /** `_attempt_result_fields`, and the time of completion. */
  function AttemptChanges(r: DispatchResult, now: int): Fields {
    map[
      State := Str(DispositionName(r.disposition)),
      Disposition := Str(DispositionName(r.disposition)),
      ProviderMessageId := WriteText(r.providerMessageId),
      ProviderStatus := WriteText(r.providerStatus),
      StoredError := WriteError(r.error),
      CompletedAtEpoch := Number(now)]
  }

  /** The update of `complete`. */
  function CompletionUpdate(d: Fields, attempt: Option<nat>, r: DispatchResult, now: int): Fields {
    var changed := d + map[
      State := Str(StateName(TerminalState(r.disposition))),
      StoredResult := WriteResult(r),
      UpdatedAtEpoch := Number(now),
      CompletedAtEpoch := Number(now)];
    if attempt.Some? then SetAttempt(changed, attempt.value, AttemptChanges(r, now)) else changed
  }

  // ---- The typed documents stand for these ----

  function AttemptFields(a: Attempt): Fields {
    map[
      AttemptNumber := Number(a.number),
      StartedAtEpoch := Number(a.startedAt),
      CompletedAtEpoch := WriteInt(a.completedAt),
      State := Str(StateName(a.state)),
      Disposition := if a.disposition.Some? then Str(DispositionName(a.disposition.value)) else Null,
      ProviderMessageId := WriteText(a.providerMessageId),
      ProviderStatus := WriteText(a.providerStatus),
      StoredError := WriteError(a.error)]
  }

  function AttemptList(attempts: seq<Attempt>): seq<Value> {
    seq(|attempts|, i requires 0 <= i < |attempts| => Nested(AttemptFields(attempts[i])))
  }

  /** The document that a typed document stands for. */
  function Stored(d: Doc): Fields {
    map[
      RecordSchemaVersion := Number(d.schemaVersion),
      IntentId := Str(d.intent.intentId),
      SourceFlow := Str(d.intent.sourceFlow),
      IdempotencyKey := Str(d.intent.idempotencyKey),
      ActorId := Str(d.intent.actorId),
      ProviderKey := Str(d.intent.providerKey),
      CorrelationId := Str(d.intent.correlationId),
      RequestFingerprint := WriteDigest(d.intent.requestFingerprint),
      SerializedRequest := Str(d.intent.serializedRequest),
      State := Str(StateName(d.intent.state)),
      StoredResult := WriteOptionalResult(d.intent.result),
      CreatedAtEpoch := Number(d.createdAt),
      UpdatedAtEpoch := Number(d.updatedAt),
      DispatchStartedAtEpoch := WriteInt(d.dispatchStartedAt),
      CompletedAtEpoch := WriteInt(d.completedAt),
      AttemptCount := Number(d.attemptCount),
      Attempts := List(AttemptList(d.attempts))]
  }

  lemma WrittenError(e: NormalizedError)
    ensures WriteError(None) == Null && WriteError(Some(e)).Nested?
    ensures var fields := WriteError(Some(e)).fields;
            && FieldOf(fields, Category) == Str(CategoryName(e.category))
            && FieldOf(fields, SafeMessage) == Str(e.safeMessage)
            && FieldOf(fields, Retriable) == Flag(e.retriable)
            && FieldOf(fields, UnknownOutcome) == Flag(e.unknownOutcome)
            && FieldOf(fields, ProviderCode) == WriteText(e.providerCode)
            && FieldOf(fields, HttpStatus) == WriteInt(e.httpStatus)
            && FieldOf(fields, ProviderSubcode) == WriteInt(e.providerSubcode)
            && FieldOf(fields, RetryAfterSeconds) == WriteInt(e.retryAfterSeconds)
  {
    hide CategoryName, WriteText, WriteInt;
  }

  lemma ErrorReads(e: Option<NormalizedError>)
    ensures ReadError(WriteError(e)) == if OptionalError(e) then Ok(e) else Err(RecordError)
  {
    hide NonBlank, CategoryName, CategoryOf, FieldOf, WriteError;
    if e == None {
      WrittenError(NormalizedError(Validation, "", false, false, None, None, None, None));
    } else {
      WrittenError(e.value);
      CategoryNamesInvert(CategoryName(e.value.category), e.value.category);
    }
  }

  lemma WrittenResult(r: DispatchResult)
    ensures WriteResult(r).Nested?
    ensures var fields := WriteResult(r).fields;
            && FieldOf(fields, IntentId) == Str(r.intentId)
            && FieldOf(fields, ProviderKey) == Str(r.providerKey)
            && FieldOf(fields, Disposition) == Str(DispositionName(r.disposition))
            && FieldOf(fields, CorrelationId) == Str(r.correlationId)
            && FieldOf(fields, ProviderMessageId) == WriteText(r.providerMessageId)
            && FieldOf(fields, ProviderStatus) == WriteText(r.providerStatus)
            && FieldOf(fields, StoredError) == WriteError(r.error)
            && FieldOf(fields, IdempotentReplay) == Flag(r.idempotentReplay)
  {
    hide DispositionName, WriteText, WriteError;
  }

  /** What is written of a result is read as that result, exactly if its constructor accepts it. */
  lemma ResultReads(r: DispatchResult)
    ensures ReadResult(WriteResult(r)) == if r.Valid() then Ok(r) else Err(RecordError)
    ensures WriteResult(r).Nested?
  {
    hide NonBlank, WriteError, ReadError, OptionalError, DispositionName, DispositionOf, FieldOf, WriteResult;
    WrittenResult(r);
    ErrorReads(r.error);
    DispositionNamesInvert(DispositionName(r.disposition), r.disposition);
  }

  lemma AttemptReads(a: Attempt, number: int)
    requires number >= 1
    ensures AttemptReadable(Nested(AttemptFields(a)), number) <==> AttemptValid(a, number)
  {
    hide NonBlank, WriteError, ReadError, OptionalError, DispositionName, DispositionOf, StateName;
    ErrorReads(a.error);
    StateNamesInvert(StateName(a.state), a.state);
    if a.disposition.Some? {
      DispositionNamesInvert(DispositionName(a.disposition.value), a.disposition.value);
    }
  }

  lemma AttemptsRead(d: Doc)
    ensures AttemptsReadable(Stored(d)) <==> AttemptsValid(d)
  {
    hide AttemptReadable, AttemptValid, AttemptFields, Stored, FieldOf;
    var items := AttemptList(d.attempts);
    StoredProgress(d);
    forall i | 0 <= i < |items| ensures AttemptReadable(items[i], i + 1) <==> AttemptValid(d.attempts[i], i + 1) {
      AttemptReads(d.attempts[i], i + 1);
    }
  }

  lemma StoredIdentity(d: Doc)
    ensures var (fields, intent) := (Stored(d), d.intent);
            && FieldOf(fields, IntentId) == Str(intent.intentId)
            && FieldOf(fields, SourceFlow) == Str(intent.sourceFlow)
            && FieldOf(fields, IdempotencyKey) == Str(intent.idempotencyKey)
            && FieldOf(fields, ActorId) == Str(intent.actorId)
            && FieldOf(fields, ProviderKey) == Str(intent.providerKey)
            && FieldOf(fields, CorrelationId) == Str(intent.correlationId)
            && FieldOf(fields, RequestFingerprint) == WriteDigest(intent.requestFingerprint)
            && FieldOf(fields, SerializedRequest) == Str(intent.serializedRequest)
  {
    hide StateName, WriteOptionalResult, AttemptList, WriteInt;
  }

  lemma StoredProgress(d: Doc)
    ensures var (fields, intent) := (Stored(d), d.intent);
            && FieldOf(fields, RecordSchemaVersion) == Number(d.schemaVersion)
            && FieldOf(fields, State) == Str(StateName(intent.state))
            && FieldOf(fields, StoredResult) == WriteOptionalResult(intent.result)
            && FieldOf(fields, DispatchStartedAtEpoch) == WriteInt(d.dispatchStartedAt)
            && FieldOf(fields, AttemptCount) == Number(d.attemptCount)
            && FieldOf(fields, Attempts) == List(AttemptList(d.attempts))
  {
    hide StateName, WriteOptionalResult, AttemptList, WriteInt;
  }

  /** The reader takes every typed document's fields for its intent exactly if the typed reader does. */
  lemma StoredReads(d: Doc)
    ensures ReadIntent(Nested(Stored(d))) == Decode(d)
  {
    hide NonBlank, AttemptsReadable, AttemptsValid, AttemptList, WriteResult, ReadResult, StateName, StateOf,
      TerminalState, Stored, FieldOf;
    StoredIdentity(d);
    StoredProgress(d);
    AttemptsRead(d);
    StateNamesInvert(StateName(d.intent.state), d.intent.state);
    if d.intent.result.Some? {
      ResultReads(d.intent.result.value);
    }
  }

  // ---- The reader accepts nothing else ----

  predicate HoldsState(v: Value, s: IntentState) {
    match s
    case Pending => v == Str("pending")
    case Dispatching => v == Str("dispatching")
    case Accepted => v == Str("accepted")
    case Rejected => v == Str("rejected")
    case Unknown => v == Str("unknown")
  }

  predicate HoldsDisposition(v: Value, d: SendDisposition) {
    match d
    case Accepted => v == Str("accepted")
    case Rejected => v == Str("rejected")
    case Unknown => v == Str("unknown")
  }

  predicate HoldsCategory(v: Value, c: ErrorCategory) {
    match c
    case Validation => v == Str("validation")
    case Authentication => v == Str("authentication")
    case Authorization => v == Str("authorization")
    case RateLimit => v == Str("rate_limit")
    case ProviderTemporary => v == Str("provider_temporary")
    case ProviderPermanent => v == Str("provider_permanent")
    case Network => v == Str("network")
    case Timeout => v == Str("timeout")
    case Protocol => v == Str("protocol")
    case Unsupported => v == Str("unsupported")
    case UnknownCategory => v == Str("unknown")
  }

  /** Every state, disposition and category is stored under its own name. */
  lemma NamesAreHeld(v: Value)
    ensures forall s :: HoldsState(v, s) <==> v == Str(StateName(s))
    ensures forall d :: HoldsDisposition(v, d) <==> v == Str(DispositionName(d))
    ensures forall c :: HoldsCategory(v, c) <==> v == Str(CategoryName(c))
  {
  }

  /** The fields that a document of this error holds, present or, where null is written, absent. */
  predicate HoldsError(v: Value, error: Option<NormalizedError>) {
    match error
    case None => v.Null?
    case Some(e) =>
      && v.Nested?
      && HoldsCategory(FieldOf(v.fields, Category), e.category)
      && FieldOf(v.fields, SafeMessage) == Str(e.safeMessage)
      && FieldOf(v.fields, Retriable) == Flag(e.retriable)
      && FieldOf(v.fields, UnknownOutcome) == Flag(e.unknownOutcome)
      && FieldOf(v.fields, ProviderCode) == WriteText(e.providerCode)
      && FieldOf(v.fields, HttpStatus) == WriteInt(e.httpStatus)
      && FieldOf(v.fields, ProviderSubcode) == WriteInt(e.providerSubcode)
      && FieldOf(v.fields, RetryAfterSeconds) == WriteInt(e.retryAfterSeconds)
  }

  predicate HoldsResult(v: Value, r: DispatchResult) {
    && v.Nested?
    && FieldOf(v.fields, IntentId) == Str(r.intentId)
    && FieldOf(v.fields, ProviderKey) == Str(r.providerKey)
    && HoldsDisposition(FieldOf(v.fields, Disposition), r.disposition)
    && FieldOf(v.fields, CorrelationId) == Str(r.correlationId)
    && FieldOf(v.fields, ProviderMessageId) == WriteText(r.providerMessageId)
    && FieldOf(v.fields, ProviderStatus) == WriteText(r.providerStatus)
    && HoldsError(FieldOf(v.fields, StoredError), r.error)
    && FieldOf(v.fields, IdempotentReplay) == Flag(r.idempotentReplay)
  }

  predicate HoldsOptionalResult(v: Value, r: Option<DispatchResult>) {
    if r == None then v.Null? else HoldsResult(v, r.value)
  }

  predicate HoldsIntent(d: Fields, intent: MessageIntent) {
    && FieldOf(d, IntentId) == Str(intent.intentId)
    && FieldOf(d, SourceFlow) == Str(intent.sourceFlow)
    && FieldOf(d, IdempotencyKey) == Str(intent.idempotencyKey)
    && FieldOf(d, ActorId) == Str(intent.actorId)
    && FieldOf(d, ProviderKey) == Str(intent.providerKey)
    && FieldOf(d, CorrelationId) == Str(intent.correlationId)
    && FieldOf(d, RequestFingerprint) == WriteDigest(intent.requestFingerprint)
    && FieldOf(d, SerializedRequest) == Str(intent.serializedRequest)
    && HoldsState(FieldOf(d, State), intent.state)
    && HoldsOptionalResult(FieldOf(d, StoredResult), intent.result)
  }

  // What the constructors accept.

  predicate GoodText(value: Option<string>) {
    value.Some? ==> NonBlank(value.value)
  }

  predicate GoodError(e: NormalizedError) {
    && NonBlank(e.safeMessage) && GoodText(e.providerCode)
    && (e.httpStatus.Some? ==> 100 <= e.httpStatus.value <= 599)
    && (e.providerSubcode.Some? ==> 0 <= e.providerSubcode.value <= 2147483647)
    && (e.retryAfterSeconds.Some? ==> 0 <= e.retryAfterSeconds.value <= 86400)
  }

  predicate GoodResult(r: DispatchResult) {
    && NonBlank(r.intentId) && NonBlank(r.providerKey) && NonBlank(r.correlationId)
    && GoodText(r.providerMessageId) && GoodText(r.providerStatus)
    && (r.error.Some? ==> GoodError(r.error.value))
  }

  /** No result before the end; at the end a result with the intent's names, and with the disposition of its state. */
  predicate GoodOutcome(intent: MessageIntent) {
    if intent.state.Pending? || intent.state.Dispatching? then intent.result == None
    else
      intent.result.Some?
      && var r := intent.result.value;
         && GoodResult(r) && r.intentId == intent.intentId && r.providerKey == intent.providerKey
         && r.correlationId == intent.correlationId
         && (intent.state.Accepted? <==> r.disposition.Accepted?)
         && (intent.state.Rejected? <==> r.disposition.Rejected?)
  }

  predicate GoodIntent(intent: MessageIntent) {
    && NonBlank(intent.intentId) && NonBlank(intent.sourceFlow) && NonBlank(intent.idempotencyKey)
    && NonBlank(intent.actorId) && NonBlank(intent.providerKey) && NonBlank(intent.correlationId)
    && (intent.requestFingerprint.OtherText? ==> NonBlank(intent.requestFingerprint.text))
    && NonBlank(intent.serializedRequest) && GoodOutcome(intent)
  }

  lemma OptionalFieldsRead(d: Fields, f: Field)
    ensures forall t :: ReadOptionalText(d, f) == Ok(t) <==> FieldOf(d, f) == WriteText(t) && OptionalText(t)
    ensures forall n :: ReadOptionalInt(d, f) == Ok(n) <==> FieldOf(d, f) == WriteInt(n) && OptionalEpoch(n)
  {
    hide NonBlank;
  }

  lemma ErrorIsGood(e: NormalizedError)
    ensures GoodError(e) <==> e.Valid()
  {
    hide NonBlank;
  }

  lemma ResultIsGood(r: DispatchResult)
    ensures GoodResult(r) <==> r.Valid()
    ensures r.error.Some? ==> (GoodError(r.error.value) <==> r.error.value.Valid())
  {
    hide NonBlank;
  }

  lemma IntentIsGood(intent: MessageIntent)
    ensures GoodIntent(intent) <==> intent.Valid()
    ensures intent.result.Some? ==> (GoodResult(intent.result.value) <==> intent.result.value.Valid())
  {
    hide NonBlank;
  }

  /** An error is read from a document exactly if the document holds its fields and its constructor accepts it. */
  lemma AcceptedError(v: Value, e: Option<NormalizedError>)
    ensures ReadError(v) == Ok(e) <==> HoldsError(v, e) && (e.Some? ==> GoodError(e.value))
  {
    hide NonBlank, GoodError, CategoryOf, CategoryName, ReadOptionalText, ReadOptionalInt, WriteText, WriteInt,
      HoldsCategory;
    if v.Nested? {
      var d := v.fields;
      NamesAreHeld(FieldOf(d, Category));
      OptionalFieldsRead(d, ProviderCode);
      OptionalFieldsRead(d, HttpStatus);
      OptionalFieldsRead(d, ProviderSubcode);
      OptionalFieldsRead(d, RetryAfterSeconds);
      if e.Some? {
        CategoryNamesInvert(CategoryName(e.value.category), e.value.category);
        ErrorIsGood(e.value);
      }
      if FieldOf(d, Category).Str? && CategoryOf(FieldOf(d, Category).text).Some? {
        CategoryNamesInvert(FieldOf(d, Category).text, CategoryOf(FieldOf(d, Category).text).value);
      }
    }
  }

  /** The same for a result, its error included. */
  lemma AcceptedResult(v: Value, r: DispatchResult)
    ensures ReadResult(v) == Ok(r) <==> HoldsResult(v, r) && GoodResult(r)
  {
    ResultIsGood(r);
    hide NonBlank, GoodError, GoodResult, ReadError, HoldsError, DispositionOf, DispositionName, ReadOptionalText,
      WriteText, HoldsDisposition;
    if v.Nested? {
      var d := v.fields;
      NamesAreHeld(FieldOf(d, Disposition));
      OptionalFieldsRead(d, ProviderMessageId);
      OptionalFieldsRead(d, ProviderStatus);
      AcceptedError(FieldOf(d, StoredError), r.error);
      DispositionNamesInvert(DispositionName(r.disposition), r.disposition);
      if FieldOf(d, Disposition).Str? && DispositionOf(FieldOf(d, Disposition).text).Some? {
        DispositionNamesInvert(FieldOf(d, Disposition).text, DispositionOf(FieldOf(d, Disposition).text).value);
      }
    }
  }

  lemma AcceptedOptionalResult(v: Value, r: Option<DispatchResult>)
    ensures ReadOptionalResult(v) == Ok(r) <==> HoldsOptionalResult(v, r) && (r.Some? ==> GoodResult(r.value))
  {
    hide NonBlank, ReadResult, HoldsResult, GoodResult;
    if r.Some? {
      AcceptedResult(v, r.value);
      assert HoldsResult(v, r.value) ==> !v.Null? by { NestedResult(v, r.value); }
    }
  }

  lemma NestedResult(v: Value, r: DispatchResult)
    ensures HoldsResult(v, r) ==> v.Nested?
  {
  }

  /** The value is an attempt with this number, as the reader checks it. */
  ghost predicate GoodAttempt(v: Value, number: int) {
    && v.Nested?
    && var a := v.fields;
       && FieldOf(a, AttemptNumber) == Number(number)
       && FieldOf(a, StartedAtEpoch).Number? && FieldOf(a, StartedAtEpoch).number >= 0
       && IsOptionalEpoch(FieldOf(a, CompletedAtEpoch))
       && FieldOf(a, State).Str? && NonBlank(FieldOf(a, State).text)
       && (FieldOf(a, Disposition).Null? || exists d :: HoldsDisposition(FieldOf(a, Disposition), d))
       && IsOptionalText(FieldOf(a, ProviderMessageId)) && IsOptionalText(FieldOf(a, ProviderStatus))
       && exists e :: HoldsError(FieldOf(a, StoredError), e) && (e.Some? ==> GoodError(e.value))
  }

  predicate IsOptionalText(v: Value) {
    v.Null? || (v.Str? && NonBlank(v.text))
  }

  predicate IsOptionalEpoch(v: Value) {
    v.Null? || (v.Number? && v.number >= 0)
  }

  /** The attempts are counted, numbered from one, and each is a good one. */
  ghost predicate GoodAttempts(d: Fields) {
    match FieldOf(d, Attempts)
    case List(items) =>
      FieldOf(d, AttemptCount) == Number(|items|) && forall i :: 0 <= i < |items| ==> GoodAttempt(items[i], i + 1)
    case _ => false
  }

  lemma GoodAttemptIff(v: Value, number: int)
    requires number >= 1
    ensures AttemptReadable(v, number) <==> GoodAttempt(v, number)
  {
    hide HoldsDisposition, HoldsError, GoodError, DispositionOf, DispositionName, ReadError;
    if v.Nested? {
      var a := v.fields;
      forall e
        ensures ReadError(FieldOf(a, StoredError)) == Ok(e) <==>
                HoldsError(FieldOf(a, StoredError), e) && (e.Some? ==> GoodError(e.value))
      {
        AcceptedError(FieldOf(a, StoredError), e);
      }
      NamesAreHeld(FieldOf(a, Disposition));
      forall name, d ensures DispositionOf(name) == Some(d) <==> name == DispositionName(d) {
        DispositionNamesInvert(name, d);
      }
      forall d ensures NonBlank(DispositionName(d)) {
        DispositionNamesInvert(DispositionName(d), d);
      }
    }
  }

  lemma GoodAttemptsIff(d: Fields)
    ensures AttemptsReadable(d) <==> GoodAttempts(d)
  {
    hide AttemptReadable, GoodAttempt;
    match FieldOf(d, Attempts)
    case List(items) =>
      forall i | 0 <= i < |items| ensures AttemptReadable(items[i], i + 1) <==> GoodAttempt(items[i], i + 1) {
        GoodAttemptIff(items[i], i + 1);
      }
    case _ =>
  }

  /**
   * A document is accepted as an intent exactly if it holds the intent's fields, those of a stored
   * result and its error included, with a supported schema and good attempts, and the intent passes its
   * own checks. The comparison of the schema with 1 also holds of true and of the double 1.0. With any
   * other name of a state, disposition or category the document is refused.
   */
  lemma AcceptedIntent(d: Fields, intent: MessageIntent)
    ensures ReadIntent(Nested(d)) == Ok(intent) <==>
            && FieldOf(d, RecordSchemaVersion) in {Number(1), Flag(true), Double(1.0)}
            && GoodAttempts(d) && HoldsIntent(d, intent) && GoodIntent(intent)
  {
    IntentIsGood(intent);
    hide NonBlank, GoodIntent, GoodResult, StateOf, StateName, AttemptsReadable, GoodAttempts, ReadOptionalResult,
      HoldsOptionalResult, TerminalState, HoldsState;
    GoodAttemptsIff(d);
    NamesAreHeld(FieldOf(d, State));
    AcceptedOptionalResult(FieldOf(d, StoredResult), intent.result);
    StateNamesInvert(StateName(intent.state), intent.state);
    if FieldOf(d, State).Str? && StateOf(FieldOf(d, State).text).Some? {
      StateNamesInvert(FieldOf(d, State).text, StateOf(FieldOf(d, State).text).value);
    }
  }

  // ---- The writes, on documents and on what they stand for ----

  /** The document of a new intent. */
  lemma WrittenIsStored(intent: MessageIntent, now: int)
    requires intent.state.Pending? && intent.result == None
    ensures WriteIntent(intent, now) == Stored(NewDoc(intent, now))
  {
    assert AttemptList([]) == [];
  }

  /** A new intent that is valid is read back from its document. */
  lemma IntentRoundTrip(intent: MessageIntent, now: int)
    requires intent.Valid() && intent.state.Pending?
    ensures ReadIntent(Nested(WriteIntent(intent, now))) == Ok(intent)
  {
    hide NonBlank, WriteIntent, ReadIntent;
    WrittenIsStored(intent, now);
    StoredReads(NewDoc(intent, now));
  }

  lemma OpenedAttempt(number: int, now: int)
    ensures NewAttempt(number, now) == Nested(AttemptFields(OpenAttempt(number, now)))
  {
  }

  lemma ChangedAttempt(a: Attempt, r: DispatchResult, now: int)
    ensures AttemptFields(a) + AttemptChanges(r, now) == AttemptFields(ClosedAttempt(a, r, now))
  {
    hide WriteError, StateName, WriteText;
  }

  /** The update of a claim, on the document, is the typed claim. */
  lemma ClaimCommutes(d: Doc, attemptCount: int, now: int)
    ensures ClaimUpdate(Stored(d), attemptCount, now) == Stored(ClaimedDoc(d, attemptCount, now))
  {
    hide StateName, WriteOptionalResult, AttemptFields, NewAttempt;
    OpenedAttempt(attemptCount + 1, now);
    assert AttemptList(d.attempts) + [NewAttempt(attemptCount + 1, now)] ==
           AttemptList(d.attempts + [OpenAttempt(attemptCount + 1, now)]);
  }

  /** The update of a completion, on the document, is the typed completion. */
  lemma CompletionCommutes(d: Doc, attempt: Option<nat>, r: DispatchResult, now: int)
    ensures CompletionUpdate(Stored(d), attempt, r, now) == Stored(CompletedDoc(d, attempt, r, now))
  {
    hide StateName, WriteResult, AttemptFields, AttemptChanges, ClosedAttempt;
    if attempt.Some? && attempt.value < |d.attempts| {
      var i := attempt.value;
      ChangedAttempt(d.attempts[i], r, now);
      assert AttemptList(d.attempts)[i := Nested(AttemptFields(ClosedAttempt(d.attempts[i], r, now)))] ==
             AttemptList(d.attempts[i := ClosedAttempt(d.attempts[i], r, now)]);
    }
  }
}
