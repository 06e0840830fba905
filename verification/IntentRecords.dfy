// persistence/mongo.py: intent documents as typed values, with the three writes that make and change
// them. IntentDocuments relates them to the fields that are stored.
module IntentRecords {
  import opened Wrappers
  import opened Contracts

  const RECORD_SCHEMA_VERSION := 1

  datatype Attempt = Attempt(
    number: int,
    startedAt: int,
    completedAt: Option<int>,
    state: IntentState,
    disposition: Option<SendDisposition>,
    providerMessageId: Option<string>,
    providerStatus: Option<string>,
    error: Option<NormalizedError>)

  /** A document: the fields of the intent, and the bookkeeping around them. */
  datatype Doc = Doc(
    schemaVersion: int,
    intent: MessageIntent,
    createdAt: int,
    updatedAt: int,
    dispatchStartedAt: Option<int>,
    completedAt: Option<int>,
    attemptCount: int,
    attempts: seq<Attempt>)

  datatype RecordError = RecordError

  // ---- Decoding ----

  predicate OptionalEpoch(value: Option<int>) {
    value.Some? ==> value.value >= 0
  }

  predicate AttemptValid(a: Attempt, number: int) {
    && a.number == number
    && a.startedAt >= 0
    && OptionalEpoch(a.completedAt)
    && OptionalText(a.providerMessageId)
    && OptionalText(a.providerStatus)
    && OptionalError(a.error)
  }

  predicate AttemptsValid(d: Doc) {
    && d.attemptCount == |d.attempts|
    && forall i :: 0 <= i < |d.attempts| ==> AttemptValid(d.attempts[i], i + 1)
  }

  /** What `_intent_from_document` makes of the fields that the document stands for. */
  function Decode(d: Doc): Result<MessageIntent, RecordError> {
    if d.schemaVersion == RECORD_SCHEMA_VERSION && AttemptsValid(d) && d.intent.Valid() then Ok(d.intent)
    else Err(RecordError)
  }

  // ---- Writes ----

  /** The document of a new intent. */
  function NewDoc(intent: MessageIntent, now: int): Doc {
    Doc(RECORD_SCHEMA_VERSION, intent, now, now, None, None, 0, [])
  }

  function OpenAttempt(number: int, now: int): Attempt {
    Attempt(number, now, None, Dispatching, None, None, None, None)
  }

  /** What a claim sets, increments and pushes. */
  function ClaimedDoc(d: Doc, attemptCount: int, now: int): Doc {
    d.(intent := d.intent.(state := Dispatching),
       updatedAt := now,
       dispatchStartedAt := Some(now),
       attemptCount := d.attemptCount + 1,
       attempts := d.attempts + [OpenAttempt(attemptCount + 1, now)])
  }

  /** `_attempt_result_fields` and the completion time, set on an attempt. */
  function ClosedAttempt(a: Attempt, result: DispatchResult, now: int): Attempt {
    a.(state := TerminalState(result.disposition),
       disposition := Some(result.disposition),
       providerMessageId := result.providerMessageId,
       providerStatus := result.providerStatus,
       error := result.error,
       completedAt := Some(now))
  }

  /** What a completion sets; from DISPATCHING it also closes the active attempt. */
  function CompletedDoc(d: Doc, attempt: Option<nat>, result: DispatchResult, now: int): Doc {
    var closed := d.(
      intent := d.intent.(state := TerminalState(result.disposition), result := Some(result)),
      updatedAt := now,
      completedAt := Some(now));
    if attempt.Some? && attempt.value < |d.attempts| then
      closed.(attempts := d.attempts[attempt.value := ClosedAttempt(d.attempts[attempt.value], result, now)])
    else
      closed
  }

  // ---- Reachable documents ----

  predicate IsOpen(a: Attempt) {
    a == OpenAttempt(1, a.startedAt)
  }

  /** A closed attempt carries the outcome of the stored result. */
  predicate IsClosedWith(a: Attempt, r: DispatchResult) {
    && a.completedAt.Some?
    && a == ClosedAttempt(OpenAttempt(1, a.startedAt), r, a.completedAt.value)
  }

  /**
   * What every reachable document satisfies. At most one attempt is ever made, and none while
   * PENDING; DISPATCHING has exactly one, open; a terminal document has its result, and its attempt,
   * if any, is closed with the same outcome.
   */
  predicate WellFormed(d: Doc) {
    && d.schemaVersion == RECORD_SCHEMA_VERSION
    && d.intent.Valid()
    && AttemptsValid(d)
    && d.attemptCount <= 1
    && d.createdAt >= 0 && d.updatedAt >= 0
    && OptionalEpoch(d.dispatchStartedAt) && OptionalEpoch(d.completedAt)
    && (d.dispatchStartedAt == if d.attempts == [] then None else Some(d.attempts[0].startedAt))
    && (d.completedAt.Some? <==> d.intent.state.IsTerminal())
    && match d.intent.state
       case Pending => d.attempts == []
       case Dispatching => d.attemptCount == 1 && IsOpen(d.attempts[0])
       case _ => d.attemptCount == 1 ==> IsClosedWith(d.attempts[0], d.intent.result.value)
  }

  lemma WellFormedDecodes(d: Doc)
    requires WellFormed(d)
    ensures Decode(d) == Ok(d.intent)
  {
  }

  lemma NewDocIsWellFormed(intent: MessageIntent, now: int)
    requires intent.Valid() && intent.state.Pending? && now >= 0
    ensures WellFormed(NewDoc(intent, now))
  {
  }

  lemma ClaimedDocIsWellFormed(d: Doc, now: int)
    requires WellFormed(d) && d.intent.state.Pending? && now >= 0
    ensures WellFormed(ClaimedDoc(d, d.attemptCount, now))
  {
    assert ClaimedDoc(d, d.attemptCount, now).attempts == [OpenAttempt(1, now)];
  }

  lemma CompletedDocIsWellFormed(d: Doc, result: DispatchResult, now: int)
    requires WellFormed(d) && !d.intent.state.IsTerminal() && now >= 0
    requires result.Valid() && d.intent.Matches(result)
    ensures WellFormed(CompletedDoc(d, if d.intent.state.Dispatching? then Some(0) else None, result, now))
  {
  }
}
