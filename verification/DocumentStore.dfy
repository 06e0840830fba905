// persistence/mongo.py: the steps of the intent repository on the documents themselves. They refine
// the steps on typed documents: the collection always holds what the typed store stands for.
module DocumentStore {
  import opened Wrappers
  import opened Contracts
  import opened IntentRecords
  import opened IntentStore
  import opened IntentDocuments
  import Recovery

  type Documents = seq<Fields>

  function StoredAll(docs: Store): Documents {
    seq(|docs|, i requires 0 <= i < |docs| => Stored(docs[i]))
  }

  // ---- Queries ----

  /** A number in a query matches an integer or a double of that value. */
  predicate NumberIs(v: Value, n: int) {
    v == Number(n) || v == Double(n as real)
  }

  /** The field of an attempt, by its dotted path. */
  function AttemptField(d: Fields, i: nat, f: Field): Value {
    match FieldOf(d, Attempts)
    case List(items) => if i < |items| && items[i].Nested? then FieldOf(items[i].fields, f) else Null
    case _ => Null
  }

  /** A null in a query matches an absent field too. */
  predicate QueryMatches(d: Fields, q: Query) {
    match q
    case ByScope(scope) => FieldOf(d, SourceFlow) == Str(scope.sourceFlow)
      && FieldOf(d, IdempotencyKey) == Str(scope.idempotencyKey)
    case ById(id) => FieldOf(d, IntentId) == Str(id)
    case ByIdInState(id, state) => FieldOf(d, IntentId) == Str(id) && FieldOf(d, State) == Str(StateName(state))
    case Claimable(id, n) =>
      && FieldOf(d, IntentId) == Str(id) && NumberIs(FieldOf(d, RecordSchemaVersion), RECORD_SCHEMA_VERSION)
      && FieldOf(d, State) == Str(StateName(Pending)) && NumberIs(FieldOf(d, AttemptCount), n)
    case Completable(id, state, active) =>
      && FieldOf(d, IntentId) == Str(id) && NumberIs(FieldOf(d, RecordSchemaVersion), RECORD_SCHEMA_VERSION)
      && FieldOf(d, State) == Str(StateName(state))
      && (active.Some? ==>
            NumberIs(FieldOf(d, AttemptCount), active.value + 1)
              && AttemptField(d, active.value, CompletedAtEpoch).Null?)
  }

  /** The recovery query. */
  predicate StaleMatches(d: Fields, before: int) {
    && FieldOf(d, State) == Str(StateName(Dispatching))
    && match FieldOf(d, DispatchStartedAtEpoch)
       case Number(n) => n < before
       case Double(x) => x < before as real
       case _ => false
  }

  function FindOne(docs: Documents, q: Query): (r: Option<nat>)
    ensures r.Some? ==> r.value < |docs|
  {
    FindOneFrom(docs, q, 0)
  }

  function FindOneFrom(docs: Documents, q: Query, from: nat): (r: Option<nat>)
    requires from <= |docs|
    ensures r.Some? ==> r.value < |docs|
    decreases |docs| - from
  {
    if from == |docs| then None
    else if QueryMatches(docs[from], q) then Some(from)
    else FindOneFrom(docs, q, from + 1)
  }

  /** The unique indexes on intent and correlation identifiers. */
  predicate IndexTaken(docs: Documents, d: Fields) {
    exists i :: 0 <= i < |docs| &&
      (FieldOf(docs[i], IntentId) == FieldOf(d, IntentId)
       || FieldOf(docs[i], CorrelationId) == FieldOf(d, CorrelationId))
  }

  // ---- Steps ----

  datatype DocumentStep = DocumentStep(docs: Documents, pc: Pc)

  function Fail(docs: Documents, error: StoreError): DocumentStep {
    DocumentStep(docs, Returned(Raised(error)))
  }

  function Missing(docs: Documents): DocumentStep {
    DocumentStep(docs, Returned(Found(None)))
  }

  function Reply(docs: Documents, d: Fields): DocumentStep {
    match ReadIntent(Nested(d))
    case Ok(intent) => DocumentStep(docs, Returned(Found(Some(intent))))
    case Err(_) => Fail(docs, BadRecord)
  }

  function ReplyCreated(docs: Documents, d: Fields, created: bool): DocumentStep {
    match ReadIntent(Nested(d))
    case Ok(intent) => DocumentStep(docs, Returned(Created(intent, created)))
    case Err(_) => Fail(docs, BadRecord)
  }

  function UpsertDocument(docs: Documents, intent: MessageIntent, now: int): DocumentStep {
    var d := WriteIntent(intent, now);
    if now < 0 then Fail(docs, BadClock)
    else if !intent.state.Pending? || intent.result.Some? then Fail(docs, NotPending)
    else if FindOne(docs, ByScope(intent.Key())).Some? then DocumentStep(docs, CreateConfirm(intent, false))
    else if IndexTaken(docs, d) then DocumentStep(docs, CreateDuplicate(intent))
    else DocumentStep(docs + [d], CreateConfirm(intent, true))
  }

  function ReadClaim(docs: Documents, id: string): DocumentStep {
    match FindOne(docs, ById(id))
    case None => Missing(docs)
    case Some(i) =>
      match ReadIntent(Nested(docs[i]))
      case Err(_) => Fail(docs, BadRecord)
      case Ok(intent) =>
        if !intent.state.Pending? then Missing(docs)
        else
          match ReadInt(docs[i], AttemptCount, 0)
          case Err(_) => Fail(docs, BadRecord)
          case Ok(n) => DocumentStep(docs, ClaimWrite(id, n))
  }

  function UpdateClaim(docs: Documents, id: string, attemptCount: int, now: int): DocumentStep {
    if now < 0 then Fail(docs, BadClock)
    else
      match FindOne(docs, Claimable(id, attemptCount))
      case None => Missing(docs)
      case Some(i) =>
        var claimed := ClaimUpdate(docs[i], attemptCount, now);
        Reply(docs[i := claimed], claimed)
  }

  /** The index of the active attempt, with the checks of `complete` on a DISPATCHING document. */
  function ActiveIndex(d: Fields): Result<nat, RecordError> {
    var n :- ReadInt(d, AttemptCount, 1);
    match FieldOf(d, Attempts)
    case List(items) =>
      if |items| != n || n < 1 || !items[n - 1].Nested? || !FieldOf(items[n - 1].fields, CompletedAtEpoch).Null?
        then Err(RecordError)
      else Ok(n - 1)
    case _ => Err(RecordError)
  }

  function ReadCompletion(
    docs: Documents, id: string, expected: IntentState, result: DispatchResult, now: int): DocumentStep
  {
    match FindOne(docs, ByIdInState(id, expected))
    case None => Missing(docs)
    case Some(i) =>
      match ReadIntent(Nested(docs[i]))
      case Err(_) => Fail(docs, BadRecord)
      case Ok(intent) =>
        if intent.intentId != id || !intent.Matches(result) then Fail(docs, IdentityConflict)
        else if expected.Dispatching? then
          match ActiveIndex(docs[i])
          case Err(_) => Fail(docs, BadRecord)
          case Ok(active) => DocumentStep(docs, CompleteWrite(id, expected, result, Some(active)))
        else if expected.Pending? then
          if ReadInt(docs[i], AttemptCount, 0) != Ok(0) || FieldOf(docs[i], Attempts) != List([])
            then Fail(docs, BadRecord)
          else DocumentStep(docs, CompleteWrite(id, expected, result, None))
        else if now < 0 then Fail(docs, BadClock)
        else Missing(docs)
  }

  function UpdateCompletion(
    docs: Documents, id: string, expected: IntentState, result: DispatchResult, active: Option<nat>,
    now: int): DocumentStep
  {
    if now < 0 then Fail(docs, BadClock)
    else
      match FindOne(docs, Completable(id, expected, active))
      case None => Missing(docs)
      case Some(i) =>
        var completed := CompletionUpdate(docs[i], active, result, now);
        Reply(docs[i := completed], completed)
  }

  /** One step of a call on the documents, the database willing. */
  function OpOnDocuments(docs: Documents, pc: Pc, now: int): DocumentStep {
    match pc
    case GetRead(scope) =>
      (match FindOne(docs, ByScope(scope))
       case None => Missing(docs)
       case Some(i) => Reply(docs, docs[i]))
    case CreateUpsert(intent) => UpsertDocument(docs, intent, now)
    case CreateConfirm(intent, created) =>
      (match FindOne(docs, ByScope(intent.Key()))
       case None => Fail(docs, Unconfirmed)
       case Some(i) => ReplyCreated(docs, docs[i], created))
    case CreateDuplicate(intent) =>
      (match FindOne(docs, ByScope(intent.Key()))
       case None => Fail(docs, IdentityConflict)
       case Some(i) => ReplyCreated(docs, docs[i], false))
    case ClaimRead(id) => ReadClaim(docs, id)
    case ClaimWrite(id, n) => UpdateClaim(docs, id, n, now)
    case CompleteRead(id, expected, result) => ReadCompletion(docs, id, expected, result, now)
    case CompleteWrite(id, expected, result, active) => UpdateCompletion(docs, id, expected, result, active, now)
    case Returned(_) => DocumentStep(docs, pc)
  }

  /** One step of a call on the documents, with a possible database failure. */
  function AdvanceOnDocuments(docs: Documents, pc: Pc, now: int, fault: Fault): DocumentStep {
    if pc.Returned? || fault.NoFault? then OpOnDocuments(docs, pc, now)
    else if fault.FailBefore? then Fail(docs, Unavailable)
    else Fail(OpOnDocuments(docs, pc, now).docs, Unavailable)
  }

  // ---- Refinement ----

  lemma NamesDiffer(a: IntentState, b: IntentState)
    ensures StateName(a) == StateName(b) <==> a == b
  {
    StateNamesInvert(StateName(a), b);
    StateNamesInvert(StateName(a), a);
  }

  lemma AttemptFieldOf(d: Doc, i: nat)
    requires i < |d.attempts|
    ensures AttemptField(Stored(d), i, CompletedAtEpoch) == WriteInt(d.attempts[i].completedAt)
    ensures AttemptList(d.attempts)[i].Nested?
    ensures FieldOf(AttemptList(d.attempts)[i].fields, CompletedAtEpoch) == WriteInt(d.attempts[i].completedAt)
  {
    hide Stored, StateName, WriteError, WriteText, WriteInt;
    StoredProgress(d);
  }

  /** A query selects a document exactly if it selects the typed document. */
  lemma QueriesAgree(d: Doc, q: Query)
    requires d.attemptCount == |d.attempts|
    ensures QueryMatches(Stored(d), q) <==> Matches(d, q)
  {
    hide Stored, FieldOf, StateName, AttemptList, AttemptField;
    StoredIdentity(d);
    StoredProgress(d);
    match q
    case ByIdInState(_, state) => NamesDiffer(d.intent.state, state);
    case Claimable(_, _) => NamesDiffer(d.intent.state, Pending);
    case Completable(_, state, active) =>
      NamesDiffer(d.intent.state, state);
      if active.Some? && active.value < |d.attempts| {
        AttemptFieldOf(d, active.value);
      }
    case _ =>
  }

  /** So does the recovery query. */
  lemma StaleAgrees(d: Doc, before: int)
    ensures StaleMatches(Stored(d), before) <==> Recovery.Stale(d, before)
  {
    hide Stored, FieldOf, StateName;
    StoredProgress(d);
    NamesDiffer(d.intent.state, Dispatching);
  }

  lemma FindsAgree(docs: Store, q: Query)
    requires StoreInv(docs)
    ensures FindOne(StoredAll(docs), q) == Find(docs, q)
  {
    FindsAgreeFrom(docs, q, 0);
  }

  lemma {:induction false} FindsAgreeFrom(docs: Store, q: Query, from: nat)
    requires StoreInv(docs) && from <= |docs|
    ensures FindOneFrom(StoredAll(docs), q, from) == FindFrom(docs, q, from)
    decreases |docs| - from
  {
    hide QueryMatches, Matches, Stored;
    if from < |docs| {
      AttemptsCounted(docs, from);
      QueriesAgree(docs[from], q);
      FindsAgreeFrom(docs, q, from + 1);
    }
  }

  lemma AttemptsCounted(docs: Store, i: nat)
    requires StoreInv(docs) && i < |docs|
    ensures docs[i].attemptCount == |docs[i].attempts| && Decode(docs[i]) == Ok(docs[i].intent)
    ensures docs[i].attemptCount >= 0
  {
    WellFormedDecodes(docs[i]);
  }

  lemma StoredAllAt(docs: Store, i: nat, d: Doc)
    requires i < |docs|
    ensures StoredAll(docs)[i] == Stored(docs[i]) && StoredAll(docs[i := d]) == StoredAll(docs)[i := Stored(d)]
  {
    hide Stored;
  }

  /** The documents after the typed step, and its answer. */
  predicate Refines(after: DocumentStep, step: Step) {
    after == DocumentStep(StoredAll(step.docs), step.pc)
  }

  lemma UpsertRefines(docs: Store, intent: MessageIntent, now: int)
    requires StoreInv(docs)
    ensures Refines(UpsertDocument(StoredAll(docs), intent, now), Upsert(docs, intent, now))
  {
    hide Stored, WriteIntent, StoreInv;
    FindsAgree(docs, ByScope(intent.Key()));
    if intent.state.Pending? && intent.result == None {
      WrittenIsStored(intent, now);
      IndexesAgree(docs, intent, now);
      assert StoredAll(docs + [NewDoc(intent, now)]) == StoredAll(docs) + [Stored(NewDoc(intent, now))];
    }
  }

  lemma IndexesAgree(docs: Store, intent: MessageIntent, now: int)
    ensures IndexTaken(StoredAll(docs), Stored(NewDoc(intent, now))) <==> IdentityTaken(docs, intent)
  {
    hide Stored, FieldOf;
    StoredIdentity(NewDoc(intent, now));
    forall i | 0 <= i < |docs|
      ensures FieldOf(StoredAll(docs)[i], IntentId) == Str(docs[i].intent.intentId)
      ensures FieldOf(StoredAll(docs)[i], CorrelationId) == Str(docs[i].intent.correlationId)
    {
      StoredIdentity(docs[i]);
    }
  }

  lemma ClaimReadRefines(docs: Store, id: string)
    requires StoreInv(docs)
    ensures Refines(ReadClaim(StoredAll(docs), id), ReadForClaim(docs, id))
  {
    hide Stored, StoreInv, FieldOf, ReadIntent;
    FindsAgree(docs, ById(id));
    var found := Find(docs, ById(id));
    if found.Some? {
      ReadAt(docs, found.value);
    }
  }

  /** What the reader makes of a stored document. */
  lemma ReadAt(docs: Store, i: nat)
    requires StoreInv(docs) && i < |docs|
    ensures StoredAll(docs)[i] == Stored(docs[i]) && ReadIntent(Nested(Stored(docs[i]))) == Ok(docs[i].intent)
    ensures Decode(docs[i]) == Ok(docs[i].intent)
    ensures FieldOf(Stored(docs[i]), AttemptCount) == Number(docs[i].attemptCount) && docs[i].attemptCount >= 0
    ensures FieldOf(Stored(docs[i]), Attempts) == List(AttemptList(docs[i].attempts))
            && |docs[i].attempts| == docs[i].attemptCount
  {
    hide Stored, FieldOf, ReadIntent;
    AttemptsCounted(docs, i);
    StoredReads(docs[i]);
    StoredProgress(docs[i]);
  }

  lemma ClaimWriteRefines(docs: Store, id: string, n: int, now: int)
    requires StoreInv(docs)
    ensures Refines(UpdateClaim(StoredAll(docs), id, n, now), WriteClaim(docs, id, n, now))
  {
    hide Stored, StoreInv, ReadIntent, ClaimUpdate, ClaimedDoc, Decode;
    FindsAgree(docs, Claimable(id, n));
    var found := Find(docs, Claimable(id, n));
    if found.Some? {
      var d := docs[found.value];
      ClaimCommutes(d, n, now);
      StoredReads(ClaimedDoc(d, n, now));
      StoredAllAt(docs, found.value, ClaimedDoc(d, n, now));
    }
  }

  lemma ActiveIndexOf(docs: Store, i: nat)
    requires StoreInv(docs) && i < |docs|
    ensures var d := docs[i];
            ActiveIndex(Stored(d)) ==
            if d.attemptCount < 1 || d.attempts[d.attemptCount - 1].completedAt.Some? then Err(RecordError)
            else Ok(d.attemptCount - 1)
  {
    hide Stored, StoreInv, FieldOf, ReadIntent, AttemptList, WriteInt;
    ReadAt(docs, i);
    var d := docs[i];
    assert |AttemptList(d.attempts)| == |d.attempts| by { ListLength(d.attempts); }
    if d.attemptCount >= 1 {
      AttemptFieldOf(d, d.attemptCount - 1);
      NullInt(d.attempts[d.attemptCount - 1].completedAt);
    }
  }

  lemma ListLength(attempts: seq<Attempt>)
    ensures |AttemptList(attempts)| == |attempts| && (AttemptList(attempts) == [] <==> attempts == [])
  {
  }

  lemma NullInt(value: Option<int>)
    ensures WriteInt(value).Null? <==> value == None
  {
  }

  lemma CompletionReadRefines(docs: Store, id: string, expected: IntentState, result: DispatchResult, now: int)
    requires StoreInv(docs)
    ensures Refines(ReadCompletion(StoredAll(docs), id, expected, result, now),
                    ReadForCompletion(docs, id, expected, result, now))
  {
    hide Stored, StoreInv, FieldOf, ReadIntent, ActiveIndex, AttemptList;
    FindsAgree(docs, ByIdInState(id, expected));
    var found := Find(docs, ByIdInState(id, expected));
    if found.Some? {
      ReadAt(docs, found.value);
      ActiveIndexOf(docs, found.value);
      ListLength(docs[found.value].attempts);
    }
  }

  lemma CompletionWriteRefines(
    docs: Store, id: string, expected: IntentState, result: DispatchResult, active: Option<nat>, now: int)
    requires StoreInv(docs)
    ensures Refines(UpdateCompletion(StoredAll(docs), id, expected, result, active, now),
                    WriteCompletion(docs, id, expected, result, active, now))
  {
    hide Stored, StoreInv, ReadIntent, CompletionUpdate, CompletedDoc, Decode;
    FindsAgree(docs, Completable(id, expected, active));
    var found := Find(docs, Completable(id, expected, active));
    if found.Some? {
      var d := docs[found.value];
      CompletionCommutes(d, active, result, now);
      StoredReads(CompletedDoc(d, active, result, now));
      StoredAllAt(docs, found.value, CompletedDoc(d, active, result, now));
    }
  }

  lemma ReadsRefine(docs: Store, scope: Scope)
    requires StoreInv(docs)
    ensures FindOne(StoredAll(docs), ByScope(scope)) == Find(docs, ByScope(scope))
    ensures Find(docs, ByScope(scope)).Some? ==>
              var i := Find(docs, ByScope(scope)).value;
              Decode(docs[i]) == ReadIntent(Nested(StoredAll(docs)[i]))
  {
    hide Stored, StoreInv, ReadIntent, Decode;
    FindsAgree(docs, ByScope(scope));
    if Find(docs, ByScope(scope)).Some? {
      ReadAt(docs, Find(docs, ByScope(scope)).value);
    }
  }

  /**
   * Every step of every repository call, with any database failure, does to the documents of the
   * collection exactly what the typed step does to the typed documents that they stand for, and gives
   * the same answer.
   */
  lemma DocumentsRefine(docs: Store, pc: Pc, now: int, fault: Fault)
    requires StoreInv(docs)
    ensures Refines(AdvanceOnDocuments(StoredAll(docs), pc, now, fault), Advance(docs, pc, now, fault))
  {
    hide StoredAll, StoreInv, ReadIntent, Decode, UpsertDocument, ReadClaim, UpdateClaim, ReadCompletion,
      UpdateCompletion, Upsert, ReadForClaim, WriteClaim, ReadForCompletion, WriteCompletion, FindOne;
    match pc
    case GetRead(scope) => ReadsRefine(docs, scope);
    case CreateUpsert(intent) => UpsertRefines(docs, intent, now);
    case CreateConfirm(intent, _) => ReadsRefine(docs, intent.Key());
    case CreateDuplicate(intent) => ReadsRefine(docs, intent.Key());
    case ClaimRead(id) => ClaimReadRefines(docs, id);
    case ClaimWrite(id, n) => ClaimWriteRefines(docs, id, n, now);
    case CompleteRead(id, expected, result) => CompletionReadRefines(docs, id, expected, result, now);
    case CompleteWrite(id, expected, result, active) => CompletionWriteRefines(docs, id, expected, result, active, now);
    case Returned(_) =>
  }
}
