// persistence/mongo.py: the intent repository as single operations on an atomic document
// collection. Every step below makes at most one collection call; anything may happen between two.
module IntentStore {
  import opened Wrappers
  import opened Text
  import opened Contracts
  import opened IntentRecords

  /** The collection, in insertion order. Documents are never removed. */
  type Store = seq<Doc>

  datatype Query =
    | ByScope(scope: Scope)
    | ById(id: string)
    | ByIdInState(id: string, state: IntentState)
    | Claimable(id: string, attemptCount: int)
    | Completable(id: string, state: IntentState, active: Option<nat>)

  predicate Matches(d: Doc, q: Query) {
    match q
    case ByScope(scope) => d.intent.Key() == scope
    case ById(id) => d.intent.intentId == id
    case ByIdInState(id, state) => d.intent.intentId == id && d.intent.state == state
    case Claimable(id, n) =>
      && d.intent.intentId == id && d.schemaVersion == RECORD_SCHEMA_VERSION
      && d.intent.state.Pending? && d.attemptCount == n
    case Completable(id, state, active) =>
      && d.intent.intentId == id && d.schemaVersion == RECORD_SCHEMA_VERSION
      && d.intent.state == state
      && (active.Some? ==>
            && d.attemptCount == active.value + 1
            && active.value < |d.attempts|
            && d.attempts[active.value].completedAt == None)
  }

  /** The first matching document. */
  function Find(docs: Store, q: Query): (r: Option<nat>)
    ensures r.Some? ==> r.value < |docs| && Matches(docs[r.value], q)
    ensures r == None ==> forall i :: 0 <= i < |docs| ==> !Matches(docs[i], q)
  {
    FindFrom(docs, q, 0)
  }

  function FindFrom(docs: Store, q: Query, from: nat): (r: Option<nat>)
    requires from <= |docs|
    ensures r.Some? ==> r.value < |docs| && Matches(docs[r.value], q)
    ensures r == None ==> forall i :: from <= i < |docs| ==> !Matches(docs[i], q)
    decreases |docs| - from
  {
    if from == |docs| then None
    else if Matches(docs[from], q) then Some(from)
    else FindFrom(docs, q, from + 1)
  }

  /** The unique indexes on intent and correlation identifiers, for a document with a free scope. */
  predicate IdentityTaken(docs: Store, intent: MessageIntent) {
    exists i :: 0 <= i < |docs| &&
      (docs[i].intent.intentId == intent.intentId || docs[i].intent.correlationId == intent.correlationId)
  }

  // ---- Calls, and where they stand ----

  datatype Call =
    | Get(scope: Scope)
    | Create(intent: MessageIntent)
    | Claim(id: string)
    | Complete(id: string, expected: IntentState, result: DispatchResult)

  datatype StoreError =
    | Unavailable            // the database failed
    | BadClock               // the injected clock returned a negative time
    | BadRecord              // a stored record does not match the schema
    | NotPending             // a new intent must be pending
    | IdentityConflict       // the identity belongs to another record
    | Unconfirmed            // a created intent could not be read back

  datatype Response =
    | Found(found: Option<MessageIntent>)
    | Created(intent: MessageIntent, created: bool)
    | Raised(error: StoreError)

  datatype Pc =
    | GetRead(scope: Scope)
    | CreateUpsert(intent: MessageIntent)
    | CreateConfirm(intent: MessageIntent, created: bool)
    | CreateDuplicate(intent: MessageIntent)
    | ClaimRead(id: string)
    | ClaimWrite(id: string, attemptCount: int)
    | CompleteRead(id: string, expected: IntentState, result: DispatchResult)
    | CompleteWrite(id: string, expected: IntentState, result: DispatchResult, active: Option<nat>)
    | Returned(response: Response)

  function Start(call: Call): Pc {
    match call
    case Get(scope) => GetRead(scope)
    case Create(intent) => CreateUpsert(intent)
    case Claim(id) => ClaimRead(id)
    case Complete(id, expected, result) => CompleteRead(id, expected, result)
  }

  /** A database failure before or after the operation took effect. */
  datatype Fault = NoFault | FailBefore | FailAfter

  datatype Step = Step(docs: Store, pc: Pc)

  function Raise(docs: Store, error: StoreError): Step {
    Step(docs, Returned(Raised(error)))
  }

  /** The answer that carries a read document. */
  function Answer(docs: Store, d: Doc): Step {
    match Decode(d)
    case Ok(intent) => Step(docs, Returned(Found(Some(intent))))
    case Err(_) => Raise(docs, BadRecord)
  }

  function AnswerCreated(docs: Store, d: Doc, created: bool): Step {
    match Decode(d)
    case Ok(intent) => Step(docs, Returned(Created(intent, created)))
    case Err(_) => Raise(docs, BadRecord)
  }

  function Nothing(docs: Store): Step {
    Step(docs, Returned(Found(None)))
  }

  /** `update_one` with `$setOnInsert` and `upsert`, against the three unique indexes. */
  function Upsert(docs: Store, intent: MessageIntent, now: int): Step {
    if now < 0 then Raise(docs, BadClock)
    else if !intent.state.Pending? || intent.result.Some? then Raise(docs, NotPending)
    else if Find(docs, ByScope(intent.Key())).Some? then Step(docs, CreateConfirm(intent, false))
    else if IdentityTaken(docs, intent) then Step(docs, CreateDuplicate(intent))
    else Step(docs + [NewDoc(intent, now)], CreateConfirm(intent, true))
  }

  function ReadForClaim(docs: Store, id: string): Step {
    match Find(docs, ById(id))
    case None => Nothing(docs)
    case Some(i) =>
      if Decode(docs[i]).Err? then Raise(docs, BadRecord)
      else if !docs[i].intent.state.Pending? then Nothing(docs)
      else Step(docs, ClaimWrite(id, docs[i].attemptCount))
  }

  function WriteClaim(docs: Store, id: string, attemptCount: int, now: int): Step {
    if now < 0 then Raise(docs, BadClock)
    else
      match Find(docs, Claimable(id, attemptCount))
      case None => Nothing(docs)
      case Some(i) =>
        var claimed := ClaimedDoc(docs[i], attemptCount, now);
        Answer(docs[i := claimed], claimed)
  }

  function ReadForCompletion(docs: Store, id: string, expected: IntentState, result: DispatchResult, now: int): Step {
    match Find(docs, ByIdInState(id, expected))
    case None => Nothing(docs)
    case Some(i) =>
      var d := docs[i];
      if Decode(d).Err? then Raise(docs, BadRecord)
      else if !d.intent.Matches(result) then Raise(docs, IdentityConflict)
      else if expected.Dispatching? then
        if d.attemptCount < 1 || d.attempts[d.attemptCount - 1].completedAt.Some? then Raise(docs, BadRecord)
        else Step(docs, CompleteWrite(id, expected, result, Some(d.attemptCount - 1)))
      else if expected.Pending? then
        if d.attemptCount != 0 || d.attempts != [] then Raise(docs, BadRecord)
        else Step(docs, CompleteWrite(id, expected, result, None))
      else if now < 0 then Raise(docs, BadClock)
      else Nothing(docs)
  }

  function WriteCompletion(
    docs: Store, id: string, expected: IntentState, result: DispatchResult, active: Option<nat>, now: int): Step
  {
    if now < 0 then Raise(docs, BadClock)
    else
      match Find(docs, Completable(id, expected, active))
      case None => Nothing(docs)
      case Some(i) =>
        var completed := CompletedDoc(docs[i], active, result, now);
        Answer(docs[i := completed], completed)
  }

  /** One step of a call, the database willing. */
  function Op(docs: Store, pc: Pc, now: int): Step {
    match pc
    case GetRead(scope) =>
      (match Find(docs, ByScope(scope))
       case None => Nothing(docs)
       case Some(i) => Answer(docs, docs[i]))
    case CreateUpsert(intent) => Upsert(docs, intent, now)
    case CreateConfirm(intent, created) =>
      (match Find(docs, ByScope(intent.Key()))
       case None => Raise(docs, Unconfirmed)
       case Some(i) => AnswerCreated(docs, docs[i], created))
    case CreateDuplicate(intent) =>
      (match Find(docs, ByScope(intent.Key()))
       case None => Raise(docs, IdentityConflict)
       case Some(i) => AnswerCreated(docs, docs[i], false))
    case ClaimRead(id) => ReadForClaim(docs, id)
    case ClaimWrite(id, n) => WriteClaim(docs, id, n, now)
    case CompleteRead(id, expected, result) => ReadForCompletion(docs, id, expected, result, now)
    case CompleteWrite(id, expected, result, active) => WriteCompletion(docs, id, expected, result, active, now)
    case Returned(_) => Step(docs, pc)
  }

  /** One step of a call, with a possible database failure. */
  function Advance(docs: Store, pc: Pc, now: int, fault: Fault): Step {
    if pc.Returned? || fault.NoFault? then Op(docs, pc, now)
    else if fault.FailBefore? then Raise(docs, Unavailable)
    else Raise(Op(docs, pc, now).docs, Unavailable)
  }

  // ---- What every step keeps ----

  predicate UniqueAt(docs: Store, i: nat, j: nat)
    requires i < |docs| && j < |docs|
  {
    && docs[i].intent.Key() != docs[j].intent.Key()
    && docs[i].intent.intentId != docs[j].intent.intentId
    && docs[i].intent.correlationId != docs[j].intent.correlationId
  }

  predicate StoreInv(docs: Store) {
    && (forall i :: 0 <= i < |docs| ==> WellFormed(docs[i]))
    && (forall i, j :: 0 <= i < |docs| && 0 <= j < |docs| && i != j ==> UniqueAt(docs, i, j))
  }

  /** Progress of one document: its identity is fixed, its state moves forward, terminal is final. */
  predicate DocEvolves(a: Doc, b: Doc) {
    && b.intent.(state := a.intent.state, result := a.intent.result) == a.intent
    && (a.intent.state.IsTerminal() ==> b == a)
    && (b.intent.state.Pending? ==> a == b)
    && (b.intent.state.Dispatching? && a.intent.state.Dispatching? ==> a == b)
  }

  /** `later` is the same intent, at the same or a later point of its life. */
  predicate IntentEvolves(earlier: MessageIntent, later: MessageIntent) {
    && later.(state := earlier.state, result := earlier.result) == earlier
    && (earlier.state.IsTerminal() ==> later == earlier)
    && (later.state.Pending? ==> later == earlier)
  }

  predicate Evolves(docs: Store, docs': Store) {
    |docs| <= |docs'| && forall i :: 0 <= i < |docs| ==> DocEvolves(docs[i], docs'[i])
  }

  predicate Holds(docs: Store, id: string) {
    Find(docs, ById(id)).Some?
  }

  /** The intent with an identifier. */
  function IntentOf(docs: Store, id: string): MessageIntent
    requires Holds(docs, id)
  {
    docs[Find(docs, ById(id)).value].intent
  }

  /** What a call in progress may rely on, whatever other callers do meanwhile. */
  predicate PcInv(docs: Store, pc: Pc) {
    match pc
    case GetRead(_) => true
    case CreateUpsert(intent) => intent.Valid()
    case CreateConfirm(intent, created) => intent.Valid() && Find(docs, ByScope(intent.Key())).Some?
    case CreateDuplicate(intent) => intent.Valid()
    case ClaimRead(_) => true
    case ClaimWrite(id, n) => n == 0 && Holds(docs, id)
    case CompleteRead(_, _, result) => result.Valid()
    case CompleteWrite(id, expected, result, active) =>
      && result.Valid() && Holds(docs, id) && IntentOf(docs, id).Matches(result)
      && ((expected.Pending? && active == None) || (expected.Dispatching? && active == Some(0)))
    case Returned(_) => true
  }

  lemma FindUnique(docs: Store, q: Query, i: nat)
    requires StoreInv(docs) && i < |docs| && Matches(docs[i], q)
    ensures Find(docs, q) == Some(i)
  {
    var k := Find(docs, q).value;
    assert k != i ==> UniqueAt(docs, i, k);
  }

  lemma HoldsAt(docs: Store, id: string)
    requires StoreInv(docs) && Holds(docs, id)
    ensures forall i :: 0 <= i < |docs| && docs[i].intent.intentId == id ==> Find(docs, ById(id)) == Some(i)
  {
    forall i | 0 <= i < |docs| && docs[i].intent.intentId == id ensures Find(docs, ById(id)) == Some(i) {
      FindUnique(docs, ById(id), i);
    }
  }

  lemma EvolvesReflexive(docs: Store)
    ensures Evolves(docs, docs)
  {
  }

  lemma EvolvesTransitive(a: Store, b: Store, c: Store)
    requires Evolves(a, b) && Evolves(b, c)
    ensures Evolves(a, c)
  {
    forall i | 0 <= i < |a| ensures DocEvolves(a[i], c[i]) {
      assert DocEvolves(a[i], b[i]) && DocEvolves(b[i], c[i]);
    }
  }

  lemma FindStable(docs: Store, docs': Store, q: Query)
    requires StoreInv(docs) && StoreInv(docs') && Evolves(docs, docs') && (q.ByScope? || q.ById?)
    requires Find(docs, q).Some?
    ensures Find(docs', q) == Find(docs, q)
  {
    var i := Find(docs, q).value;
    assert DocEvolves(docs[i], docs'[i]);
    FindUnique(docs', q, i);
  }

  /** A call may rely on the same facts after any step of anyone. */
  lemma PcInvStable(docs: Store, docs': Store, pc: Pc)
    requires StoreInv(docs) && StoreInv(docs') && Evolves(docs, docs') && PcInv(docs, pc)
    ensures PcInv(docs', pc)
  {
    match pc
    case CreateConfirm(intent, _) =>
      FindStable(docs, docs', ByScope(intent.Key()));
    case ClaimWrite(id, _) =>
      FindStable(docs, docs', ById(id));
    case CompleteWrite(id, _, _, _) =>
      FindStable(docs, docs', ById(id));
      assert DocEvolves(docs[Find(docs, ById(id)).value], docs'[Find(docs, ById(id)).value]);
    case _ =>
  }

  lemma ReplaceKeepsStore(docs: Store, i: nat, d: Doc)
    requires StoreInv(docs) && i < |docs| && WellFormed(d) && DocEvolves(docs[i], d)
    ensures StoreInv(docs[i := d]) && Evolves(docs, docs[i := d])
  {
    var docs' := docs[i := d];
    forall j, k | 0 <= j < |docs'| && 0 <= k < |docs'| && j != k ensures UniqueAt(docs', j, k) {
      assert UniqueAt(docs, j, k);
    }
  }

  lemma InsertKeepsStore(docs: Store, intent: MessageIntent, now: int)
    requires StoreInv(docs) && intent.Valid() && intent.state.Pending? && now >= 0
    requires Find(docs, ByScope(intent.Key())) == None && !IdentityTaken(docs, intent)
    ensures StoreInv(docs + [NewDoc(intent, now)]) && Evolves(docs, docs + [NewDoc(intent, now)])
  {
    var docs' := docs + [NewDoc(intent, now)];
    NewDocIsWellFormed(intent, now);
    forall j, k | 0 <= j < |docs'| && 0 <= k < |docs'| && j != k ensures UniqueAt(docs', j, k) {
      if j < |docs| && k < |docs| {
        assert UniqueAt(docs, j, k);
      } else {
        var other := if j < |docs| then j else k;
        assert !Matches(docs[other], ByScope(intent.Key()));
      }
    }
  }

  /** What the writes may rely on about a stored document. */
  lemma StoredFacts(docs: Store, i: nat)
    requires StoreInv(docs) && i < |docs|
    ensures var d := docs[i];
            && d.schemaVersion == RECORD_SCHEMA_VERSION && d.attemptCount == |d.attempts|
            && (d.intent.state.Pending? ==> d.attempts == [])
            && (d.intent.state.Dispatching? ==> d.attemptCount == 1 && d.attempts[0].completedAt == None)
  {
    hide NonBlank;
    assert WellFormed(docs[i]);
  }

  lemma ClaimedFacts(d: Doc, now: int)
    requires WellFormed(d) && d.intent.state.Pending? && now >= 0
    ensures var claimed := ClaimedDoc(d, 0, now);
            && WellFormed(claimed) && DocEvolves(d, claimed) && Decode(claimed) == Ok(d.intent.(state := Dispatching))
  {
    hide NonBlank;
    ClaimedDocIsWellFormed(d, now);
    WellFormedDecodes(ClaimedDoc(d, 0, now));
  }

  lemma CompletedFacts(d: Doc, result: DispatchResult, now: int)
    requires WellFormed(d) && !d.intent.state.IsTerminal() && now >= 0 && result.Valid() && d.intent.Matches(result)
    ensures var completed := CompletedDoc(d, if d.intent.state.Dispatching? then Some(0) else None, result, now);
            && WellFormed(completed) && DocEvolves(d, completed)
            && Decode(completed) == Ok(d.intent.(state := TerminalState(result.disposition), result := Some(result)))
  {
    hide NonBlank;
    CompletedDocIsWellFormed(d, result, now);
    WellFormedDecodes(CompletedDoc(d, if d.intent.state.Dispatching? then Some(0) else None, result, now));
  }

  lemma ClaimKeepsStore(docs: Store, id: string, n: int, now: int)
    requires StoreInv(docs) && PcInv(docs, ClaimWrite(id, n))
    ensures var step := WriteClaim(docs, id, n, now);
            && StoreInv(step.docs) && Evolves(docs, step.docs) && step.pc.Returned?
            && (if now < 0 then step == Raise(docs, BadClock)
                else if IntentOf(docs, id).state.Pending? then
                  var i := Find(docs, ById(id)).value;
                  && step.docs == docs[i := ClaimedDoc(docs[i], 0, now)]
                  && step.pc == Returned(Found(Some(docs[i].intent.(state := Dispatching))))
                else step == Nothing(docs))
  {
    hide NonBlank, WellFormed, Decode, ClaimedDoc;
    var i := Find(docs, ById(id)).value;
    HoldsAt(docs, id);
    StoredFacts(docs, i);
    if now >= 0 && docs[i].intent.state.Pending? {
      FindUnique(docs, Claimable(id, n), i);
      ClaimedFacts(docs[i], now);
      ReplaceKeepsStore(docs, i, ClaimedDoc(docs[i], n, now));
    }
  }

  lemma CompletionKeepsStore(
    docs: Store, id: string, expected: IntentState, result: DispatchResult, active: Option<nat>, now: int)
    requires StoreInv(docs) && PcInv(docs, CompleteWrite(id, expected, result, active))
    ensures var step := WriteCompletion(docs, id, expected, result, active, now);
            && StoreInv(step.docs) && Evolves(docs, step.docs) && step.pc.Returned?
            && (if now < 0 then step == Raise(docs, BadClock)
                else if IntentOf(docs, id).state == expected then
                  var i := Find(docs, ById(id)).value;
                  && step.docs == docs[i := CompletedDoc(docs[i], active, result, now)]
                  && step.pc == Returned(Found(Some(
                       docs[i].intent.(state := TerminalState(result.disposition), result := Some(result)))))
                else step == Nothing(docs))
  {
    hide NonBlank, WellFormed, Decode, CompletedDoc;
    var i := Find(docs, ById(id)).value;
    HoldsAt(docs, id);
    StoredFacts(docs, i);
    if now >= 0 && docs[i].intent.state == expected {
      FindUnique(docs, Completable(id, expected, active), i);
      CompletedFacts(docs[i], result, now);
      ReplaceKeepsStore(docs, i, CompletedDoc(docs[i], active, result, now));
    }
  }

  lemma UpsertKeepsStore(docs: Store, intent: MessageIntent, now: int)
    requires StoreInv(docs) && intent.Valid()
    ensures var step := Upsert(docs, intent, now);
            StoreInv(step.docs) && Evolves(docs, step.docs) && PcInv(step.docs, step.pc)
  {
    EvolvesReflexive(docs);
    if Find(docs, ByScope(intent.Key())) == None && !IdentityTaken(docs, intent) && now >= 0 && intent.state.Pending? {
      InsertKeepsStore(docs, intent, now);
      FindUnique(docs + [NewDoc(intent, now)], ByScope(intent.Key()), |docs|);
    }
  }

  lemma CompletionReadKeepsStore(docs: Store, id: string, expected: IntentState, result: DispatchResult, now: int)
    requires StoreInv(docs) && result.Valid()
    ensures var step := ReadForCompletion(docs, id, expected, result, now);
            step.docs == docs && PcInv(docs, step.pc)
  {
    var found := Find(docs, ByIdInState(id, expected));
    if found.Some? {
      FindUnique(docs, ById(id), found.value);
    }
  }

  lemma ClaimReadKeepsStore(docs: Store, id: string)
    requires StoreInv(docs)
    ensures ReadForClaim(docs, id).docs == docs && PcInv(docs, ReadForClaim(docs, id).pc)
  {
  }

  /** Whatever the call and wherever it stands, its next step keeps the store and its own assumptions. */
  lemma OpKeepsStore(docs: Store, pc: Pc, now: int)
    requires StoreInv(docs) && PcInv(docs, pc)
    ensures var step := Op(docs, pc, now);
            StoreInv(step.docs) && Evolves(docs, step.docs) && PcInv(step.docs, step.pc)
  {
    hide NonBlank, WellFormed, Evolves;
    EvolvesReflexive(docs);
    match pc
    case CreateUpsert(intent) => UpsertKeepsStore(docs, intent, now);
    case ClaimRead(id) => ClaimReadKeepsStore(docs, id);
    case ClaimWrite(id, n) => ClaimKeepsStore(docs, id, n, now);
    case CompleteWrite(id, expected, result, active) => CompletionKeepsStore(docs, id, expected, result, active, now);
    case CompleteRead(id, expected, result) => CompletionReadKeepsStore(docs, id, expected, result, now);
    case _ =>
  }

  lemma AdvanceKeepsStore(docs: Store, pc: Pc, now: int, fault: Fault)
    requires StoreInv(docs) && PcInv(docs, pc)
    ensures var step := Advance(docs, pc, now, fault);
            StoreInv(step.docs) && Evolves(docs, step.docs) && PcInv(step.docs, step.pc)
  {
    OpKeepsStore(docs, pc, now);
    EvolvesReflexive(docs);
  }
}
