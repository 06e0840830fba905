// The possible effects of one repository step of a caller that works on one document.
module DispatchSteps {
  import opened Wrappers
  import opened Contracts
  import opened Text
  import opened IntentRecords
  import opened IntentStore

  /** The document of a scope is the document of its intent's identifier. */
  lemma SameDocument(docs: Store, scope: Scope, id: string)
    requires StoreInv(docs) && Find(docs, ByScope(scope)).Some?
    requires docs[Find(docs, ByScope(scope)).value].intent.intentId == id
    ensures Holds(docs, id) && Find(docs, ById(id)) == Find(docs, ByScope(scope))
  {
    FindUnique(docs, ById(id), Find(docs, ByScope(scope)).value);
  }

  predicate GetEffect(docs: Store, step: Step, scope: Scope) {
    && step.docs == docs && step.pc.Returned?
    && (step.pc.response.Raised?
        || (Find(docs, ByScope(scope)) == None && step.pc.response == Found(None))
        || (Find(docs, ByScope(scope)).Some?
            && step.pc.response == Found(Some(docs[Find(docs, ByScope(scope)).value].intent))))
  }

  lemma GetStep(docs: Store, scope: Scope, now: int, fault: Fault)
    requires StoreInv(docs)
    ensures GetEffect(docs, Advance(docs, GetRead(scope), now, fault), scope)
  {
  }

  predicate Claimed(docs: Store, step: Step, i: nat, now: int)
    requires i < |docs|
  {
    && docs[i].intent.state.Pending? && now >= 0
    && step.docs == docs[i := ClaimedDoc(docs[i], 0, now)]
    && (step.pc == Returned(Raised(Unavailable))
        || step.pc == Returned(Found(Some(docs[i].intent.(state := Dispatching)))))
  }

  predicate ClaimEffect(docs: Store, step: Step, i: nat, id: string, now: int)
    requires i < |docs|
  {
    || Claimed(docs, step, i, now)
    || (step.docs == docs
        && (step.pc == ClaimWrite(id, 0)
            || (step.pc.Returned? && step.pc.response.Raised?)
            || (step.pc == Returned(Found(None)) && !docs[i].intent.state.Pending?)))
  }

  /** A step of a claim claims the document, or changes nothing. */
  lemma ClaimStep(docs: Store, pc: Pc, id: string, now: int, fault: Fault)
    requires StoreInv(docs) && Holds(docs, id) && (pc == ClaimRead(id) || pc == ClaimWrite(id, 0))
    ensures ClaimEffect(docs, Advance(docs, pc, now, fault), Find(docs, ById(id)).value, id, now)
  {
    if pc.ClaimWrite? {
      ClaimKeepsStore(docs, id, 0, now);
    }
  }

  predicate Completed(
    docs: Store, step: Step, i: nat, expected: IntentState, result: DispatchResult, active: Option<nat>, now: int)
    requires i < |docs|
  {
    && docs[i].intent.state == expected && now >= 0
    && step.docs == docs[i := CompletedDoc(docs[i], active, result, now)]
    && (step.pc == Returned(Raised(Unavailable))
        || step.pc == Returned(Found(Some(
             docs[i].intent.(state := TerminalState(result.disposition), result := Some(result))))))
  }

  function ActiveAttempt(expected: IntentState): Option<nat> {
    if expected.Dispatching? then Some(0) else None
  }

  predicate CompletionPc(pc: Pc, id: string, expected: IntentState, result: DispatchResult) {
    || pc == CompleteRead(id, expected, result)
    || pc == CompleteWrite(id, expected, result, ActiveAttempt(expected))
  }

  predicate CompletionEffect(
    docs: Store, step: Step, i: nat, id: string, expected: IntentState, result: DispatchResult, now: int)
    requires i < |docs|
  {
    || Completed(docs, step, i, expected, result, ActiveAttempt(expected), now)
    || (step.docs == docs
        && (CompletionPc(step.pc, id, expected, result)
            || (step.pc.Returned? && step.pc.response.Raised?)
            || (step.pc == Returned(Found(None)) && docs[i].intent.state != expected)))
  }

  /** A step of a completion completes the document, or changes nothing. */
  lemma CompletionStep(
    docs: Store, pc: Pc, id: string, expected: IntentState, result: DispatchResult, now: int, fault: Fault)
    requires StoreInv(docs) && PcInv(docs, pc) && Holds(docs, id)
    requires CompletionPc(pc, id, expected, result) && !expected.IsTerminal()
    ensures CompletionEffect(docs, Advance(docs, pc, now, fault), Find(docs, ById(id)).value, id, expected, result, now)
  {
    if pc.CompleteWrite? {
      CompletionKeepsStore(docs, id, expected, result, pc.active, now);
    } else {
      CompletionReadStep(docs, id, expected, result, now);
    }
  }

  lemma CompletionReadStep(docs: Store, id: string, expected: IntentState, result: DispatchResult, now: int)
    requires StoreInv(docs) && Holds(docs, id) && !expected.IsTerminal()
    ensures var step := ReadForCompletion(docs, id, expected, result, now);
            var i := Find(docs, ById(id)).value;
            && step.docs == docs
            && (step.pc == CompleteWrite(id, expected, result, ActiveAttempt(expected))
                || (step.pc.Returned? && step.pc.response.Raised?)
                || (step.pc == Returned(Found(None)) && docs[i].intent.state != expected))
  {
    var found := Find(docs, ByIdInState(id, expected));
    if found.Some? {
      FindUnique(docs, ById(id), found.value);
    } else {
      assert !Matches(docs[Find(docs, ById(id)).value], ByIdInState(id, expected));
    }
  }

  predicate Inserted(docs: Store, step: Step, intent: MessageIntent, now: int) {
    && Find(docs, ByScope(intent.Key())) == None && now >= 0
    && step.docs == docs + [NewDoc(intent, now)]
    && (step.pc == Returned(Raised(Unavailable)) || step.pc == CreateConfirm(intent, true))
  }

  predicate UpsertEffect(docs: Store, step: Step, intent: MessageIntent, now: int) {
    || Inserted(docs, step, intent, now)
    || (step.docs == docs
        && ((step.pc.Returned? && step.pc.response.Raised?)
            || step.pc == CreateDuplicate(intent)
            || (step.pc == CreateConfirm(intent, false) && Find(docs, ByScope(intent.Key())).Some?)))
  }

  /** A step of a creation inserts the document, or changes nothing. */
  lemma UpsertStep(docs: Store, intent: MessageIntent, now: int, fault: Fault)
    requires StoreInv(docs) && intent.Valid()
    ensures UpsertEffect(docs, Advance(docs, CreateUpsert(intent), now, fault), intent, now)
  {
  }

  predicate CreateReadEffect(docs: Store, step: Step, intent: MessageIntent, created: bool) {
    && step.docs == docs && step.pc.Returned?
    && (step.pc.response.Raised?
        || (Find(docs, ByScope(intent.Key())).Some?
            && step.pc.response == Created(docs[Find(docs, ByScope(intent.Key())).value].intent, created)))
  }

  lemma CreateReadStep(docs: Store, pc: Pc, intent: MessageIntent, now: int, fault: Fault)
    requires StoreInv(docs) && PcInv(docs, pc)
    requires pc == CreateDuplicate(intent) || pc == CreateConfirm(intent, true) || pc == CreateConfirm(intent, false)
    ensures CreateReadEffect(docs, Advance(docs, pc, now, fault), intent, pc == CreateConfirm(intent, true))
  {
  }

  // ---- What a write leaves in a document, field by field ----

  predicate IsFresh(d: Doc, intent: MessageIntent, now: int) {
    && d.schemaVersion == 1 && d.intent == intent && intent.state.Pending? && intent.result == None
    && d.createdAt == now && d.updatedAt == now && d.dispatchStartedAt == None && d.completedAt == None
    && d.attemptCount == 0 && d.attempts == []
  }

  /** The document is claimed: DISPATCHING, since now, in its first attempt. */
  predicate IsClaimed(d: Doc, d': Doc, now: int) {
    && d.intent.state.Pending? && d'.intent == d.intent.(state := Dispatching)
    && d'.schemaVersion == d.schemaVersion && d'.createdAt == d.createdAt && d'.updatedAt == now
    && d'.dispatchStartedAt == Some(now) && d'.completedAt == None
    && d'.attemptCount == 1 && d'.attempts == [Attempt(1, now, None, Dispatching, None, None, None, None)]
  }

  /** The document is closed now, with this result, and so is its attempt, if it has one. */
  predicate IsClosed(d: Doc, d': Doc, result: DispatchResult, now: int) {
    && !d.intent.state.IsTerminal()
    && result.intentId == d.intent.intentId && result.providerKey == d.intent.providerKey
    && result.correlationId == d.intent.correlationId
    && (match result.disposition
        case Accepted => d'.intent.state == IntentState.Accepted
        case Rejected => d'.intent.state == IntentState.Rejected
        case Unknown => d'.intent.state == IntentState.Unknown)
    && d'.intent.result == Some(result) && d'.intent.(state := d.intent.state, result := d.intent.result) == d.intent
    && d'.schemaVersion == d.schemaVersion && d'.createdAt == d.createdAt && d'.updatedAt == now
    && d'.dispatchStartedAt == d.dispatchStartedAt && d'.completedAt == Some(now)
    && d'.attemptCount == d.attemptCount == |d.attempts| == |d'.attempts| <= 1
    && (d.intent.state.Pending? <==> d.attempts == [])
    && (d.attempts != [] ==>
          d'.attempts[0] == Attempt(1, d.attempts[0].startedAt, Some(now), d'.intent.state, Some(result.disposition),
                                    result.providerMessageId, result.providerStatus, result.error))
  }

  /** At most the document at `i`, which has this identifier, is another. */
  predicate OnlyAt(docs: Store, docs': Store, id: string, i: nat) {
    i < |docs| == |docs'| && docs[i].intent.intentId == id && docs' == docs[i := docs'[i]]
  }

  /** What a step that writes has written: one new document, or one claim or closing at the call's identifier. */
  ghost predicate Wrote(docs: Store, docs': Store, pc: Pc, now: int) {
    match pc
    case CreateUpsert(intent) =>
      |docs'| == |docs| + 1 && docs'[..|docs|] == docs && IsFresh(docs'[|docs|], intent, now)
    case ClaimWrite(id, _) => exists i: nat :: OnlyAt(docs, docs', id, i) && IsClaimed(docs[i], docs'[i], now)
    case CompleteWrite(id, expected, result, _) =>
      exists i: nat :: OnlyAt(docs, docs', id, i) && docs[i].intent.state == expected
                  && IsClosed(docs[i], docs'[i], result, now)
    case _ => false
  }

  /**
   * A step of a call writes nothing, or a creation inserts its intent, a claim claims the document at
   * its identifier, which was PENDING, and a completion closes the one at its identifier, which was in
   * the expected state; each with the clock reading of the step.
   */
  lemma StepWrites(docs: Store, pc: Pc, now: int, fault: Fault)
    requires StoreInv(docs) && PcInv(docs, pc)
    ensures var docs' := Advance(docs, pc, now, fault).docs; docs' == docs || (now >= 0 && Wrote(docs, docs', pc, now))
  {
    hide NonBlank, WellFormed, Decode, ClaimedDoc, CompletedDoc, NewDoc, IsClaimed, IsClosed, IsFresh, Evolves;
    match pc
    case CreateUpsert(intent) =>
      if intent.state.Pending? && intent.result == None {
        NewIsFresh(intent, now);
      }
    case ClaimWrite(id, n) =>
      ClaimKeepsStore(docs, id, n, now);
      if IntentOf(docs, id).state.Pending? {
        ClaimedIsClaimed(docs, Find(docs, ById(id)).value, now);
        assert OnlyAt(docs, WriteClaim(docs, id, n, now).docs, id, Find(docs, ById(id)).value) || now < 0;
      }
    case CompleteWrite(id, expected, result, active) =>
      CompletionKeepsStore(docs, id, expected, result, active, now);
      if IntentOf(docs, id).state == expected {
        CompletedIsClosed(docs, Find(docs, ById(id)).value, active, result, now);
        assert OnlyAt(docs, WriteCompletion(docs, id, expected, result, active, now).docs, id,
                      Find(docs, ById(id)).value) || now < 0;
      }
    case CompleteRead(id, expected, result) => CompletionReadKeepsStore(docs, id, expected, result, now);
    case _ =>
  }

  lemma NewIsFresh(intent: MessageIntent, now: int)
    requires intent.state.Pending? && intent.result == None
    ensures IsFresh(NewDoc(intent, now), intent, now)
  {
  }

  lemma ClaimedIsClaimed(docs: Store, i: nat, now: int)
    requires StoreInv(docs) && i < |docs| && docs[i].intent.state.Pending?
    ensures IsClaimed(docs[i], ClaimedDoc(docs[i], 0, now), now)
  {
    hide NonBlank;
    assert WellFormed(docs[i]);
  }

  lemma CompletedIsClosed(docs: Store, i: nat, active: Option<nat>, result: DispatchResult, now: int)
    requires StoreInv(docs) && i < |docs|
    requires (docs[i].intent.state.Pending? && active == None)
             || (docs[i].intent.state.Dispatching? && active == Some(0))
    requires docs[i].intent.Matches(result)
    ensures IsClosed(docs[i], CompletedDoc(docs[i], active, result, now), result, now)
  {
    hide NonBlank;
    assert WellFormed(docs[i]);
  }
}
