// Every step of the dispatch protocol keeps its invariant.
module DispatchProof {
  import opened Wrappers
  import opened Text
  import opened Contracts
  import opened IntentRecords
  import opened IntentStore
  import opened Service
  import opened Dispatch
  import opened DispatchSteps
  import opened DispatchInvariant
  import Fingerprint
  import Serialization

  // ---- Putting a sender's step together ----

  predicate Untouched(s: System, t: System, j: nat)
    requires |t.docs| == |t.tags| && |s.docs| == |s.tags| && j < |t.docs|
  {
    j < |s.docs| && t.docs[j] == s.docs[j] && t.tags[j] == s.tags[j]
  }

  /** A step of a sender that changes at most the document at `i`. */
  lemma Assemble(s: System, t: System, k: nat, sender: Sender, i: int)
    requires Inv(s) && k < |s.senders| && StoreInv(t.docs) && Evolves(s.docs, t.docs)
    requires |t.tags| == |t.docs| && TagsEvolve(s.tags, t.tags)
    requires |s.calls| <= |t.calls| && forall e :: 0 <= e < |s.calls| ==> t.calls[e] == s.calls[e]
    requires t.senders == s.senders[k := sender] && SenderEvolves(s.senders[k], sender)
    requires s.senders[k].callAt.Some? ==> sender.callAt == s.senders[k].callAt
    requires SenderInv(t.docs, t.tags, t.calls, k, sender)
    requires t.recoverers == s.recoverers && t.lost == s.lost && CountRecovered(t.tags) == CountRecovered(s.tags)
    requires forall j :: 0 <= j < |t.docs| && j != i ==> Untouched(s, t, j)
    requires 0 <= i < |t.docs| ==> DocInv(t.docs, t.tags, t.senders, i)
    requires forall e :: |s.calls| <= e < |t.calls| ==> LogInv(t.senders, t.calls, e)
    ensures Inv(t)
  {
    hide PhaseInv, CallInv, OriginInv, CloserInv, CreatorInv, WellFormed;
    forall j | 0 <= j < |t.senders| ensures SenderInv(t.docs, t.tags, t.calls, j, t.senders[j]) {
      if j != k {
        SenderStable(s, t, j, s.senders[j]);
      }
    }
    forall j | 0 <= j < |t.docs| ensures DocInv(t.docs, t.tags, t.senders, j) {
      if j != i {
        assert Untouched(s, t, j);
        DocStable(s, t, j);
      }
    }
    forall e | 0 <= e < |t.calls| ensures LogInv(t.senders, t.calls, e) {
      if e < |s.calls| {
        assert LogInv(s.senders, s.calls, e);
      }
    }
    forall r | 0 <= r < |t.recoverers| ensures RecovererInv(t.docs, t.recoverers[r]) {
      RecovererStable(s.docs, t.docs, s.recoverers[r]);
    }
  }

  lemma TagsReflexive(tags: seq<Tag>)
    ensures TagsEvolve(tags, tags)
  {
  }

  /** A step that only moves a sender. */
  lemma MoveOnly(s: System, k: nat, sender: Sender)
    requires Inv(s) && k < |s.senders| && SenderEvolves(s.senders[k], sender) && sender.callAt == s.senders[k].callAt
    requires SenderInv(s.docs, s.tags, s.calls, k, sender)
    ensures Inv(s.(senders := s.senders[k := sender]))
  {
    hide PhaseInv, CallInv, DocInv, WellFormed;
    EvolvesReflexive(s.docs);
    TagsReflexive(s.tags);
    Assemble(s, s.(senders := s.senders[k := sender]), k, sender, -1);
  }

  /** A step that also replaces one document. */
  lemma ReplaceOne(s: System, t: System, k: nat, i: nat)
    requires Inv(s) && k < |s.senders| == |t.senders| && i < |s.docs| == |t.docs| == |t.tags| && StoreInv(t.docs)
             && Evolves(s.docs, t.docs)
    requires t.docs == s.docs[i := t.docs[i]] && t.tags == s.tags[i := t.tags[i]]
             && t.senders == s.senders[k := t.senders[k]]
    requires t.calls == s.calls && t.recoverers == s.recoverers && t.lost == s.lost
    requires TagEvolves(s.tags[i], t.tags[i]) && s.tags[i].closer.Open? && !t.tags[i].closer.ByRecovery?
    requires SenderEvolves(s.senders[k], t.senders[k]) && t.senders[k].callAt == s.senders[k].callAt
    requires SenderInv(t.docs, t.tags, t.calls, k, t.senders[k])
    requires DocInv(t.docs, t.tags, t.senders, i)
    ensures Inv(t)
  {
    hide PhaseInv, CallInv, OriginInv, CloserInv, CreatorInv, WellFormed;
    CountRetagged(s.tags, i, t.tags[i]);
    Assemble(s, t, k, t.senders[k], i);
  }

  /** The step of one sender keeps who created a document. */
  lemma CreatorKept(s: System, t: System, k: nat, i: nat)
    requires StoreInv(s.docs) && StoreInv(t.docs) && Evolves(s.docs, t.docs)
    requires i < |s.docs| == |s.tags| && |t.docs| == |t.tags| && TagEvolves(s.tags[i], t.tags[i])
    requires k < |s.senders| == |t.senders| && t.senders == s.senders[k := t.senders[k]]
    requires SenderEvolves(s.senders[k], t.senders[k]) && CreatorInv(s.docs, s.senders, i, s.tags[i])
    ensures CreatorInv(t.docs, t.senders, i, t.tags[i])
  {
    hide PastClaim, PastInsert, Over;
    forall j | 0 <= j < |s.senders| ensures SenderEvolves(s.senders[j], t.senders[j]) {
    }
    CreatorStable(s, t, i);
  }

  /** A step at the repository that keeps the store and what the call relies on. */
  predicate Sound(docs: Store, step: Step) {
    StoreInv(step.docs) && Evolves(docs, step.docs) && PcInv(step.docs, step.pc)
  }

  /** A sender that is calling the repository. */
  predicate Calling(s: System, k: nat) {
    && k < |s.senders| && JobOk(s.senders[k].job) && PcOf(s.senders[k].phase).Some? && |s.tags| == |s.docs|
    && SenderInv(s.docs, s.tags, s.calls, k, s.senders[k])
  }

  /** The sender may go on with the outcome of a step that changes no document. */
  predicate MayPass(s: System, k: nat, step: Step, input: Input)
    requires Calling(s, k)
  {
    var phase := AfterStep(s.senders[k].job, s.senders[k].phase, step.pc, input);
    PhaseInv(s.docs, s.tags, k, s.senders[k].(phase := phase)) && (PastClaim(s.senders[k].phase) ==> PastClaim(phase))
    && (PastInsert(s.senders[k].phase) ==> PastInsert(phase))
  }

  /** A repository step without effect only moves the sender. */
  lemma QuietStep(s: System, k: nat, step: Step, input: Input)
    requires Inv(s) && Calling(s, k) && step.docs == s.docs && MayPass(s, k, step, input)
    ensures Inv(Apply(s, k, step, input))
  {
    hide PhaseInv, CallInv, DocInv, WellFormed;
    var phase := AfterStep(s.senders[k].job, s.senders[k].phase, step.pc, input);
    RetagNothing(s.tags, s.docs, k, s.senders[k]);
    QuietMove(s, k, phase);
  }

  lemma RetagNothing(tags: seq<Tag>, docs: Store, k: nat, sender: Sender)
    requires |tags| == |docs|
    ensures Retag(tags, docs, docs, k, sender) == tags
  {
  }

  lemma QuietMove(s: System, k: nat, phase: Phase)
    requires Inv(s) && k < |s.senders| && SenderInv(s.docs, s.tags, s.calls, k, s.senders[k])
    requires !Over(s.senders[k].phase) && (PastClaim(s.senders[k].phase) ==> PastClaim(phase))
    requires PastInsert(s.senders[k].phase) ==> PastInsert(phase)
    requires PhaseInv(s.docs, s.tags, k, s.senders[k].(phase := phase))
    ensures Inv(s.(senders := s.senders[k := s.senders[k].(phase := phase)]))
  {
    hide PhaseInv, DocInv, WellFormed;
    MoveOnly(s, k, s.senders[k].(phase := phase));
  }

  // ---- Reading an intent ----

  /** A sender that has just read the intent of its scope. */
  lemma ContinueKeeps(s: System, k: nat, transient: Option<MessageRequest>)
    requires Inv(s) && k < |s.senders| && s.senders[k].callAt == None && JobOk(s.senders[k].job)
    requires Where(s.docs, s.senders[k].job).Some?
    requires var intent := s.docs[Where(s.docs, s.senders[k].job).value].intent;
             transient.Some? ==>
               transient.value == RequestFor(s.senders[k].job, intent.correlationId)
                 && CreatedBy(s.docs, s.tags, k, s.senders[k].job)
    ensures var intent := s.docs[Where(s.docs, s.senders[k].job).value].intent;
            PhaseInv(s.docs, s.tags, k, s.senders[k].(phase := ContinueIntent(s.senders[k].job, intent, transient)))
  {
    var job := s.senders[k].job;
    var i := Where(s.docs, job).value;
    assert DocInv(s.docs, s.tags, s.senders, i);
    ContinuesWith(s.docs, s.tags, k, s.senders[k], i, transient);
  }

  /** Where a sender goes from the stored intent `d`, which `origin` asked for. */
  lemma Continuation(d: Doc, origin: Job, job: Job, transient: Option<MessageRequest>)
    requires JobOk(job) && OriginInv(d, origin) && d.intent.Valid() && d.intent.Key() == job.Scope()
    requires transient.Some? ==> transient.value == RequestFor(job, d.intent.correlationId)
    ensures match ContinueIntent(job, d.intent, transient)
            case Policy(intent, request) =>
              && intent == d.intent && SameRequest(job, intent) && intent.state.Pending?
              && request == RequestFor(job, intent.correlationId) && (IsSensitive(job) ==> transient.Some?)
            case Finished(Result(r)) => d.intent.result.Some? && r == d.intent.result.value.(idempotentReplay := true)
            case Finished(Failed(e)) => e != BrokenContract && !e.PostDispatchPersistence?
            case _ => false
  {
    hide NonBlank, FingerprintOf, Serialization.Serialize, Serialization.Deserialize, RequestFor;
    if SameRequest(job, d.intent) {
      RestoredRequest(origin, job, d.intent.correlationId);
    }
  }

  lemma ContinuesWith(docs: Store, tags: seq<Tag>, k: nat, sender: Sender, i: nat, transient: Option<MessageRequest>)
    requires |tags| == |docs| && Where(docs, sender.job) == Some(i) && sender.callAt == None && JobOk(sender.job)
    requires OriginInv(docs[i], tags[i].job) && docs[i].intent.Valid()
    requires docs[i].intent.result.Some? ==> !docs[i].intent.result.value.idempotentReplay
    requires transient.Some? ==>
               transient.value == RequestFor(sender.job, docs[i].intent.correlationId)
                 && CreatedBy(docs, tags, k, sender.job)
    ensures PhaseInv(docs, tags, k, sender.(phase := ContinueIntent(sender.job, docs[i].intent, transient)))
  {
    hide NonBlank, FingerprintOf, OriginInv, JobOk, ContinueIntent, PcInv, RequestFor, IsSensitive, CallInv;
    Continuation(docs[i], tags[i].job, sender.job, transient);
  }

  lemma LookingKeeps(s: System, k: nat, input: Input)
    requires Inv(s) && Calling(s, k) && s.senders[k].phase.Looking?
    ensures Inv(MoveAtRepository(s, k, input))
  {
    GetStep(s.docs, s.senders[k].job.Scope(), input.now, input.fault);
    LookedUp(s, k, Advance(s.docs, s.senders[k].phase.pc, input.now, input.fault), input);
  }

  lemma LookedUp(s: System, k: nat, step: Step, input: Input)
    requires Inv(s) && Calling(s, k) && s.senders[k].phase.Looking?
    requires GetEffect(s.docs, step, s.senders[k].job.Scope())
    ensures Inv(Apply(s, k, step, input))
  {
    hide NonBlank, Fingerprint.RequestFingerprint, Serialization.Serialize;
    var job := s.senders[k].job;
    if step.pc.response.Found? && step.pc.response.found.Some? {
      ContinueKeeps(s, k, None);
    } else if AfterLookup(job, step.pc.response, input).Creating? {
      IntentForIsValid(job, input.intentId, input.correlationId);
    }
    QuietStep(s, k, step, input);
  }

  lemma ResolvingKeeps(s: System, k: nat, input: Input)
    requires Inv(s) && Calling(s, k) && s.senders[k].phase.Resolving?
    ensures Inv(MoveAtRepository(s, k, input))
  {
    GetStep(s.docs, s.senders[k].job.Scope(), input.now, input.fault);
    Resolved(s, k, Advance(s.docs, s.senders[k].phase.pc, input.now, input.fault), input);
  }

  lemma Resolved(s: System, k: nat, step: Step, input: Input)
    requires Inv(s) && Calling(s, k) && s.senders[k].phase.Resolving?
    requires GetEffect(s.docs, step, s.senders[k].job.Scope())
    ensures Inv(Apply(s, k, step, input))
  {
    hide CallInv, OriginInv, CloserInv, CreatorInv, MayPass, FingerprintOf, NonBlank;
    var i := Where(s.docs, s.senders[k].job).value;
    assert DocInv(s.docs, s.tags, s.senders, i);
    RaceEnds(s, k, i, step, input);
    QuietStep(s, k, step, input);
  }

  lemma RaceEnds(s: System, k: nat, i: nat, step: Step, input: Input)
    requires Calling(s, k) && s.senders[k].phase.Resolving? && Where(s.docs, s.senders[k].job) == Some(i)
    requires s.docs[i].intent.Valid()
    requires s.docs[i].intent.result.Some? ==> !s.docs[i].intent.result.value.idempotentReplay
    requires GetEffect(s.docs, step, s.senders[k].job.Scope())
    ensures MayPass(s, k, step, input)
  {
    hide NonBlank, Fingerprint.RequestFingerprint, Serialization.Serialize;
  }

  // ---- Creating an intent ----

  lemma CreatingKeeps(s: System, k: nat, input: Input)
    requires Inv(s) && Calling(s, k) && s.senders[k].phase.Creating?
    ensures Inv(MoveAtRepository(s, k, input))
  {
    var pc := s.senders[k].phase.pc;
    var step := Advance(s.docs, pc, input.now, input.fault);
    AdvanceKeepsStore(s.docs, pc, input.now, input.fault);
    if pc.CreateUpsert? {
      UpsertStep(s.docs, pc.intent, input.now, input.fault);
      if step.docs == s.docs {
        NotInserted(s, k, step, input);
        QuietStep(s, k, step, input);
      } else {
        InsertionKeeps(s, k, step, input);
      }
    } else {
      CreateReadStep(s.docs, pc, pc.intent, input.now, input.fault);
      CreationRead(s, k, step, input);
    }
  }

  lemma NotInserted(s: System, k: nat, step: Step, input: Input)
    requires Calling(s, k) && Sound(s.docs, step) && s.senders[k].phase.Creating? && s.senders[k].phase.pc.CreateUpsert?
    requires UpsertEffect(s.docs, step, s.senders[k].phase.pc.intent, input.now) && step.docs == s.docs
    ensures MayPass(s, k, step, input)
  {
    hide NonBlank, FingerprintOf, JobOk, CallInv, Ready, Holding, OnDoc, Settled, MayHold, CompletionPc, Expected,
      RequestFor, DeniedResult, UnregisteredResult;
    var phase := s.senders[k].phase;
    assert !Inserted(s.docs, step, phase.pc.intent, input.now);
    if !step.pc.Returned? {
      assert AfterStep(s.senders[k].job, phase, step.pc, input) == Creating(phase.request, step.pc);
    }
  }

  lemma CreationRead(s: System, k: nat, step: Step, input: Input)
    requires Inv(s) && Calling(s, k) && s.senders[k].phase.Creating?
    requires var pc := s.senders[k].phase.pc;
             !pc.CreateUpsert? && CreateReadEffect(s.docs, step, pc.intent, pc == CreateConfirm(pc.intent, true))
    ensures Inv(Apply(s, k, step, input))
  {
    hide NonBlank, FingerprintOf, CallInv, OriginInv, CloserInv, CreatorInv, WellFormed;
    var sender := s.senders[k];
    if !step.pc.response.Raised? {
      ContinueKeeps(s, k, if step.pc.response.created && IsSensitive(sender.job) then Some(sender.phase.request)
                    else None);
    }
    QuietStep(s, k, step, input);
  }

  /** The new document is this sender's. */
  lemma InsertedDoc(t: System, k: nat, n: nat, job: Job, intent: MessageIntent, now: int)
    requires n < |t.docs| == |t.tags| && JobOk(job) && NonBlank(intent.correlationId)
    requires intent == IntentFor(job, intent.intentId, intent.correlationId)
    requires t.docs[n] == NewDoc(intent, now) && t.tags[n] == Tag(job, k, None, Open)
    requires CreatorInv(t.docs, t.senders, n, t.tags[n])
    ensures DocInv(t.docs, t.tags, t.senders, n)
  {
    hide NonBlank, Fingerprint.RequestFingerprint, Serialization.Serialize, JobOk, FingerprintOf;
  }

  lemma InsertedSender(s: System, t: System, k: nat, n: nat, sender: Sender, pc: Pc, input: Input)
    requires |s.docs| == |s.tags| && |t.docs| == |t.tags| && SenderInv(s.docs, s.tags, s.calls, k, sender)
    requires sender.phase.Creating? && sender.phase.pc.CreateUpsert? && n < |t.docs|
             && Where(t.docs, sender.job) == Some(n)
    requires t.docs[n].intent == sender.phase.pc.intent && t.tags[n].creator == k && PcInv(t.docs, pc)
    requires pc == Returned(Raised(Unavailable)) || pc == CreateConfirm(sender.phase.pc.intent, true)
    ensures SenderInv(t.docs, t.tags, t.calls, k, sender.(phase := AfterStep(sender.job, sender.phase, pc, input)))
  {
    hide NonBlank, Fingerprint.RequestFingerprint, Serialization.Serialize, UnregisteredResult, DeniedResult;
  }

  lemma InsertionKeeps(s: System, k: nat, step: Step, input: Input)
    requires Inv(s) && Calling(s, k) && Sound(s.docs, step) && s.senders[k].phase.Creating?
             && s.senders[k].phase.pc.CreateUpsert?
    requires Inserted(s.docs, step, s.senders[k].phase.pc.intent, input.now)
    ensures Inv(Apply(s, k, step, input))
  {
    hide NonBlank, Fingerprint.RequestFingerprint, Serialization.Serialize, UnregisteredResult, DeniedResult,
      WellFormed, DocInv, OriginInv, JobOk, FingerprintOf;
    var sender := s.senders[k];
    var (job, intent) := (sender.job, sender.phase.pc.intent);
    var t := Apply(s, k, step, input);
    var n := |s.docs|;
    var tag := Tag(job, k, None, Open);
    assert t.docs[n] == NewDoc(intent, input.now);
    assert t.tags == s.tags + [tag];
    FindUnique(t.docs, ByScope(job.Scope()), n);
    CountAppended(s.tags, tag);
    InsertedDoc(t, k, n, job, intent, input.now);
    InsertedSender(s, t, k, n, sender, step.pc, input);
    Assemble(s, t, k, t.senders[k], n);
  }

  // ---- Refusing by policy ----

  lemma DenyingKeeps(s: System, k: nat, input: Input)
    requires Inv(s) && Calling(s, k) && s.senders[k].phase.Denying?
    ensures Inv(MoveAtRepository(s, k, input))
  {
    var sender := s.senders[k];
    var (intent, pc) := (sender.phase.intent, sender.phase.pc);
    SameDocument(s.docs, sender.job.Scope(), intent.intentId);
    CompletionStep(s.docs, pc, intent.intentId, Pending, DeniedResult(intent), input.now, input.fault);
    AdvanceKeepsStore(s.docs, pc, input.now, input.fault);
    var step := Advance(s.docs, pc, input.now, input.fault);
    if step.docs == s.docs {
      DenialWaits(s, k, step, input);
      QuietStep(s, k, step, input);
    } else {
      DenialKeeps(s, k, step, input);
    }
  }

  predicate DenialEffect(s: System, k: nat, step: Step, now: int)
    requires k < |s.senders| && JobOk(s.senders[k].job) && s.senders[k].phase.Denying?
             && Where(s.docs, s.senders[k].job).Some?
  {
    var intent := s.senders[k].phase.intent;
    CompletionEffect(s.docs, step, Where(s.docs, s.senders[k].job).value, intent.intentId, Pending,
                     DeniedResult(intent), now)
  }

  lemma DenialWaits(s: System, k: nat, step: Step, input: Input)
    requires Calling(s, k) && Sound(s.docs, step) && s.senders[k].phase.Denying?
    requires DenialEffect(s, k, step, input.now) && step.docs == s.docs
    ensures MayPass(s, k, step, input)
  {
    hide NonBlank, FingerprintOf, JobOk, CallInv, WellFormed, Settled, CreatingPc, CreatedBy, Serialization.Serialize;
  }

  lemma DenialDoc(s: System, t: System, k: nat, i: nat, intent: MessageIntent, now: int)
    requires i < |s.docs| == |s.tags| && |t.docs| == |t.tags| == |s.docs| && DocInv(s.docs, s.tags, s.senders, i)
    requires s.docs[i].intent.state.Pending? && WellFormed(s.docs[i]) && IntentEvolves(intent, s.docs[i].intent)
    requires t.docs[i] == CompletedDoc(s.docs[i], None, DeniedResult(intent), now)
    requires t.tags[i] == s.tags[i].(closer := ByPolicy(k))
    requires CreatorInv(t.docs, t.senders, i, t.tags[i])
    ensures DocInv(t.docs, t.tags, t.senders, i)
  {
    hide NonBlank, FingerprintOf, Serialization.Serialize;
    ResultsIgnoreState(intent, t.docs[i].intent.state, t.docs[i].intent.result);
  }

  lemma DenialSender(s: System, t: System, k: nat, i: nat, sender: Sender, pc: Pc, input: Input)
    requires |s.docs| == |s.tags| && |t.docs| == |t.tags| && SenderInv(s.docs, s.tags, s.calls, k, sender)
    requires sender.phase.Denying? && i < |t.docs| && Where(t.docs, sender.job) == Some(i)
    requires var result := DeniedResult(sender.phase.intent);
             && t.docs[i].intent.result == Some(result)
             && (pc == Returned(Raised(Unavailable)) || (pc == Returned(Found(Some(t.docs[i].intent)))))
    requires t.tags[i].closer == ByPolicy(k)
    ensures SenderInv(t.docs, t.tags, t.calls, k, sender.(phase := AfterStep(sender.job, sender.phase, pc, input)))
  {
  }

  lemma DenialKeeps(s: System, k: nat, step: Step, input: Input)
    requires Inv(s) && Calling(s, k) && Sound(s.docs, step) && s.senders[k].phase.Denying?
    requires DenialEffect(s, k, step, input.now) && step.docs != s.docs
    ensures Inv(Apply(s, k, step, input))
  {
    hide NonBlank, FingerprintOf, Serialization.Serialize, DeniedResult, UnregisteredResult, CreatorInv, JobOk,
      IsSensitive;
    var sender := s.senders[k];
    var i := Where(s.docs, sender.job).value;
    var tag := s.tags[i].(closer := ByPolicy(k));
    var sender' := sender.(phase := AfterStep(sender.job, sender.phase, step.pc, input));
    var t := s.(docs := step.docs, tags := s.tags[i := tag], senders := s.senders[k := sender']);
    assert DocInv(s.docs, s.tags, s.senders, i);
    WhereStable(s.docs, t.docs, sender.job);
    CreatorKept(s, t, k, i);
    DenialDoc(s, t, k, i, sender.phase.intent, input.now);
    DenialSender(s, t, k, i, sender, step.pc, input);
    ReplaceOne(s, t, k, i);
    assert Apply(s, k, step, input) == t;
  }

  // ---- Claiming ----

  lemma ClaimingKeeps(s: System, k: nat, input: Input)
    requires Inv(s) && Calling(s, k) && s.senders[k].phase.Claiming?
    ensures Inv(MoveAtRepository(s, k, input))
  {
    var sender := s.senders[k];
    var (intent, pc) := (sender.phase.intent, sender.phase.pc);
    SameDocument(s.docs, sender.job.Scope(), intent.intentId);
    ClaimStep(s.docs, pc, intent.intentId, input.now, input.fault);
    AdvanceKeepsStore(s.docs, pc, input.now, input.fault);
    var step := Advance(s.docs, pc, input.now, input.fault);
    if step.docs == s.docs {
      ClaimWaits(s, k, step, input);
      QuietStep(s, k, step, input);
    } else {
      ClaimKeeps(s, k, step, input);
    }
  }

  predicate SenderClaims(s: System, k: nat, step: Step, now: int)
    requires k < |s.senders| && JobOk(s.senders[k].job) && s.senders[k].phase.Claiming?
             && Where(s.docs, s.senders[k].job).Some?
  {
    ClaimEffect(s.docs, step, Where(s.docs, s.senders[k].job).value, s.senders[k].phase.intent.intentId, now)
  }

  lemma ClaimWaits(s: System, k: nat, step: Step, input: Input)
    requires Calling(s, k) && Sound(s.docs, step) && s.senders[k].phase.Claiming?
    requires SenderClaims(s, k, step, input.now) && step.docs == s.docs
    ensures MayPass(s, k, step, input)
  {
    hide NonBlank, FingerprintOf, JobOk, CallInv, WellFormed, Settled, CreatingPc, CreatedBy, Serialization.Serialize;
  }

  lemma ClaimDoc(s: System, t: System, k: nat, i: nat, now: int)
    requires i < |s.docs| == |s.tags| && |t.docs| == |t.tags| == |s.docs| && DocInv(s.docs, s.tags, s.senders, i)
    requires s.docs[i].intent.state.Pending? && WellFormed(s.docs[i])
    requires t.docs[i] == ClaimedDoc(s.docs[i], 0, now)
    requires t.tags[i] == s.tags[i].(winner := Some(k))
    requires k < |t.senders| && Where(t.docs, t.senders[k].job) == Some(i) && PastClaim(t.senders[k].phase)
    requires CreatorInv(t.docs, t.senders, i, t.tags[i])
    ensures DocInv(t.docs, t.tags, t.senders, i)
  {
  }

  lemma ClaimSender(s: System, t: System, k: nat, i: nat, sender: Sender, pc: Pc, input: Input)
    requires |s.docs| == |s.tags| && |t.docs| == |t.tags| && SenderInv(s.docs, s.tags, s.calls, k, sender)
    requires sender.phase.Claiming? && i < |t.docs| && Where(t.docs, sender.job) == Some(i)
    requires Where(s.docs, sender.job) == Some(i) && s.docs[i].intent.state.Pending?
    requires t.docs[i].intent == s.docs[i].intent.(state := Dispatching) && t.docs[i].intent.Valid()
    requires pc == Returned(Raised(Unavailable)) || pc == Returned(Found(Some(t.docs[i].intent)))
    requires t.tags[i] == s.tags[i].(winner := Some(k))
    ensures SenderInv(t.docs, t.tags, t.calls, k, sender.(phase := AfterStep(sender.job, sender.phase, pc, input)))
    ensures PastClaim(AfterStep(sender.job, sender.phase, pc, input))
  {
  }

  lemma ClaimKeeps(s: System, k: nat, step: Step, input: Input)
    requires Inv(s) && Calling(s, k) && Sound(s.docs, step) && s.senders[k].phase.Claiming?
    requires SenderClaims(s, k, step, input.now) && step.docs != s.docs
    ensures Inv(Apply(s, k, step, input))
  {
    hide NonBlank, Fingerprint.RequestFingerprint, Serialization.Serialize, DeniedResult, UnregisteredResult;
    var sender := s.senders[k];
    var i := Where(s.docs, sender.job).value;
    var tag := s.tags[i].(winner := Some(k));
    var sender' := sender.(phase := AfterStep(sender.job, sender.phase, step.pc, input));
    var t := s.(docs := step.docs, tags := s.tags[i := tag], senders := s.senders[k := sender']);
    assert DocInv(s.docs, s.tags, s.senders, i);
    WhereStable(s.docs, t.docs, sender.job);
    ClaimSender(s, t, k, i, sender, step.pc, input);
    CreatorKept(s, t, k, i);
    ClaimDoc(s, t, k, i, input.now);
    ReplaceOne(s, t, k, i);
    assert Apply(s, k, step, input) == t;
  }

  // ---- Completing a claimed dispatch ----

  lemma CompletingKeeps(s: System, k: nat, input: Input)
    requires Inv(s) && Calling(s, k) && s.senders[k].phase.Completing?
    ensures Inv(MoveAtRepository(s, k, input))
  {
    hide NonBlank, Fingerprint.RequestFingerprint, Serialization.Serialize, DeniedResult, UnregisteredResult;
    var sender := s.senders[k];
    var (intent, result, pc) := (sender.phase.intent, sender.phase.result, sender.phase.pc);
    SameDocument(s.docs, sender.job.Scope(), intent.intentId);
    CompletionStep(s.docs, pc, intent.intentId, Dispatching, result, input.now, input.fault);
    AdvanceKeepsStore(s.docs, pc, input.now, input.fault);
    var step := Advance(s.docs, pc, input.now, input.fault);
    if step.docs == s.docs {
      CompletionWaits(s, k, step, input);
      QuietStep(s, k, step, input);
    } else {
      CompletionKeeps(s, k, step, input);
    }
  }

  predicate SenderCompletes(s: System, k: nat, step: Step, now: int)
    requires k < |s.senders| && JobOk(s.senders[k].job) && s.senders[k].phase.Completing?
             && Where(s.docs, s.senders[k].job).Some?
  {
    var phase := s.senders[k].phase;
    CompletionEffect(s.docs, step, Where(s.docs, s.senders[k].job).value, phase.intent.intentId, Dispatching,
                     phase.result, now)
  }

  lemma CompletionWaits(s: System, k: nat, step: Step, input: Input)
    requires Calling(s, k) && Sound(s.docs, step) && s.senders[k].phase.Completing?
    requires SenderCompletes(s, k, step, input.now) && step.docs == s.docs
    ensures MayPass(s, k, step, input)
  {
    hide NonBlank, FingerprintOf, JobOk, CallInv, Ready, OnDoc, Settled, MayHold, RequestFor, DeniedResult,
      UnregisteredResult, WellFormed;
  }

  lemma CompletionDoc(s: System, t: System, k: nat, i: nat, intent: MessageIntent, result: DispatchResult, now: int)
    requires i < |s.docs| == |s.tags| && |t.docs| == |t.tags| == |s.docs| && DocInv(s.docs, s.tags, s.senders, i)
    requires s.docs[i].intent.state.Dispatching? && WellFormed(s.docs[i]) && IntentEvolves(intent, s.docs[i].intent)
    requires t.docs[i] == CompletedDoc(s.docs[i], Some(0), result, now) && !result.idempotentReplay
    requires t.tags[i] == s.tags[i].(closer := ByDispatcher(k)) && s.tags[i].winner == Some(k)
    requires k < |t.senders| && Where(t.docs, t.senders[k].job) == Some(i) && t.senders[k].phase.Finished?
    requires t.senders[k].callAt == None ==> result == UnregisteredResult(intent)
    requires CreatorInv(t.docs, t.senders, i, t.tags[i])
    ensures DocInv(t.docs, t.tags, t.senders, i)
  {
  }

  lemma CompletionSender(s: System, t: System, k: nat, i: nat, sender: Sender, pc: Pc, input: Input)
    requires |s.docs| == |s.tags| && |t.docs| == |t.tags| && SenderInv(s.docs, s.tags, s.calls, k, sender)
    requires sender.phase.Completing? && i < |t.docs| && Where(t.docs, sender.job) == Some(i) && t.calls == s.calls
    requires Where(s.docs, sender.job) == Some(i) && s.docs[i].intent.state.Dispatching? && s.docs[i].intent.Valid()
    requires t.docs[i].intent == Expected(s.docs[i].intent, sender.phase.result)
    requires pc == Returned(Raised(Unavailable)) || pc == Returned(Found(Some(t.docs[i].intent)))
    requires t.tags[i] == s.tags[i].(closer := ByDispatcher(k))
    ensures var after := AfterStep(sender.job, sender.phase, pc, input);
            after.Finished? && SenderInv(t.docs, t.tags, t.calls, k, sender.(phase := after))
  {
    hide NonBlank, Fingerprint.RequestFingerprint, Serialization.Serialize, DeniedResult, UnregisteredResult;
  }

  /** What the closing step of a dispatcher leaves behind. */
  predicate ClosedBy(s: System, t: System, k: nat, i: nat, step: Step, input: Input)
    requires Calling(s, k) && i < |s.docs|
  {
    var sender := s.senders[k];
    && t.docs == step.docs
    && t.tags == s.tags[i := s.tags[i].(closer := ByDispatcher(k))]
    && t.senders == s.senders[k := sender.(phase := AfterStep(sender.job, sender.phase, step.pc, input))]
    && t.calls == s.calls && t.recoverers == s.recoverers && t.lost == s.lost
  }

  lemma CompletionParts(s: System, t: System, k: nat, i: nat, step: Step, input: Input)
    requires Calling(s, k) && Sound(s.docs, step) && s.senders[k].phase.Completing?
    requires StoreInv(s.docs) && Where(s.docs, s.senders[k].job) == Some(i) && DocInv(s.docs, s.tags, s.senders, i)
    requires SenderCompletes(s, k, step, input.now) && step.docs != s.docs && ClosedBy(s, t, k, i, step, input)
    ensures s.docs[i].intent.state.Dispatching? && t.docs == s.docs[i := t.docs[i]] && |t.docs| == |t.tags|
    ensures t.docs[i].intent.state != s.docs[i].intent.state && !t.docs[i].intent.state.Dispatching?
    ensures s.tags[i].closer.Open? && t.senders[k].phase.Finished?
    ensures SenderInv(t.docs, t.tags, t.calls, k, t.senders[k]) && Where(t.docs, s.senders[k].job) == Some(i)
  {
    hide NonBlank, FingerprintOf, CreatorInv, CallInv, OriginInv, DeniedResult, UnregisteredResult;
    WhereStable(s.docs, t.docs, s.senders[k].job);
    CompletionSender(s, t, k, i, s.senders[k], step.pc, input);
  }

  lemma CompletionLeavesDoc(s: System, t: System, k: nat, i: nat, step: Step, input: Input)
    requires Calling(s, k) && Sound(s.docs, step) && s.senders[k].phase.Completing?
    requires StoreInv(s.docs) && Where(s.docs, s.senders[k].job) == Some(i) && DocInv(s.docs, s.tags, s.senders, i)
    requires SenderCompletes(s, k, step, input.now) && step.docs != s.docs && ClosedBy(s, t, k, i, step, input)
    requires Where(t.docs, s.senders[k].job) == Some(i) && t.senders[k].phase.Finished? && |t.docs| == |t.tags|
    ensures DocInv(t.docs, t.tags, t.senders, i)
  {
    hide NonBlank, FingerprintOf, CreatorInv, OriginInv, DeniedResult, UnregisteredResult, SenderInv, PhaseInv, PcInv,
      JobOk, AfterStep;
    var phase := s.senders[k].phase;
    assert SenderInv(s.docs, s.tags, s.calls, k, s.senders[k]);
    CompletionHolds(s, k, i);
    CreatorKept(s, t, k, i);
    CompletionDoc(s, t, k, i, phase.intent, phase.result, input.now);
  }

  /** What a sender that completes its dispatch knows. */
  lemma CompletionHolds(s: System, k: nat, i: nat)
    requires Calling(s, k) && s.senders[k].phase.Completing? && Where(s.docs, s.senders[k].job) == Some(i)
    ensures var phase := s.senders[k].phase;
            && IntentEvolves(phase.intent, s.docs[i].intent) && s.tags[i].winner == Some(k)
            && !phase.result.idempotentReplay
            && (s.senders[k].callAt == None ==> phase.result == UnregisteredResult(phase.intent))
  {
    hide NonBlank, FingerprintOf, CallInv, UnregisteredResult;
  }

  lemma CompletionKeeps(s: System, k: nat, step: Step, input: Input)
    requires Inv(s) && Calling(s, k) && Sound(s.docs, step) && s.senders[k].phase.Completing?
    requires SenderCompletes(s, k, step, input.now) && step.docs != s.docs
    ensures Inv(Apply(s, k, step, input))
  {
    hide NonBlank, Fingerprint.RequestFingerprint, Serialization.Serialize, DeniedResult, UnregisteredResult;
    var sender := s.senders[k];
    var i := Where(s.docs, sender.job).value;
    var t := s.(docs := step.docs,
                tags := s.tags[i := s.tags[i].(closer := ByDispatcher(k))],
                senders := s.senders[k := sender.(phase := AfterStep(sender.job, sender.phase, step.pc, input))]);
    assert DocInv(s.docs, s.tags, s.senders, i);
    CompletionParts(s, t, k, i, step, input);
    CompletionLeavesDoc(s, t, k, i, step, input);
    ReplaceOne(s, t, k, i);
    assert Apply(s, k, step, input) == t;
  }

  // ---- Steps outside the repository ----

  lemma SnapshotNames(s: System, k: nat, intent: MessageIntent)
    requires Inv(s) && k < |s.senders| && JobOk(s.senders[k].job) && OnDoc(s.docs, s.senders[k].job, intent)
    ensures NonBlank(intent.intentId) && NonBlank(intent.providerKey) && NonBlank(intent.correlationId)
    ensures intent.Key() == s.senders[k].job.Scope() && intent.providerKey == s.senders[k].job.subject.providerKey
  {
    var i := Where(s.docs, s.senders[k].job).value;
    assert DocInv(s.docs, s.tags, s.senders, i);
    SameFingerprint(s.tags[i].job, s.senders[k].job);
  }

  /** The names that the service's own results copy from a snapshot. */
  predicate Named(intent: MessageIntent) {
    NonBlank(intent.intentId) && NonBlank(intent.providerKey) && NonBlank(intent.correlationId)
  }

  lemma StartsDenying(docs: Store, tags: seq<Tag>, k: nat, sender: Sender, intent: MessageIntent)
    requires |tags| == |docs| && JobOk(sender.job) && sender.callAt == None && OnDoc(docs, sender.job, intent)
             && Named(intent)
    requires MayHold(docs, tags, k, sender.job)
    ensures PhaseInv(docs, tags, k, sender.(phase := StartDenying(intent)))
  {
    LocalResultsAreValid(intent);
  }

  lemma StartsClaiming(
    docs: Store, tags: seq<Tag>, k: nat, sender: Sender, intent: MessageIntent, request: MessageRequest)
    requires |tags| == |docs| && JobOk(sender.job) && sender.callAt == None
    requires Ready(docs, tags, k, sender.job, intent, request) && Cleared(sender)
    ensures PhaseInv(docs, tags, k, sender.(phase := StartClaiming(intent, request)))
  {
  }

  /** A step outside the repository that calls no provider. */
  predicate MayMove(s: System, k: nat, input: Input)
    requires k < |s.senders| && |s.tags| == |s.docs|
  {
    var (sender, moved) := (s.senders[k], MoveOutside(s, k, input).senders[k]);
    && !Over(sender.phase) && (PastClaim(sender.phase) ==> PastClaim(moved.phase)) && PastInsert(moved.phase)
    && moved.job == sender.job && moved.callAt == sender.callAt
    && MoveOutside(s, k, input) == s.(senders := s.senders[k := moved])
    && SenderInv(s.docs, s.tags, s.calls, k, moved)
  }

  lemma OutsideKeeps(s: System, k: nat, input: Input)
    requires Inv(s) && k < |s.senders| && MayMove(s, k, input)
    ensures Inv(MoveOutside(s, k, input))
  {
    hide PhaseInv, CallInv, DocInv, WellFormed;
    MoveOnly(s, k, MoveOutside(s, k, input).senders[k]);
  }

  lemma PolicyMoves(s: System, k: nat, input: Input)
    requires k < |s.senders| && |s.tags| == |s.docs| && s.senders[k].phase.Policy? && Named(s.senders[k].phase.intent)
    requires SenderInv(s.docs, s.tags, s.calls, k, s.senders[k])
    ensures MayMove(s, k, input)
  {
    var sender := s.senders[k];
    var moved := MoveOutside(s, k, input).senders[k];
    if moved.phase.Denying? {
      StartsDenying(s.docs, s.tags, k, moved, sender.phase.intent);
    } else if moved.phase.Claiming? {
      StartsClaiming(s.docs, s.tags, k, moved, sender.phase.intent, sender.phase.request);
    }
  }

  lemma SessionMoves(s: System, k: nat, input: Input)
    requires k < |s.senders| && |s.tags| == |s.docs| && s.senders[k].phase.Session? && Named(s.senders[k].phase.intent)
    requires SenderInv(s.docs, s.tags, s.calls, k, s.senders[k])
    ensures MayMove(s, k, input)
  {
    var sender := s.senders[k];
    var moved := MoveOutside(s, k, input).senders[k];
    if moved.phase.Denying? {
      StartsDenying(s.docs, s.tags, k, moved, sender.phase.intent);
    } else if moved.phase.Claiming? {
      StartsClaiming(s.docs, s.tags, k, moved, sender.phase.intent, sender.phase.request);
    }
  }

  lemma StartsCompleting(
    docs: Store, tags: seq<Tag>, k: nat, sender: Sender, intent: MessageIntent, result: DispatchResult)
    requires |tags| == |docs| && JobOk(sender.job) && Holding(docs, tags, k, sender.job, intent)
    requires Expected(intent, result).Valid() && !result.idempotentReplay
    requires sender.callAt == None ==> result == UnregisteredResult(intent)
    ensures PhaseInv(docs, tags, k, sender.(phase := StartCompleting(intent, result, sender.callAt.Some?)))
  {
    hide NonBlank, Fingerprint.RequestFingerprint, Serialization.Serialize, UnregisteredResult;
  }

  lemma AwaitingMoves(s: System, k: nat, input: Input)
    requires k < |s.senders| && |s.tags| == |s.docs| && SenderInv(s.docs, s.tags, s.calls, k, s.senders[k])
    requires s.senders[k].phase.Awaiting?
    ensures MayMove(s, k, input)
  {
    hide NonBlank, Fingerprint.RequestFingerprint, Serialization.Serialize;
    var phase := s.senders[k].phase;
    ExpectedIsValid(phase.intent, phase.request, input.provider);
    var result := GatewayResult(phase.intent, phase.request, input.provider);
    StartsCompleting(s.docs, s.tags, k, s.senders[k], phase.intent, result);
  }

  lemma UnregisteredMoves(s: System, k: nat, input: Input)
    requires k < |s.senders| && |s.tags| == |s.docs| && SenderInv(s.docs, s.tags, s.calls, k, s.senders[k])
    requires s.senders[k].phase.Sending? && !input.registered
    ensures MayMove(s, k, input)
  {
    hide NonBlank, Fingerprint.RequestFingerprint, Serialization.Serialize;
    var phase := s.senders[k].phase;
    ExpectedIsValid(phase.intent, phase.request, Raises);
    StartsCompleting(s.docs, s.tags, k, s.senders[k], phase.intent, UnregisteredResult(phase.intent));
  }

  lemma ProviderCallKeeps(s: System, k: nat, input: Input)
    requires Inv(s) && k < |s.senders| && s.senders[k].phase.Sending? && input.registered
    ensures Inv(MoveOutside(s, k, input))
  {
    hide NonBlank, Fingerprint.RequestFingerprint, Serialization.Serialize;
    var sender := s.senders[k];
    assert SenderInv(s.docs, s.tags, s.calls, k, sender);
    var (intent, request) := (sender.phase.intent, sender.phase.request);
    SnapshotNames(s, k, intent);
    var t := MoveOutside(s, k, input);
    EvolvesReflexive(s.docs);
    TagsReflexive(s.tags);
    assert t.calls[|s.calls|] == ProviderCall(k, intent.Key(), intent.providerKey, request);
    Assemble(s, t, k, t.senders[k], -1);
  }

  lemma MoveKeeps(s: System, k: nat, input: Input)
    requires Inv(s)
    ensures Inv(MoveSender(s, k, input))
  {
    hide NonBlank, Fingerprint.RequestFingerprint, Serialization.Serialize, DeniedResult, UnregisteredResult;
    if k < |s.senders| {
      assert SenderInv(s.docs, s.tags, s.calls, k, s.senders[k]);
      match s.senders[k].phase
      case Looking(_) => LookingKeeps(s, k, input);
      case Creating(_, _) => CreatingKeeps(s, k, input);
      case Policy(intent, _) =>
        SnapshotNames(s, k, intent);
        PolicyMoves(s, k, input);
        OutsideKeeps(s, k, input);
      case Session(intent, _) =>
        SnapshotNames(s, k, intent);
        SessionMoves(s, k, input);
        OutsideKeeps(s, k, input);
      case Denying(_, _) => DenyingKeeps(s, k, input);
      case Claiming(_, _, _) => ClaimingKeeps(s, k, input);
      case Resolving(_, _) => ResolvingKeeps(s, k, input);
      case Sending(_, _) =>
        if input.registered {
          ProviderCallKeeps(s, k, input);
        } else {
          UnregisteredMoves(s, k, input);
          OutsideKeeps(s, k, input);
        }
      case Awaiting(_, _) =>
        AwaitingMoves(s, k, input);
        OutsideKeeps(s, k, input);
      case Completing(_, _, _, _) => CompletingKeeps(s, k, input);
      case Finished(_) =>
      case Crashed =>
    }
  }
}
