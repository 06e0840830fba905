// What every run of the dispatch protocol guarantees, for any number of senders and recovery
// callers, any interleaving of their steps, any crash and any database failure.
module DispatchLaws {
  import opened Wrappers
  import opened Text
  import opened Contracts
  import opened IntentRecords
  import opened IntentStore
  import opened Service
  import opened Dispatch
  import opened DispatchSteps
  import opened DispatchInvariant
  import opened DispatchRuns
  import opened DocumentStore
  import opened IntentDocuments
  import Fingerprint
  import L = SerializationLaws
  import Serialization

  // ---- Provider calls per scope ----

  function CallsFor(calls: seq<ProviderCall>, scope: Scope): nat {
    if calls == [] then 0 else (if calls[0].scope == scope then 1 else 0) + CallsFor(calls[1..], scope)
  }

  lemma {:induction false} CountIsPositive(calls: seq<ProviderCall>, scope: Scope, e: nat)
    requires e < |calls| && calls[e].scope == scope
    ensures CallsFor(calls, scope) >= 1
  {
    if e > 0 {
      CountIsPositive(calls[1..], scope, e - 1);
    }
  }

  lemma {:induction false} CountIsZero(calls: seq<ProviderCall>, scope: Scope)
    requires forall e :: 0 <= e < |calls| ==> calls[e].scope != scope
    ensures CallsFor(calls, scope) == 0
  {
    if calls != [] {
      CountIsZero(calls[1..], scope);
    }
  }

  lemma {:induction false} CountIsAtMostOne(calls: seq<ProviderCall>, scope: Scope)
    requires forall e, f :: 0 <= e < |calls| && 0 <= f < |calls| && calls[e].scope == scope == calls[f].scope ==> e == f
    ensures CallsFor(calls, scope) <= 1
  {
    if calls != [] {
      var rest := calls[1..];
      if calls[0].scope == scope {
        forall e | 0 <= e < |rest| ensures rest[e].scope != scope {
          assert rest[e] == calls[e + 1];
        }
        CountIsZero(rest, scope);
      } else {
        forall e, f | 0 <= e < |rest| && 0 <= f < |rest| && rest[e].scope == scope == rest[f].scope ensures e == f {
          assert rest[e] == calls[e + 1] && rest[f] == calls[f + 1];
        }
        CountIsAtMostOne(rest, scope);
      }
    }
  }

  /** A provider call belongs to the claim winner of the document of its scope. */
  lemma CallIsByWinner(s: System, e: nat)
    requires Inv(s) && e < |s.calls|
    ensures s.calls[e].sender < |s.senders|
    ensures var sender := s.senders[s.calls[e].sender];
            && JobOk(sender.job) && sender.callAt == Some(e) && s.calls[e].scope == sender.job.Scope()
            && Cleared(sender)
            && Where(s.docs, sender.job).Some?
            && s.tags[Where(s.docs, sender.job).value].winner == Some(s.calls[e].sender)
            && s.calls[e].providerKey == sender.job.subject.providerKey
            && s.calls[e].request ==
                 RequestFor(sender.job, s.docs[Where(s.docs, sender.job).value].intent.correlationId)
  {
    hide PhaseInv, DocInv, WellFormed, NonBlank, Fingerprint.RequestFingerprint;
    assert LogInv(s.senders, s.calls, e);
    var k := s.calls[e].sender;
    assert SenderInv(s.docs, s.tags, s.calls, k, s.senders[k]);
  }

  lemma CallsAreUnique(s: System, e: nat, f: nat)
    requires Inv(s) && e < |s.calls| && f < |s.calls| && s.calls[e].scope == s.calls[f].scope
    ensures e == f
  {
    hide Inv, JobOk;
    CallIsByWinner(s, e);
    CallIsByWinner(s, f);
  }

  /** The provider is called at most once per scope. */
  lemma AtMostOneCall(r: Run, p: nat, scope: Scope)
    requires At(r, p)
    ensures CallsFor(r.states[p].calls, scope) <= 1
  {
    hide Inv;
    RunKeeps(r, p);
    var s := r.states[p];
    forall e, f | 0 <= e < |s.calls| && 0 <= f < |s.calls| && s.calls[e].scope == scope == s.calls[f].scope
      ensures e == f
    {
      CallsAreUnique(s, e, f);
    }
    CountIsAtMostOne(s.calls, scope);
  }

  /** The document at `i` is the one of its scope. */
  lemma DocIsFound(s: System, i: nat, job: Job)
    requires StoreInv(s.docs) && i < |s.docs| && s.docs[i].intent.Key() == job.Scope()
    ensures Where(s.docs, job) == Some(i)
  {
    FindUnique(s.docs, ByScope(job.Scope()), i);
  }

  lemma NoWinnerNoCall(s: System, i: nat)
    requires Inv(s) && i < |s.docs| && s.tags[i].winner == None
    ensures CallsFor(s.calls, s.docs[i].intent.Key()) == 0
  {
    hide Inv, JobOk;
    forall e | 0 <= e < |s.calls| ensures s.calls[e].scope != s.docs[i].intent.Key() {
      CallIsByWinner(s, e);
      if s.calls[e].scope == s.docs[i].intent.Key() {
        StoreIsSound(s);
        DocIsFound(s, i, s.senders[s.calls[e].sender].job);
      }
    }
    CountIsZero(s.calls, s.docs[i].intent.Key());
  }

  lemma StoreIsSound(s: System)
    requires Inv(s)
    ensures StoreInv(s.docs) && |s.tags| == |s.docs|
  {
  }

  /** A document closed by the sender that called the provider has a call. */
  lemma CallerHasCall(s: System, i: nat, k: nat)
    requires Inv(s) && i < |s.docs| && s.tags[i].winner == Some(k) && k < |s.senders| && s.senders[k].callAt.Some?
    ensures CallsFor(s.calls, s.docs[i].intent.Key()) >= 1
  {
    hide PhaseInv, WellFormed, NonBlank, Fingerprint.RequestFingerprint, OriginInv, CloserInv;
    assert SenderInv(s.docs, s.tags, s.calls, k, s.senders[k]);
    assert DocInv(s.docs, s.tags, s.senders, i);
    CountIsPositive(s.calls, s.docs[i].intent.Key(), s.senders[k].callAt.value);
  }

  /** A dispatcher that closed a document without calling the provider found none registered. */
  predicate ClosedUnsent(d: Doc) {
    d.intent.result == Some(UnregisteredResult(d.intent))
  }

  lemma CallsFitDocument(s: System, i: nat)
    requires Inv(s) && i < |s.docs|
    ensures var d := s.docs[i];
            var n := CallsFor(s.calls, d.intent.Key());
            && (d.attempts == [] ==> n == 0)
            && (d.intent.state.Pending? ==> n == 0)
            && (d.intent.state.Accepted? ==> n >= 1)
            && (d.intent.state.Rejected? && n == 0 ==> d.attempts == [] || ClosedUnsent(d))
  {
    hide SenderInv, OriginInv, AttemptsValid, NonBlank;
    var (d, tag) := (s.docs[i], s.tags[i]);
    assert DocInv(s.docs, s.tags, s.senders, i);
    if tag.winner == None {
      NoWinnerNoCall(s, i);
    } else if tag.closer.ByDispatcher? && s.senders[tag.closer.sender].callAt.Some? {
      CallerHasCall(s, i, tag.closer.sender);
    }
  }

  /**
   * No call so far while PENDING; exactly one once ACCEPTED; none for an intent without an attempt,
   * as after a policy rejection. A rejection without a call is a policy rejection, or found no
   * registered provider.
   */
  lemma CallsFitTheState(r: Run, p: nat, i: nat)
    requires At(r, p) && i < |r.states[p].docs|
    ensures var d := r.states[p].docs[i];
            var n := CallsFor(r.states[p].calls, d.intent.Key());
            && (d.intent.state.Pending? || d.attempts == [] ==> n == 0)
            && (d.intent.state.Accepted? ==> n == 1)
            && (d.intent.state.Rejected? && n == 0 ==> d.attempts == [] || ClosedUnsent(d))
  {
    hide Inv, ClosedUnsent;
    RunKeeps(r, p);
    AtMostOneCall(r, p, r.states[p].docs[i].intent.Key());
    CallsFitDocument(r.states[p], i);
  }

  // ---- Answers are final ----

  lemma DispatcherIsOver(s: System, i: nat)
    requires Inv(s) && i < |s.docs| && (s.docs[i].intent.state.Accepted? || s.docs[i].intent.state.Rejected?)
    ensures !s.tags[i].closer.Open?
    ensures s.tags[i].winner.Some? ==>
            s.tags[i].winner.value < |s.senders| && Over(s.senders[s.tags[i].winner.value].phase)
    ensures s.tags[i].winner == None ==> s.docs[i].attempts == []
  {
    hide SenderInv, OriginInv, WellFormed;
    assert DocInv(s.docs, s.tags, s.senders, i);
  }

  lemma WinnerMadeTheCall(s: System, i: nat, e: nat)
    requires Inv(s) && i < |s.docs| && e < |s.calls| && s.calls[e].scope == s.docs[i].intent.Key()
    ensures s.tags[i].winner == Some(s.calls[e].sender) && s.calls[e].sender < |s.senders|
    ensures s.senders[s.calls[e].sender].callAt == Some(e)
  {
    hide Inv, JobOk;
    CallIsByWinner(s, e);
    StoreIsSound(s);
    DocIsFound(s, i, s.senders[s.calls[e].sender].job);
  }

  lemma CallIsOld(s: System, t: System, i: nat, e: nat)
    requires Inv(s) && Inv(t) && Later(s, t) && i < |s.docs|
    requires s.docs[i].intent.state.Accepted? || s.docs[i].intent.state.Rejected?
    requires e < |t.calls| && t.calls[e].scope == s.docs[i].intent.Key()
    ensures e < |s.calls|
  {
    hide PhaseInv, DocInv, WellFormed, NonBlank, Fingerprint.RequestFingerprint;
    assert DocEvolves(s.docs[i], t.docs[i]) && TagEvolves(s.tags[i], t.tags[i]);
    WinnerMadeTheCall(t, i, e);
    DispatcherIsOver(s, i);
    DispatcherIsOver(t, i);
    if s.tags[i].winner.Some? {
      var k := s.tags[i].winner.value;
      assert Continues(s.senders[k], t.senders[k]);
      assert SenderInv(s.docs, s.tags, s.calls, k, s.senders[k]);
    } else {
      NoAttemptNoWinner(t, i);
    }
  }

  lemma NoAttemptNoWinner(s: System, i: nat)
    requires Inv(s) && i < |s.docs|
    ensures s.tags[i].winner == None <==> s.docs[i].attempts == []
  {
    hide SenderInv, OriginInv, WellFormed;
    assert DocInv(s.docs, s.tags, s.senders, i);
  }

  /** Once an intent is ACCEPTED or REJECTED, nobody ever calls the provider for it again. */
  lemma NoCallAfterAnswer(r: Run, p: nat, q: nat, i: nat, e: nat)
    requires At(r, q) && p <= q && i < |r.states[p].docs|
    requires r.states[p].docs[i].intent.state.Accepted? || r.states[p].docs[i].intent.state.Rejected?
    requires e < |r.states[q].calls| && r.states[q].calls[e].scope == r.states[p].docs[i].intent.Key()
    ensures e < |r.states[p].calls| && r.states[p].calls[e] == r.states[q].calls[e]
  {
    hide Inv;
    RunKeeps(r, p);
    RunKeeps(r, q);
    RunsGrow(r, p, q);
    CallIsOld(r.states[p], r.states[q], i, e);
  }

  /** A terminal document never changes, and every document keeps its place and its identity. */
  lemma TerminalIsFinal(r: Run, p: nat, q: nat, i: nat)
    requires At(r, q) && p <= q && i < |r.states[p].docs|
    ensures i < |r.states[q].docs|
    ensures IntentEvolves(r.states[p].docs[i].intent, r.states[q].docs[i].intent)
    ensures r.states[p].docs[i].intent.state.IsTerminal() ==> r.states[q].docs[i] == r.states[p].docs[i]
  {
    RunsGrow(r, p, q);
    assert DocEvolves(r.states[p].docs[i], r.states[q].docs[i]);
  }

  // ---- What callers are told ----

  /** The sender returned this result. */
  predicate Returns(s: System, k: nat, r: DispatchResult) {
    k < |s.senders| && s.senders[k].phase == Finished(Result(r))
  }

  lemma ReturnsStored(s: System, k: nat, r: DispatchResult)
    requires Inv(s) && Returns(s, k, r)
    ensures JobOk(s.senders[k].job) && Settled(s.docs, s.tags, k, s.senders[k].job, r)
  {
    hide CallInv, DocInv, WellFormed, NonBlank, Fingerprint.RequestFingerprint;
    assert SenderInv(s.docs, s.tags, s.calls, k, s.senders[k]);
  }

  /**
   * All normal returns for one scope carry the result that is stored for it, up to the replay flag;
   * at most one of the callers is told that its own run produced it.
   */
  lemma OneResultPerScope(r: Run, p: nat, j: nat, k: nat, a: DispatchResult, b: DispatchResult)
    requires At(r, p) && Returns(r.states[p], j, a) && Returns(r.states[p], k, b)
    requires r.states[p].senders[j].job.Scope() == r.states[p].senders[k].job.Scope()
    ensures a.(idempotentReplay := false) == b.(idempotentReplay := false)
    ensures !a.idempotentReplay && !b.idempotentReplay ==> j == k
    ensures var i := Where(r.states[p].docs, r.states[p].senders[j].job);
            i.Some? && r.states[p].docs[i.value].intent.result == Some(a.(idempotentReplay := false))
  {
    hide Inv;
    RunKeeps(r, p);
    ReturnsStored(r.states[p], j, a);
    ReturnsStored(r.states[p], k, b);
  }

  /** A returned result is still the stored one at every later point of the run, and its caller's. */
  lemma ReturnsAreFinal(r: Run, p: nat, q: nat, k: nat, result: DispatchResult)
    requires At(r, q) && p <= q && Returns(r.states[p], k, result)
    ensures Returns(r.states[q], k, result)
    ensures var i := Where(r.states[p].docs, r.states[p].senders[k].job);
            && i.Some? && i.value < |r.states[q].docs|
            && r.states[q].docs[i.value].intent.result == Some(result.(idempotentReplay := false))
  {
    hide Inv;
    RunKeeps(r, p);
    RunsGrow(r, p, q);
    ReturnsStored(r.states[p], k, result);
    var i := Where(r.states[p].docs, r.states[p].senders[k].job).value;
    ResultsAreTerminal(r.states[p], i);
    TerminalIsFinal(r, p, q, i);
    assert Continues(r.states[p].senders[k], r.states[q].senders[k]);
  }

  lemma ResultsAreTerminal(s: System, i: nat)
    requires Inv(s) && i < |s.docs|
    ensures s.docs[i].intent.result.Some? <==> s.docs[i].intent.state.IsTerminal()
  {
    hide SenderInv, DocInv, NonBlank;
  }

  /**
   * Every reachable document satisfies the record rules; its stored fields are read as its intent, and
   * whatever call takes its next step, with whatever failure, changes the stored fields of all documents
   * as it changes the typed ones.
   */
  lemma EveryDocumentDecodes(r: Run, p: nat, i: nat, pc: Pc, now: int, fault: Fault)
    requires At(r, p) && i < |r.states[p].docs|
    ensures var d := r.states[p].docs[i];
            WellFormed(d) && ReadIntent(Nested(Stored(d))) == Ok(d.intent)
    ensures Refines(AdvanceOnDocuments(StoredAll(r.states[p].docs), pc, now, fault),
                    Advance(r.states[p].docs, pc, now, fault))
  {
    hide SenderInv, DocInv, NonBlank, ReadIntent, Stored;
    RunKeeps(r, p);
    WellFormedDecodes(r.states[p].docs[i]);
    StoredReads(r.states[p].docs[i]);
    DocumentsRefine(r.states[p].docs, pc, now, fault);
  }

  /** What the stored intent has to do with the request of a sender that has its answer. */
  predicate AnswerFits(docs: Store, sender: Sender)
    requires JobOk(sender.job)
  {
    match sender.phase
    case Finished(Result(_)) =>
      Where(docs, sender.job).Some? && SameRequest(sender.job, docs[Where(docs, sender.job).value].intent)
    case Finished(Failed(IdempotencyConflict)) =>
      Where(docs, sender.job).Some? && !SameRequest(sender.job, docs[Where(docs, sender.job).value].intent)
    case _ => true
  }

  lemma AnswerStable(docs: Store, docs': Store, sender: Sender)
    requires StoreInv(docs) && StoreInv(docs') && Evolves(docs, docs') && JobOk(sender.job) && AnswerFits(docs, sender)
    ensures AnswerFits(docs', sender)
  {
    hide StoreInv, JobOk, FingerprintOf;
    if Where(docs, sender.job).Some? {
      WhereStable(docs, docs', sender.job);
    }
  }

  /** A lookup or a creation answers by what is stored. */
  lemma ReadingAnswers(s: System, k: nat, input: Input)
    requires Inv(s) && k < |s.senders| && (s.senders[k].phase.Looking? || s.senders[k].phase.Creating?)
    ensures JobOk(s.senders[k].job) && AnswerFits(s.docs, MoveSender(s, k, input).senders[k])
  {
    hide CallInv, DocInv, WellFormed, NonBlank, FingerprintOf, Retag, Op, Serialization.Deserialize, IntentFor,
      RequestFor, IsSensitive, StoreInv;
    JobsAreOk(s, k);
    StoreIsSound(s);
    var (job, phase) := (s.senders[k].job, s.senders[k].phase);
    match phase
    case Looking(_) => GetStep(s.docs, job.Scope(), input.now, input.fault);
    case Creating(_, pc) =>
      CreatorAsks(job, phase);
      if pc.CreateUpsert? {
        UpsertStep(s.docs, pc.intent, input.now, input.fault);
      } else {
        CreateReadStep(s.docs, pc, pc.intent, input.now, input.fault);
      }
  }

  lemma CreatorAsks(job: Job, phase: Phase)
    requires JobOk(job) && phase.Creating?
             && (phase.pc.CreateUpsert? || phase.pc.CreateConfirm? || phase.pc.CreateDuplicate?)
    requires phase.pc.intent == IntentFor(job, phase.pc.intent.intentId, phase.request.correlationId)
    ensures phase.pc.intent.Key() == job.Scope()
  {
    hide FingerprintOf, Serialization.Serialize;
  }

  /** From then on, the sender has its own request. */
  lemma WorkingAnswers(s: System, k: nat, input: Input)
    requires Inv(s) && k < |s.senders| && !Over(s.senders[k].phase)
    requires !s.senders[k].phase.Looking? && !s.senders[k].phase.Creating? && !s.senders[k].phase.Resolving?
    ensures JobOk(s.senders[k].job) && AnswerFits(s.docs, MoveSender(s, k, input).senders[k])
  {
    hide CallInv, DocInv, WellFormed, NonBlank, FingerprintOf, Retag, Op, Serialization.Deserialize, GatewayResult,
      UnregisteredResult, DeniedResult, RequestFor, IsSensitive, StoreInv, Expected, MayHold, Cleared, CreatedBy,
      CreatingPc, JobOk;
    JobsAreOk(s, k);
  }

  /** A lost race is lost to the sender's own request. */
  lemma RaceAnswers(s: System, k: nat, input: Input)
    requires Inv(s) && k < |s.senders| && s.senders[k].phase.Resolving?
    ensures JobOk(s.senders[k].job) && AnswerFits(s.docs, MoveSender(s, k, input).senders[k])
  {
    hide CallInv, DocInv, WellFormed, NonBlank, FingerprintOf, Retag, Op, Serialization.Deserialize, IntentFor,
      RequestFor, IsSensitive, StoreInv, MayHold, Cleared, CreatedBy, CreatingPc, JobOk;
    JobsAreOk(s, k);
    StoreIsSound(s);
    GetStep(s.docs, s.senders[k].job.Scope(), input.now, input.fault);
  }

  lemma AnswerStep(s: System, e: Event, k: nat)
    requires Inv(s) && Inv(Next(s, e)) && k < |Next(s, e).senders|
    requires k < |s.senders| ==> JobOk(s.senders[k].job) && AnswerFits(s.docs, s.senders[k])
    ensures JobOk(Next(s, e).senders[k].job) && AnswerFits(Next(s, e).docs, Next(s, e).senders[k])
  {
    hide Inv, AnswerFits, JobOk, MoveSender, StepRecovery, Evolves, Prepare, Typed;
    var t := Next(s, e);
    JobsAreOk(t, k);
    StoreIsSound(s);
    StoreIsSound(t);
    NextIsLater(s, e);
    if e.Move? && e.sender == k && k < |s.senders| && !Over(s.senders[k].phase) {
      if s.senders[k].phase.Looking? || s.senders[k].phase.Creating? {
        ReadingAnswers(s, k, e.input);
      } else if s.senders[k].phase.Resolving? {
        RaceAnswers(s, k, e.input);
      } else {
        WorkingAnswers(s, k, e.input);
      }
      AnswerStable(s.docs, t.docs, t.senders[k]);
    } else if k < |s.senders| && t.senders[k] == s.senders[k] {
      AnswerStable(s.docs, t.docs, s.senders[k]);
    } else {
      Unanswered(s, e, k);
      NoAnswerFits(t.docs, t.senders[k]);
    }
  }

  /** A sender that another event changes has just begun, or crashed. */
  lemma Unanswered(s: System, e: Event, k: nat)
    requires k < |Next(s, e).senders|
    requires k < |s.senders| ==> Continues(s.senders[k], Next(s, e).senders[k]) && Next(s, e).senders[k] != s.senders[k]
    requires !(e.Move? && e.sender == k && k < |s.senders| && !Over(s.senders[k].phase))
    ensures !Next(s, e).senders[k].phase.Finished?
  {
    hide Prepare, AfterStep, Advance, Retag, RetagRecovered, Serialization.Serialize, Pick, GatewayResult, JobOk,
      Fingerprint.RequestFingerprint, NonBlank, StartCompleting, AfterPolicy, AfterSession;
  }

  lemma NoAnswerFits(docs: Store, sender: Sender)
    requires JobOk(sender.job) && !sender.phase.Finished?
    ensures AnswerFits(docs, sender)
  {
  }

  lemma {:induction false} AnswersFit(r: Run, p: nat, k: nat)
    requires At(r, p) && k < |r.states[p].senders|
    ensures JobOk(r.states[p].senders[k].job) && AnswerFits(r.states[p].docs, r.states[p].senders[k])
    decreases p
  {
    hide Next, Inv, AnswerFits, JobOk;
    RunKeeps(r, p);
    if p > 0 {
      assert StepsAt(r, p - 1);
      RunKeeps(r, p - 1);
      if k < |r.states[p - 1].senders| {
        AnswersFit(r, p - 1, k);
      }
      AnswerStep(r.states[p - 1], r.events[p - 1], k);
    }
  }

  /**
   * However calls race, a result answers a request that is alike the one its intent was created for,
   * and a call is refused as conflicting only if its request is not.
   */
  lemma AnswersFitTheRequest(r: Run, p: nat, k: nat)
    requires At(r, p) && k < |r.states[p].senders|
    requires r.states[p].senders[k].phase.Finished?
    ensures var (s, job, outcome) := (r.states[p], r.states[p].senders[k].job, r.states[p].senders[k].phase.outcome);
            var i := Where(s.docs, job);
            && JobOk(job) && |s.tags| == |s.docs|
            && (outcome.Result? ==>
                  && i.Some? && SameRequest(job, s.docs[i.value].intent) && Alike(job, s.tags[i.value].job))
            && (outcome == Failed(IdempotencyConflict) ==>
                  && i.Some? && !SameRequest(job, s.docs[i.value].intent) && !Alike(job, s.tags[i.value].job))
  {
    hide Inv, JobOk, FingerprintOf, Alike;
    RunKeeps(r, p);
    AnswersFit(r, p, k);
    StoreIsSound(r.states[p]);
    if Where(r.states[p].docs, r.states[p].senders[k].job).Some? {
      AlikeIffSame(r.states[p], Where(r.states[p].docs, r.states[p].senders[k].job).value, r.states[p].senders[k].job);
    }
  }

  lemma AlikeIffSame(s: System, i: nat, job: Job)
    requires Inv(s) && i < |s.docs| && JobOk(job)
    ensures |s.tags| == |s.docs| && (SameRequest(job, s.docs[i].intent) <==> Alike(job, s.tags[i].job))
  {
    hide SenderInv, CreatorInv, CloserInv, WellFormed, NonBlank, Fingerprint.RequestFingerprint,
      Serialization.Serialize, Fingerprint.Erase;
    assert DocInv(s.docs, s.tags, s.senders, i);
    Fingerprint.FingerprintsAgreeIff(job.subject, job.key, s.tags[i].job.subject, s.tags[i].job.key);
  }

  // ---- Failures ----

  lemma CallerIsKnown(s: System, k: nat)
    requires Inv(s) && k < |s.senders|
    ensures s.senders[k].callAt.Some? <==> exists e :: 0 <= e < |s.calls| && s.calls[e].sender == k
  {
    hide PhaseInv, DocInv, WellFormed, NonBlank, Fingerprint.RequestFingerprint;
    assert SenderInv(s.docs, s.tags, s.calls, k, s.senders[k]);
    if s.senders[k].callAt.Some? {
      assert s.calls[s.senders[k].callAt.value].sender == k;
    }
    forall e | 0 <= e < |s.calls| && s.calls[e].sender == k ensures s.senders[k].callAt.Some? {
      assert LogInv(s.senders, s.calls, e);
    }
  }

  /**
   * No run is refused a terminal intent by the checks of `MessageIntent`, whatever providers answer;
   * and a run fails with the post-dispatch error exactly if it called the provider.
   */
  lemma FailureTellsWhetherSent(r: Run, p: nat, k: nat, error: ServiceError)
    requires At(r, p) && k < |r.states[p].senders| && r.states[p].senders[k].phase == Finished(Failed(error))
    ensures error != BrokenContract
    ensures error.PostDispatchPersistence? <==>
            exists e :: 0 <= e < |r.states[p].calls| && r.states[p].calls[e].sender == k
  {
    hide CallInv, DocInv, WellFormed, NonBlank, Fingerprint.RequestFingerprint;
    RunKeeps(r, p);
    var s := r.states[p];
    assert SenderInv(s.docs, s.tags, s.calls, k, s.senders[k]);
    CallerIsKnown(s, k);
  }

  /** Only recovery can close an intent between its claim and the completion by the claim's winner. */
  lemma OvertakenByRecovery(s: System, k: nat)
    requires Inv(s) && k < |s.senders| && s.senders[k].phase.Completing?
    ensures JobOk(s.senders[k].job) && Where(s.docs, s.senders[k].job).Some?
    ensures var i := Where(s.docs, s.senders[k].job).value;
            && s.docs[i].intent.intentId == s.senders[k].phase.intent.intentId
            && (s.tags[i].closer.ByRecovery? <==> !s.docs[i].intent.state.Dispatching?)
            && IntentEvolves(s.senders[k].phase.intent, s.docs[i].intent)
            && s.senders[k].phase.intent.state.Dispatching?
            && CompletionPc(s.senders[k].phase.pc, s.senders[k].phase.intent.intentId, Dispatching,
                            s.senders[k].phase.result)
            && PcInv(s.docs, s.senders[k].phase.pc)
            && (s.senders[k].phase.invoked <==> s.senders[k].callAt.Some?)
            && s.docs[i].intent.Matches(s.senders[k].phase.result)
            && Expected(s.senders[k].phase.intent, s.senders[k].phase.result) ==
                 Expected(s.docs[i].intent, s.senders[k].phase.result)
  {
    hide CallInv, NonBlank, Fingerprint.RequestFingerprint, AttemptsValid, UnregisteredResult;
    assert SenderInv(s.docs, s.tags, s.calls, k, s.senders[k]);
    assert DocInv(s.docs, s.tags, s.senders, Where(s.docs, s.senders[k].job).value);
  }

  /** What a completion from DISPATCHING does when the database and the clock do not fail. */
  lemma ReliableCompletion(docs: Store, pc: Pc, i: nat, result: DispatchResult, now: int)
    requires StoreInv(docs) && i < |docs| && PcInv(docs, pc) && now >= 0
    requires CompletionPc(pc, docs[i].intent.intentId, Dispatching, result) && docs[i].intent.Matches(result)
    ensures var pc' := Advance(docs, pc, now, NoFault).pc;
            if !docs[i].intent.state.Dispatching? then pc' == Returned(Found(None))
            else if pc.CompleteRead? then pc' == CompleteWrite(docs[i].intent.intentId, Dispatching, result, Some(0))
            else pc' == Returned(Found(Some(Expected(docs[i].intent, result))))
  {
    hide NonBlank;
    var id := docs[i].intent.intentId;
    FindUnique(docs, ById(id), i);
    if pc.CompleteWrite? {
      CompletionKeepsStore(docs, id, Dispatching, result, pc.active, now);
    } else {
      CompletionReadStep(docs, id, Dispatching, result, now);
      if docs[i].intent.state.Dispatching? {
        FindUnique(docs, ByIdInState(id, Dispatching), i);
      } else {
        assert !Matches(docs[i], ByIdInState(id, Dispatching));
        if Find(docs, ByIdInState(id, Dispatching)).Some? {
          FindUnique(docs, ById(id), Find(docs, ByIdInState(id, Dispatching)).value);
        }
      }
    }
  }

  lemma CompletionOutcome(s: System, k: nat, input: Input)
    requires Inv(s) && k < |s.senders| && s.senders[k].phase.Completing? && input.fault.NoFault? && input.now >= 0
    ensures Where(s.docs, s.senders[k].job).Some?
    ensures var phase := s.senders[k].phase;
            var after := MoveSender(s, k, input).senders[k].phase;
            if s.tags[Where(s.docs, s.senders[k].job).value].closer.ByRecovery? then
              after == Finished(Failed(if s.senders[k].callAt.Some? then PostDispatchPersistence else Dependency))
            else
              after.Completing? || after == Finished(Result(phase.result))
  {
    hide Inv, NonBlank, JobOk, Op, Retag, DocEvolves;
    OvertakenByRecovery(s, k);
    StoreIsSound(s);
    var phase := s.senders[k].phase;
    ReliableCompletion(s.docs, phase.pc, Where(s.docs, s.senders[k].job).value, phase.result, input.now);
  }

  /**
   * With a database and a clock that do not fail, the completion by the dispatcher fails exactly if
   * recovery closed the intent first, and then with the post-dispatch error exactly if the provider
   * was called.
   */
  lemma CompletionFailsIffRecovered(r: Run, p: nat, k: nat, input: Input)
    requires At(r, p) && k < |r.states[p].senders| && r.states[p].senders[k].phase.Completing?
    requires input.fault.NoFault? && input.now >= 0
    ensures var s := r.states[p];
            var after := MoveSender(s, k, input).senders[k].phase;
            && Where(s.docs, s.senders[k].job).Some? && |s.tags| == |s.docs|
            && ((after.Finished? && after.outcome.Failed?) <==>
                s.tags[Where(s.docs, s.senders[k].job).value].closer.ByRecovery?)
            && (after.Finished? && after.outcome.Failed? ==>
                  after.outcome.error ==
                  if exists e :: 0 <= e < |s.calls| && s.calls[e].sender == k then PostDispatchPersistence
                    else Dependency)
            && (after.Finished? && after.outcome.Result? ==> after.outcome.result == s.senders[k].phase.result)
  {
    hide Inv, MoveSender;
    RunKeeps(r, p);
    StoreIsSound(r.states[p]);
    CallerIsKnown(r.states[p], k);
    CompletionOutcome(r.states[p], k, input);
  }

  // ---- What is sent, and to whom ----

  /**
   * Every provider call carries exactly the recipient, message and idempotency key of the run that
   * made it, even when the request was restored from storage; it is made at the provider that run
   * selected, under the correlation identifier of the stored intent, whose fingerprint is this run's.
   */
  lemma CallCarriesItsRequest(r: Run, p: nat, e: nat)
    requires At(r, p) && e < |r.states[p].calls|
    ensures var (s, call) := (r.states[p], r.states[p].calls[e]);
            && call.sender < |s.senders|
            && var job := s.senders[call.sender].job;
               && JobOk(job) && call.scope == job.Scope() && Where(s.docs, job).Some?
               && call.providerKey == job.subject.providerKey
               && var intent := s.docs[Where(s.docs, job).value].intent;
                  && call.request ==
                       MessageRequest(job.subject.recipient, job.subject.message, intent.correlationId,
                                      job.idempotencyKey)
                  && intent.providerKey == call.providerKey
                  && intent.requestFingerprint == FingerprintOf(job)
  {
    hide Inv, NonBlank, JobOk, FingerprintOf;
    RunKeeps(r, p);
    CallIsByWinner(r.states[p], e);
    CallerOwnsIntent(r.states[p], r.states[p].calls[e].sender);
  }

  lemma CallerOwnsIntent(s: System, k: nat)
    requires Inv(s) && k < |s.senders| && s.senders[k].callAt.Some?
    ensures JobOk(s.senders[k].job) && Where(s.docs, s.senders[k].job).Some?
    ensures var intent := s.docs[Where(s.docs, s.senders[k].job).value].intent;
            SameRequest(s.senders[k].job, intent) && intent.providerKey == s.senders[k].job.subject.providerKey
    ensures MayHold(s.docs, s.tags, k, s.senders[k].job)
  {
    hide PhaseInv, NonBlank, WellFormed, CloserInv, Fingerprint.RequestFingerprint;
    assert SenderInv(s.docs, s.tags, s.calls, k, s.senders[k]);
    var i := Where(s.docs, s.senders[k].job).value;
    assert DocInv(s.docs, s.tags, s.senders, i);
    SameFingerprint(s.tags[i].job, s.senders[k].job);
  }

  /** Sensitive parameters are never sent from storage: only the run that created the intent sends them. */
  lemma SensitiveIsSentByItsCreator(r: Run, p: nat, e: nat)
    requires At(r, p) && e < |r.states[p].calls| && r.states[p].calls[e].sender < |r.states[p].senders|
    requires L.ContainsSensitive(r.states[p].calls[e].request.message)
    ensures var (s, call) := (r.states[p], r.states[p].calls[e]);
            var i := Where(s.docs, s.senders[call.sender].job);
            i.Some? && i.value < |s.tags| && s.tags[i.value].creator == call.sender
  {
    hide Inv, NonBlank, JobOk, FingerprintOf;
    RunKeeps(r, p);
    CallIsByWinner(r.states[p], e);
    CallerOwnsIntent(r.states[p], r.states[p].calls[e].sender);
    StoreIsSound(r.states[p]);
  }

  // ---- Policies ----

  predicate Allows(answer: PolicyAnswer) {
    answer.Eligibility? && answer.consented && !answer.suppressed
  }

  /** Step `n` of the run is the one where caller `k` found its recipient eligible. */
  predicate PolicyAgreed(r: Run, n: nat, k: nat)
    requires IsRun(r)
  {
    && n < |r.events| && r.events[n].Move? && r.events[n].sender == k && Allows(r.events[n].input.policy)
    && k < |r.states[n].senders| && r.states[n].senders[k].phase.Policy?
  }

  /** Step `n` of the run is the one where caller `k` found its text session active. */
  predicate SessionAgreed(r: Run, n: nat, k: nat)
    requires IsRun(r)
  {
    && n < |r.events| && r.events[n].Move? && r.events[n].sender == k && r.events[n].input.session == Active(true)
    && k < |r.states[n].senders| && r.states[n].senders[k].phase.Session?
  }

  lemma EvidenceStep(s: System, e: Event, k: nat)
    requires k < |Next(s, e).senders|
    ensures Next(s, e).senders[k].evidence.recipient.Some? ==>
              k < |s.senders| && (s.senders[k].evidence.recipient.Some?
                || (s.senders[k].phase.Policy? && e.Move? && e.sender == k && Allows(e.input.policy)))
    ensures Next(s, e).senders[k].evidence.session.Some? ==>
              k < |s.senders| && (s.senders[k].evidence.session.Some?
                || (s.senders[k].phase.Session? && e.Move? && e.sender == k && e.input.session == Active(true)))
  {
    hide Prepare, AfterStep, Advance, Retag, RetagRecovered, Serialization.Serialize, Pick, GatewayResult,
      Fingerprint.RequestFingerprint, NonBlank, StartCompleting, AfterPolicy, AfterSession;
  }

  lemma {:induction false} RecipientIsEarned(r: Run, p: nat, k: nat)
    requires At(r, p) && k < |r.states[p].senders| && r.states[p].senders[k].evidence.recipient.Some?
    ensures exists n: nat :: n < p && PolicyAgreed(r, n, k)
  {
    hide Next;
    if p > 0 {
      assert StepsAt(r, p - 1);
      EvidenceStep(r.states[p - 1], r.events[p - 1], k);
      if r.states[p - 1].senders[k].evidence.recipient.Some? {
        RecipientIsEarned(r, p - 1, k);
      } else {
        assert PolicyAgreed(r, p - 1, k);
      }
    }
  }

  lemma {:induction false} SessionIsEarned(r: Run, p: nat, k: nat)
    requires At(r, p) && k < |r.states[p].senders| && r.states[p].senders[k].evidence.session.Some?
    ensures exists n: nat :: n < p && SessionAgreed(r, n, k)
  {
    hide Next;
    if p > 0 {
      assert StepsAt(r, p - 1);
      EvidenceStep(r.states[p - 1], r.events[p - 1], k);
      if r.states[p - 1].senders[k].evidence.session.Some? {
        SessionIsEarned(r, p - 1, k);
      } else {
        assert SessionAgreed(r, p - 1, k);
      }
    }
  }

  /** A caller that is still at its policies has not called, so its call comes later. */
  lemma AskedBeforeCalling(r: Run, n: nat, p: nat, e: nat)
    requires At(r, p) && n <= p && e < |r.states[p].calls|
    requires var (s, k) := (r.states[n], r.states[p].calls[e].sender);
             k < |s.senders| && (s.senders[k].phase.Policy? || s.senders[k].phase.Session?)
    ensures |r.states[n].calls| <= e
  {
    hide CallInv, DocInv, NonBlank, WellFormed, Fingerprint.RequestFingerprint;
    var (s, k) := (r.states[n], r.states[p].calls[e].sender);
    RunKeeps(r, n);
    assert SenderInv(s.docs, s.tags, s.calls, k, s.senders[k]);
    CallerIsKnown(s, k);
    RunsGrow(r, n, p);
  }

  /**
   * Before any provider call, the run that makes it found its own recipient eligible and, for a text,
   * found the session of its own recipient and purpose active; by `CallCarriesItsRequest` that
   * recipient is the one the message goes to.
   */
  lemma EveryCallWasAllowed(r: Run, p: nat, e: nat)
    requires At(r, p) && e < |r.states[p].calls|
    ensures var k := r.states[p].calls[e].sender;
            && k < |r.states[p].senders|
            && (exists n: nat :: n < p && PolicyAgreed(r, n, k) && |r.states[n].calls| <= e)
            && (r.states[p].senders[k].job.purpose.Some? ==>
                  exists n: nat :: n < p && SessionAgreed(r, n, k) && |r.states[n].calls| <= e)
  {
    hide Inv;
    RunKeeps(r, p);
    CallIsByWinner(r.states[p], e);
    var k := r.states[p].calls[e].sender;
    RecipientIsEarned(r, p, k);
    var n: nat :| n < p && PolicyAgreed(r, n, k);
    AskedBeforeCalling(r, n, p, e);
    if r.states[p].senders[k].job.purpose.Some? {
      SessionIsEarned(r, p, k);
      var m: nat :| m < p && SessionAgreed(r, m, k);
      AskedBeforeCalling(r, m, p, e);
    }
  }

  // ---- Recovery ----

  /** No recovery write took effect while its caller was told of a failure. */
  predicate RecoveryReliable(r: Run) {
    forall e <- r.events :: e.MoveRecovery? ==> !e.fault.FailAfter?
  }

  lemma LossStep(s: System, e: Event)
    ensures Next(s, e).lost == s.lost + if e.MoveRecovery? && e.fault.FailAfter? && Next(s, e).docs != s.docs then 1
            else 0
  {
    hide Prepare, AfterStep, Advance, Retag, RetagRecovered, Serialization.Serialize, Pick, GatewayResult,
      Fingerprint.RequestFingerprint, NonBlank, StartCompleting, AfterPolicy, AfterSession;
  }

  lemma {:induction false} NothingIsLost(r: Run, p: nat)
    requires At(r, p) && RecoveryReliable(r)
    ensures r.states[p].lost == 0
  {
    hide Next;
    if p > 0 {
      assert StepsAt(r, p - 1);
      NothingIsLost(r, p - 1);
      LossStep(r.states[p - 1], r.events[p - 1]);
    }
  }

  /**
   * However recovery calls race with dispatchers and with each other, the numbers they return or
   * have reached add up to the number of intents that recovery moved to UNKNOWN, less those whose
   * write took effect while the database reported a failure.
   */
  lemma RecoveriesAddUp(r: Run, p: nat)
    requires At(r, p)
    ensures TotalRecovered(r.states[p].recoverers) + r.states[p].lost == CountRecovered(r.states[p].tags)
    ensures RecoveryReliable(r) ==> TotalRecovered(r.states[p].recoverers) == CountRecovered(r.states[p].tags)
  {
    hide SenderInv, DocInv, WellFormed;
    RunKeeps(r, p);
    if RecoveryReliable(r) {
      NothingIsLost(r, p);
    }
  }

  /** An intent that recovery closed had been claimed, and is UNKNOWN for good. */
  lemma RecoveredIsUnknown(r: Run, p: nat, q: nat, i: nat)
    requires At(r, q) && p <= q && i < |r.states[p].docs| == |r.states[p].tags|
             && r.states[p].tags[i].closer.ByRecovery?
    ensures r.states[p].docs[i].intent.state.Unknown? && r.states[p].docs[i].attemptCount == 1
    ensures i < |r.states[q].docs| && r.states[q].docs[i] == r.states[p].docs[i]
  {
    hide SenderInv, OriginInv;
    RunKeeps(r, p);
    assert DocInv(r.states[p].docs, r.states[p].tags, r.states[p].senders, i);
    TerminalIsFinal(r, p, q, i);
  }
}
