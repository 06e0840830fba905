// How what a run leaves behind came about: which call asked for it, what the policies and the provider
// answered, and at which steps.
module DispatchHistory {
  import opened Wrappers
  import opened Text
  import opened Contracts
  import opened IntentRecords
  import opened IntentStore
  import opened Service
  import opened Dispatch
  import opened DispatchSteps
  import opened DispatchInvariant
  import opened DispatchRuns
  import opened DispatchLaws
  import opened DispatchConditions
  import opened DispatchProgress
  import Fingerprint
  import Recovery
  import Serialization

  // ---- The call behind a caller ----

  /** Event `n` of the run is the call that caller `k` is about. */
  predicate BeganAt(r: Run, n: nat, k: nat)
    requires IsRun(r)
  {
    && n < |r.events| && r.events[n].Begin? && |r.states[n].senders| == k
    && Typed(r.events[n].config, r.events[n].call)
  }

  lemma BeginStep(s: System, e: Event, k: nat)
    requires k < |Next(s, e).senders|
    ensures k < |s.senders| ==> Next(s, e).senders[k].job == s.senders[k].job
    ensures k >= |s.senders| ==>
              && k == |s.senders| && e.Begin? && Typed(e.config, e.call)
              && Prepare(e.config, e.call) == Ok(Next(s, e).senders[k].job)
  {
    hide Prepare, AfterStep, Advance, Retag, RetagRecovered, Serialization.Serialize, Pick, GatewayResult, JobOk,
      Fingerprint.RequestFingerprint, NonBlank, StartCompleting, AfterPolicy, AfterSession, Typed;
  }

  /** Every caller is about exactly what its call asked for. */
  lemma {:induction false} CallersAsk(r: Run, p: nat, k: nat)
    requires At(r, p) && k < |r.states[p].senders|
    ensures exists n: nat :: n < p && BeganAt(r, n, k)
              && Asked(r.events[n].config, r.events[n].call, r.states[p].senders[k].job)
  {
    hide Next, Asked, Typed;
    if p > 0 {
      var (s, e) := (r.states[p - 1], r.events[p - 1]);
      assert StepsAt(r, p - 1);
      BeginStep(s, e, k);
      if k < |s.senders| {
        CallersAsk(r, p - 1, k);
      } else {
        PrepareIff(e.config, e.call);
        assert BeganAt(r, p - 1, k);
      }
    }
  }

  /**
   * Every provider call goes to the number and carries the message, body or template with its values,
   * that its caller's call asked for, at the provider and under the idempotency key of that call.
   */
  lemma CallCarriesWhatWasAsked(r: Run, p: nat, e: nat)
    requires At(r, p) && e < |r.states[p].calls|
    ensures exists n: nat :: n < p && BeganAt(r, n, r.states[p].calls[e].sender)
              && Carries(r.events[n].config, r.events[n].call, r.states[p].calls[e])
  {
    hide Inv, JobOk, FingerprintOf, Addressed, Describes;
    CallCarriesItsRequest(r, p, e);
    CallersAsk(r, p, r.states[p].calls[e].sender);
  }

  /** The provider call carries what the caller's call asked for. */
  predicate Carries(config: Config, call: SendCall, sent: ProviderCall) {
    && Means(config, call, sent.request.recipient, sent.request.message)
    && sent.request.idempotencyKey == call.idempotencyKey
    && sent.scope == Contracts.Scope(call.sourceFlow, call.idempotencyKey)
    && sent.providerKey == (if call.SendText? then config.textProviderKey
                            else if call.catalog.Alias? then call.catalog.alias.providerKey
                            else "")
  }

  /** Every stored intent has the names of the call that created it, and stores the request it asked for. */
  lemma StoredAsAsked(r: Run, p: nat, i: nat)
    requires At(r, p) && i < |r.states[p].docs|
    ensures |r.states[p].tags| == |r.states[p].docs|
    ensures exists n: nat, recipient, message :: n < p && BeganAt(r, n, r.states[p].tags[i].creator)
              && Means(r.events[n].config, r.events[n].call, recipient, message)
              && Records(r.states[p].docs[i].intent, r.events[n].call, recipient, message)
  {
    hide SenderInv, WellFormed, NonBlank, CloserInv, Addressed, Describes, Serialization.Serialize, FingerprintOf;
    var s := r.states[p];
    RunKeeps(r, p);
    assert DocInv(s.docs, s.tags, s.senders, i);
    var k := s.tags[i].creator;
    CallersAsk(r, p, k);
    var n: nat :| n < p && BeganAt(r, n, k) && Asked(r.events[n].config, r.events[n].call, s.senders[k].job);
    assert Records(s.docs[i].intent, r.events[n].call, s.tags[i].job.subject.recipient, s.tags[i].job.subject.message);
  }

  predicate Records(intent: MessageIntent, call: SendCall, recipient: string, message: Message) {
    && intent.sourceFlow == call.sourceFlow && intent.idempotencyKey == call.idempotencyKey
    && intent.actorId == call.actorId
    && intent.serializedRequest ==
         Serialization.Serialize(MessageRequest(recipient, message, intent.correlationId, call.idempotencyKey))
  }

  // ---- A caller takes each kind of step once ----

  /** Step `n` of the run is one of caller `k`. */
  predicate MovesAt(r: Run, n: nat, k: nat)
    requires IsRun(r)
  {
    n < |r.events| && r.events[n].Move? && r.events[n].sender == k && k < |r.states[n].senders|
  }

  lemma {:induction false} MovesAreCounted(r: Run, k: nat, n: nat, p: nat)
    requires IsRun(r) && n < p <= |r.events| && MovesAt(r, n, k)
    ensures MovesOf(r, k, n, p) >= 1
    decreases p
  {
    if p > n + 1 {
      MovesAreCounted(r, k, n, p - 1);
    }
  }

  lemma LaterIsNearer(r: Run, k: nat, n: nat, p: nat)
    requires At(r, p) && n < p && MovesAt(r, n, k)
    ensures k < |r.states[p].senders|
    ensures Over(r.states[p].senders[k].phase)
            || Rank(r.states[p].senders[k].phase) < Rank(r.states[n].senders[k].phase)
  {
    hide Next, Inv;
    SendsEnd(r, k, n, p);
    MovesAreCounted(r, k, n, p);
  }

  lemma OneStepEach(r: Run, k: nat, n: nat, m: nat)
    requires IsRun(r) && MovesAt(r, n, k) && MovesAt(r, m, k)
    requires var (a, b) := (r.states[n].senders[k].phase, r.states[m].senders[k].phase);
             !Over(a) && !Over(b) && Rank(a) == Rank(b)
    ensures n == m
  {
    if n < m {
      LaterIsNearer(r, k, n, m);
    } else if m < n {
      LaterIsNearer(r, k, m, n);
    }
  }

  // ---- What the policies decided ----

  /** The input is an answer by which the policies refuse what the sender asks for. */
  predicate Refusal(sender: Sender, input: Input) {
    match sender.phase
    case Policy(_, _) => input.policy.Eligibility? && input.policy != Eligibility(true, false)
    case Session(_, _) => input.session == Active(false)
    case _ => false
  }

  /** The input is the last answer that was needed to allow it. */
  predicate Permission(sender: Sender, input: Input) {
    match sender.phase
    case Policy(_, _) => input.policy == Eligibility(true, false) && sender.job.purpose == None
    case Session(_, _) => input.session == Active(true)
    case _ => false
  }

  /** The input is the failure of the policy that is asked. */
  predicate Breakdown(sender: Sender, input: Input) {
    match sender.phase
    case Policy(_, _) => input.policy == PolicyFails
    case Session(_, _) => input.session == SessionFails
    case _ => false
  }

  /** The sender is about to have its intent rejected by policy, in a document that is PENDING still. */
  predicate Rejects(phase: Phase, intent: MessageIntent) {
    && phase.Denying? && phase.intent == intent && phase.pc.CompleteRead?
    && phase.pc.id == intent.intentId && phase.pc.expected == Pending && SaysRejectedByPolicy(intent, phase.pc.result)
  }

  /** What follows from each answer. */
  predicate Takes(sender: Sender, input: Input, phase: Phase)
    requires sender.phase.Policy? || sender.phase.Session?
  {
    var (intent, request) := (sender.phase.intent, sender.phase.request);
    && (Refusal(sender, input) <==> Rejects(phase, intent))
    && (Permission(sender, input) <==> phase == Claiming(intent, request, ClaimRead(intent.intentId)))
    && (Breakdown(sender, input) <==> phase == Finished(Failed(Dependency)))
    && (!Refusal(sender, input) && !Permission(sender, input) && !Breakdown(sender, input) <==>
          phase == Session(intent, request))
  }

  lemma PolicyTakes(sender: Sender, input: Input)
    requires sender.phase.Policy?
    ensures Takes(sender, input, AfterPolicy(sender.job, sender.phase.intent, sender.phase.request, input.policy))
  {
    hide SaysRejectedByPolicy, DeniedResult;
    LocalResultsSay(sender.phase.intent);
    if input.policy.Eligibility? {
      assert input.policy == Eligibility(input.policy.consented, input.policy.suppressed);
    }
  }

  lemma SessionTakes(sender: Sender, input: Input)
    requires sender.phase.Session?
    ensures Takes(sender, input, AfterSession(sender.phase.intent, sender.phase.request, input.session))
  {
    hide SaysRejectedByPolicy, DeniedResult;
    LocalResultsSay(sender.phase.intent);
  }

  /**
   * With what a sender goes on once it has its answer: towards a rejection, towards its claim, not at
   * all, or to the second policy.
   */
  lemma VerdictStep(s: System, k: nat, input: Input)
    requires k < |s.senders| && JobOk(s.senders[k].job) && |s.tags| == |s.docs|
    requires s.senders[k].phase.Policy? || s.senders[k].phase.Session?
    ensures var t := MoveSender(s, k, input);
            && t.docs == s.docs && t.tags == s.tags && t.calls == s.calls && k < |t.senders|
            && var (sender, phase) := (s.senders[k], t.senders[k].phase);
               Takes(sender, input, phase)
  {
    hide JobOk, AfterPolicy, AfterSession, Takes;
    if s.senders[k].phase.Policy? {
      PolicyTakes(s.senders[k], input);
    } else {
      SessionTakes(s.senders[k], input);
    }
  }

  predicate RefusedAt(r: Run, n: nat, k: nat)
    requires IsRun(r)
  {
    MovesAt(r, n, k) && Refusal(r.states[n].senders[k], r.events[n].input)
  }

  predicate AllowedAt(r: Run, n: nat, k: nat)
    requires IsRun(r)
  {
    MovesAt(r, n, k) && Permission(r.states[n].senders[k], r.events[n].input)
  }

  predicate FailedAt(r: Run, n: nat, k: nat)
    requires IsRun(r)
  {
    MovesAt(r, n, k) && Breakdown(r.states[n].senders[k], r.events[n].input)
  }

  /** The policies have decided: refused, allowed, or failed to say. */
  predicate VerdictAt(r: Run, n: nat, k: nat)
    requires IsRun(r)
  {
    RefusedAt(r, n, k) || AllowedAt(r, n, k) || FailedAt(r, n, k)
  }

  const RANK_OF_CLAIM := 6

  lemma VerdictRanks(r: Run, n: nat, k: nat)
    requires IsRun(r) && VerdictAt(r, n, k)
    ensures k < |r.states[n + 1].senders| && Rank(r.states[n + 1].senders[k].phase) <= RANK_OF_CLAIM
  {
    hide Inv, JobOk, Next, MoveSender, SaysRejectedByPolicy;
    RunKeeps(r, n);
    JobsAreOk(r.states[n], k);
    assert StepsAt(r, n);
    MoveIsNext(r.states[n], k, r.events[n].input);
    VerdictStep(r.states[n], k, r.events[n].input);
  }

  /** After the verdict a caller asks no policy again. */
  lemma VerdictIsLast(r: Run, n: nat, m: nat, k: nat)
    requires At(r, m) && n < m && VerdictAt(r, n, k)
    ensures k < |r.states[m].senders| && !r.states[m].senders[k].phase.Policy? && !r.states[m].senders[k].phase.Session?
  {
    hide Next, Inv, VerdictAt;
    VerdictRanks(r, n, k);
    SendsEnd(r, k, n + 1, m);
  }

  lemma OneVerdict(r: Run, n: nat, m: nat, k: nat)
    requires IsRun(r) && VerdictAt(r, n, k) && VerdictAt(r, m, k)
    ensures n == m
  {
    if n < m {
      VerdictIsLast(r, n, m, k);
    } else if m < n {
      VerdictIsLast(r, m, n, k);
    }
  }

  // ---- Which step leads where ----

  /** Other events leave a caller as it is, or crash it. */
  lemma OthersLeave(s: System, e: Event, k: nat)
    requires k < |Next(s, e).senders| && !(e.Move? && e.sender == k)
    ensures k < |s.senders| ==>
              Next(s, e).senders[k] == s.senders[k] || Next(s, e).senders[k] == s.senders[k].(phase := Crashed)
    ensures k >= |s.senders| ==> Next(s, e).senders[k].phase.Looking?
  {
    hide Prepare, AfterStep, Advance, Retag, RetagRecovered, Serialization.Serialize, Pick, GatewayResult, JobOk,
      Fingerprint.RequestFingerprint, NonBlank, StartCompleting, AfterPolicy, AfterSession;
  }

  /** A call at the repository, while it lasts, keeps the phase; its end leads on, but to no verdict. */
  lemma AfterStepLeads(job: Job, phase: Phase, pc: Pc, input: Input)
    requires JobOk(job) && PcOf(phase).Some?
    ensures var after := AfterStep(job, phase, pc, input);
            && (after.Denying? ==> phase.Denying?) && (after.Claiming? ==> phase.Claiming?)
            && (after.Completing? ==>
                  phase.Completing? && after.result == phase.result && after.invoked == phase.invoked
                  && after.intent == phase.intent)
  {
    hide JobOk, SameRequest, Serialization.Deserialize, IntentFor, RequestFor, NonBlank;
  }

  lemma IntoVerdict(s: System, e: Event, k: nat)
    requires Inv(s) && k < |Next(s, e).senders|
    ensures Next(s, e).senders[k].phase.Denying? ==>
              k < |s.senders| && (s.senders[k].phase.Denying?
                                  || (e.Move? && e.sender == k && Refusal(s.senders[k], e.input)))
    ensures Next(s, e).senders[k].phase.Claiming? ==>
              k < |s.senders| && (s.senders[k].phase.Claiming?
                                  || (e.Move? && e.sender == k && Permission(s.senders[k], e.input)))
  {
    hide Inv, Next, JobOk, Refusal, Permission, Breakdown, Advance, Retag, AfterStep, GatewayResult, AfterPolicy,
      AfterSession, UnregisteredResult, Expected;
    if e.Move? && e.sender == k {
      MoveIsNext(s, k, e.input);
      if k < |s.senders| {
        JobsAreOk(s, k);
        var phase := s.senders[k].phase;
        if PcOf(phase).Some? {
          AfterStepLeads(s.senders[k].job, phase, Advance(s.docs, PcOf(phase).value, e.input.now, e.input.fault).pc,
                         e.input);
        } else if phase.Policy? || phase.Session? {
          VerdictStep(s, k, e.input);
        }
      }
    } else {
      OthersLeave(s, e, k);
    }
  }

  lemma {:induction false} DenierWasRefused(r: Run, p: nat, k: nat)
    requires At(r, p) && k < |r.states[p].senders| && r.states[p].senders[k].phase.Denying?
    ensures exists n: nat :: n < p && RefusedAt(r, n, k)
  {
    hide Next, Inv, Refusal, Permission;
    if p > 0 {
      assert StepsAt(r, p - 1);
      RunKeeps(r, p - 1);
      IntoVerdict(r.states[p - 1], r.events[p - 1], k);
      if r.states[p - 1].senders[k].phase.Denying? {
        DenierWasRefused(r, p - 1, k);
      } else {
        assert RefusedAt(r, p - 1, k);
      }
    }
  }

  lemma {:induction false} ClaimerWasAllowed(r: Run, p: nat, k: nat)
    requires At(r, p) && k < |r.states[p].senders| && r.states[p].senders[k].phase.Claiming?
    ensures exists n: nat :: n < p && AllowedAt(r, n, k)
  {
    hide Next, Inv, Refusal, Permission;
    if p > 0 {
      assert StepsAt(r, p - 1);
      RunKeeps(r, p - 1);
      IntoVerdict(r.states[p - 1], r.events[p - 1], k);
      if r.states[p - 1].senders[k].phase.Claiming? {
        ClaimerWasAllowed(r, p - 1, k);
      } else {
        assert AllowedAt(r, p - 1, k);
      }
    }
  }

  /** Only the write of a claim makes a document DISPATCHING, and only that of a completion closes one. */
  lemma WritesOf(docs: Store, pc: Pc, now: int, fault: Fault, i: nat)
    requires i < |docs|
    ensures i < |Advance(docs, pc, now, fault).docs|
    ensures var (d, d') := (docs[i], Advance(docs, pc, now, fault).docs[i]);
            d'.intent.state != d.intent.state ==>
              if d'.intent.state.Dispatching? then pc.ClaimWrite?
              else pc.CompleteWrite? && d'.intent.result == Some(pc.result)
  {
    hide NonBlank, WellFormed, Decode;
  }

  /** Which callers write what. */
  lemma WritersOf(s: System, k: nat)
    requires Inv(s) && k < |s.senders| && PcOf(s.senders[k].phase).Some?
    ensures JobOk(s.senders[k].job) && |s.tags| == |s.docs|
    ensures var (phase, pc) := (s.senders[k].phase, PcOf(s.senders[k].phase).value);
            && (pc.ClaimWrite? ==> phase.Claiming?)
            && (pc.CompleteWrite? ==> phase.Denying? || (phase.Completing? && pc.result == phase.result))
  {
    hide CallInv, DocInv, WellFormed, NonBlank, Fingerprint.RequestFingerprint;
    assert SenderInv(s.docs, s.tags, s.calls, k, s.senders[k]);
  }

  lemma IntoTag(s: System, e: Event, i: nat)
    requires Inv(s) && i < |Next(s, e).tags|
    requires i >= |s.tags| || Next(s, e).tags[i] != s.tags[i]
    ensures i >= |s.tags| ==> Next(s, e).tags[i].winner == None && Next(s, e).tags[i].closer.Open?
    ensures i < |s.tags| ==>
              var (tag, tag') := (s.tags[i], Next(s, e).tags[i]);
              || (e.MoveRecovery? && tag'.winner == tag.winner && tag'.closer.ByRecovery?)
              || (e.Move? && e.sender < |s.senders|
                  && var phase := s.senders[e.sender].phase;
                     || (phase.Claiming? && tag' == tag.(winner := Some(e.sender)))
                     || (phase.Denying? && tag' == tag.(closer := ByPolicy(e.sender)))
                     || (phase.Completing? && tag' == tag.(closer := ByDispatcher(e.sender))
                         && i < |Next(s, e).docs| && Next(s, e).docs[i].intent.result == Some(phase.result)))
  {
    hide Inv, Prepare, Advance, Serialization.Serialize, Pick, GatewayResult, JobOk, NonBlank, StartCompleting,
      AfterPolicy, AfterSession, AfterStep, Recovery.Candidates, AfterRecovery, Typed;
    if e.Move? && e.sender < |s.senders| && PcOf(s.senders[e.sender].phase).Some? {
      WritersOf(s, e.sender);
      StoreIsSound(s);
      var pc := PcOf(s.senders[e.sender].phase).value;
      if i < |s.docs| {
        WritesOf(s.docs, pc, e.input.now, e.input.fault, i);
      }
    }
  }

  lemma {:induction false} RejecterWasRefused(r: Run, p: nat, i: nat)
    requires At(r, p) && i < |r.states[p].tags| && r.states[p].tags[i].closer.ByPolicy?
    ensures exists n: nat :: n < p && RefusedAt(r, n, r.states[p].tags[i].closer.sender)
  {
    hide Next, Inv, RefusedAt;
    if p > 0 {
      var (s, e) := (r.states[p - 1], r.events[p - 1]);
      assert StepsAt(r, p - 1);
      RunKeeps(r, p - 1);
      if i < |s.tags| && s.tags[i] == r.states[p].tags[i] {
        RejecterWasRefused(r, p - 1, i);
      } else {
        IntoTag(s, e, i);
        if i < |s.tags| && s.tags[i].closer == r.states[p].tags[i].closer {
          RejecterWasRefused(r, p - 1, i);
        } else {
          DenierWasRefused(r, p - 1, e.sender);
        }
      }
    }
  }

  lemma {:induction false} WinnerWasAllowed(r: Run, p: nat, i: nat)
    requires At(r, p) && i < |r.states[p].tags| && r.states[p].tags[i].winner.Some?
    ensures exists n: nat :: n < p && AllowedAt(r, n, r.states[p].tags[i].winner.value)
  {
    hide Next, Inv, AllowedAt;
    if p > 0 {
      var (s, e) := (r.states[p - 1], r.events[p - 1]);
      assert StepsAt(r, p - 1);
      RunKeeps(r, p - 1);
      if i < |s.tags| && s.tags[i] == r.states[p].tags[i] {
        WinnerWasAllowed(r, p - 1, i);
      } else {
        IntoTag(s, e, i);
        if i < |s.tags| && s.tags[i].winner == r.states[p].tags[i].winner {
          WinnerWasAllowed(r, p - 1, i);
        } else {
          ClaimerWasAllowed(r, p - 1, e.sender);
        }
      }
    }
  }

  /**
   * A document is closed as rejected by policy only by a caller that the policies refused, and claimed
   * only by one that they allowed.
   */
  lemma PoliciesDecide(r: Run, p: nat, i: nat)
    requires At(r, p) && i < |r.states[p].docs|
    ensures i < |r.states[p].tags|
    ensures var (d, tag) := (r.states[p].docs[i], r.states[p].tags[i]);
            && (tag.closer.ByPolicy? ==>
                  && (exists n: nat :: n < p && RefusedAt(r, n, tag.closer.sender))
                  && d.intent.state.Rejected? && d.attempts == []
                  && d.intent.result.Some? && SaysRejectedByPolicy(d.intent, d.intent.result.value))
            && (tag.winner.Some? ==> exists n: nat :: n < p && AllowedAt(r, n, tag.winner.value))
            && (tag.winner.Some? <==> d.attempts != [])
  {
    hide Inv, RefusedAt, AllowedAt, SaysRejectedByPolicy;
    RunKeeps(r, p);
    StoreIsSound(r.states[p]);
    var (d, tag) := (r.states[p].docs[i], r.states[p].tags[i]);
    NoAttemptNoWinner(r.states[p], i);
    if tag.closer.ByPolicy? {
      RejecterWasRefused(r, p, i);
      ClosedByPolicy(r.states[p], i);
    }
    if tag.winner.Some? {
      WinnerWasAllowed(r, p, i);
    }
  }

  lemma ClosedByPolicy(s: System, i: nat)
    requires Inv(s) && i < |s.docs| && s.tags[i].closer.ByPolicy?
    ensures var d := s.docs[i];
            && d.intent.state.Rejected? && s.tags[i].winner == None
            && d.intent.result.Some? && SaysRejectedByPolicy(d.intent, d.intent.result.value)
  {
    hide SenderInv, OriginInv, CreatorInv, WellFormed, DeniedResult, SaysRejectedByPolicy;
    assert DocInv(s.docs, s.tags, s.senders, i);
    LocalResultsSay(s.docs[i].intent);
  }

  /**
   * The verdict of the policies is final for its caller: one that was refused never claims a document
   * and never calls a provider, one that was allowed never closes a document as rejected by policy, and
   * one whose policy failed has failed, and does neither.
   */
  lemma VerdictIsFinal(r: Run, n: nat, p: nat, k: nat)
    requires At(r, p) && n < p && VerdictAt(r, n, k)
    ensures k < |r.states[p].senders|
    ensures !AllowedAt(r, n, k) ==>
              && (forall i :: 0 <= i < |r.states[p].tags| ==> r.states[p].tags[i].winner != Some(k))
              && (forall e :: 0 <= e < |r.states[p].calls| ==> r.states[p].calls[e].sender != k)
    ensures !RefusedAt(r, n, k) ==>
              forall i :: 0 <= i < |r.states[p].tags| ==> r.states[p].tags[i].closer != ByPolicy(k)
    ensures FailedAt(r, n, k) ==> r.states[p].senders[k].phase == Finished(Failed(Dependency))
  {
    hide Inv, RefusedAt, AllowedAt, FailedAt;
    VerdictIsLast(r, n, p, k);
    forall i | 0 <= i < |r.states[p].tags| && r.states[p].tags[i].winner == Some(k) ensures AllowedAt(r, n, k) {
      WinnerWasAllowed(r, p, i);
      var m: nat :| m < p && AllowedAt(r, m, k);
      OneVerdict(r, n, m, k);
    }
    forall i | 0 <= i < |r.states[p].tags| && r.states[p].tags[i].closer == ByPolicy(k) ensures RefusedAt(r, n, k) {
      RejecterWasRefused(r, p, i);
      var m: nat :| m < p && RefusedAt(r, m, k);
      OneVerdict(r, n, m, k);
    }
    forall e | 0 <= e < |r.states[p].calls| && r.states[p].calls[e].sender == k
      ensures exists i :: 0 <= i < |r.states[p].tags| && r.states[p].tags[i].winner == Some(k)
    {
      RunKeeps(r, p);
      StoreIsSound(r.states[p]);
      CallIsByWinner(r.states[p], e);
    }
    if FailedAt(r, n, k) {
      FailureIsFinal(r, n, p, k);
    }
  }

  lemma FailureIsFinal(r: Run, n: nat, p: nat, k: nat)
    requires At(r, p) && n < p && FailedAt(r, n, k)
    ensures k < |r.states[p].senders| && r.states[p].senders[k].phase == Finished(Failed(Dependency))
  {
    hide Inv, Next, MoveSender, SaysRejectedByPolicy;
    RunKeeps(r, n);
    JobsAreOk(r.states[n], k);
    assert StepsAt(r, n);
    MoveIsNext(r.states[n], k, r.events[n].input);
    VerdictStep(r.states[n], k, r.events[n].input);
    RunsGrow(r, n + 1, p);
    assert Continues(r.states[n + 1].senders[k], r.states[p].senders[k]);
  }

  // ---- What the provider answered ----

  /** Step `n` of the run brings caller `k` the answer of its provider. */
  predicate AwaitsAt(r: Run, n: nat, k: nat)
    requires IsRun(r)
  {
    MovesAt(r, n, k) && r.states[n].senders[k].phase.Awaiting?
  }

  /** The result tells what caller `k` heard from its provider at step `n`. */
  predicate HeardAt(r: Run, n: nat, k: nat, result: DispatchResult)
    requires IsRun(r)
  {
    AwaitsAt(r, n, k)
    && var phase := r.states[n].senders[k].phase;
       Reports(phase.intent, phase.request, r.events[n].input.provider, result)
  }

  /** The result tells what caller `k` found out about its provider before step `p`. */
  predicate Heard(r: Run, p: nat, k: nat, called: bool, result: DispatchResult)
    requires IsRun(r)
  {
    if called then exists n: nat :: n < p && HeardAt(r, n, k, result)
    else exists n: nat :: n < p && UnregisteredAt(r, n, k)
  }

  lemma IntoCompleting(s: System, e: Event, k: nat)
    requires Inv(s) && k < |Next(s, e).senders| && Next(s, e).senders[k].phase.Completing?
    ensures k < |s.senders|
    ensures var (phase, phase') := (s.senders[k].phase, Next(s, e).senders[k].phase);
            || (phase.Completing? && phase'.result == phase.result && phase'.invoked == phase.invoked)
            || (e.Move? && e.sender == k && phase.Awaiting? && phase'.invoked
                && Reports(phase.intent, phase.request, e.input.provider, phase'.result))
            || (e.Move? && e.sender == k && phase.Sending? && !e.input.registered && !phase'.invoked)
  {
    hide Inv, Next, JobOk, Advance, Retag, AfterStep, GatewayResult, AfterPolicy, AfterSession, Expected,
      UnregisteredResult, Reports, Answered;
    if e.Move? && e.sender == k {
      MoveIsNext(s, k, e.input);
      if k < |s.senders| {
        JobsAreOk(s, k);
        var phase := s.senders[k].phase;
        if PcOf(phase).Some? {
          AfterStepLeads(s.senders[k].job, phase, Advance(s.docs, PcOf(phase).value, e.input.now, e.input.fault).pc,
                         e.input);
        } else if phase.Policy? || phase.Session? {
          VerdictStep(s, k, e.input);
        } else if phase.Awaiting? {
          GatewayReports(phase.intent, phase.request, e.input.provider);
        }
      }
    } else {
      OthersLeave(s, e, k);
    }
  }

  lemma {:induction false} CompleterHeard(r: Run, p: nat, k: nat)
    requires At(r, p) && k < |r.states[p].senders| && r.states[p].senders[k].phase.Completing?
    ensures var phase := r.states[p].senders[k].phase; Heard(r, p, k, phase.invoked, phase.result)
  {
    hide Next, Inv, Reports;
    if p > 0 {
      var (s, e) := (r.states[p - 1], r.events[p - 1]);
      assert StepsAt(r, p - 1);
      RunKeeps(r, p - 1);
      IntoCompleting(s, e, k);
      if s.senders[k].phase.Completing? {
        CompleterHeard(r, p - 1, k);
      } else if s.senders[k].phase.Awaiting? {
        assert HeardAt(r, p - 1, k, r.states[p].senders[k].phase.result);
      } else {
        assert UnregisteredAt(r, p - 1, k);
      }
    }
  }

  lemma HeardBefore(r: Run, p: nat, q: nat, k: nat, called: bool, result: DispatchResult)
    requires IsRun(r) && p <= q && Heard(r, p, k, called, result)
    ensures Heard(r, q, k, called, result)
  {
    hide HeardAt, UnregisteredAt;
  }

  lemma ClosedByDispatcher(s: System, i: nat)
    requires Inv(s) && i < |s.docs| && s.tags[i].closer.ByDispatcher?
    ensures var (d, k) := (s.docs[i], s.tags[i].closer.sender);
            && d.intent.state.IsTerminal() && d.intent.result.Some? && d.intent.Matches(d.intent.result.value)
            && d.intent.state == TerminalState(d.intent.result.value.disposition)
            && k < |s.senders| && Over(s.senders[k].phase)
            && (s.senders[k].callAt == None ==> SaysUnregistered(d.intent, d.intent.result.value))
  {
    hide SenderInv, OriginInv, CreatorInv, NonBlank, AttemptsValid, UnregisteredResult, SaysUnregistered;
    assert DocInv(s.docs, s.tags, s.senders, i);
    assert WellFormed(s.docs[i]);
    LocalResultsSay(s.docs[i].intent);
  }

  lemma CompleterCalled(s: System, e: Event, k: nat)
    requires Inv(s) && k < |s.senders| && s.senders[k].phase.Completing? && e.Move? && e.sender == k
    ensures k < |Next(s, e).senders| && Next(s, e).senders[k].callAt == s.senders[k].callAt
    ensures s.senders[k].phase.invoked <==> s.senders[k].callAt.Some?
  {
    hide Inv, Advance, Retag, AfterStep, JobOk;
    OvertakenByRecovery(s, k);
  }

  lemma {:induction false} DispatcherHeard(r: Run, p: nat, i: nat)
    requires At(r, p) && i < |r.states[p].docs| == |r.states[p].tags| && r.states[p].tags[i].closer.ByDispatcher?
    ensures var (s, k) := (r.states[p], r.states[p].tags[i].closer.sender);
            && k < |s.senders| && s.docs[i].intent.result.Some?
            && Heard(r, p, k, s.senders[k].callAt.Some?, s.docs[i].intent.result.value)
  {
    hide Next, Inv, Heard, Reports;
    RunKeeps(r, p);
    ClosedByDispatcher(r.states[p], i);
    if p > 0 {
      var (s, e, k) := (r.states[p - 1], r.events[p - 1], r.states[p].tags[i].closer.sender);
      assert StepsAt(r, p - 1);
      RunKeeps(r, p - 1);
      StoreIsSound(s);
      if i >= |s.tags| || s.tags[i] != r.states[p].tags[i] {
        IntoTag(s, e, i);
      }
      if i < |s.tags| && s.tags[i].closer == r.states[p].tags[i].closer {
        DispatcherHeard(r, p - 1, i);
        ClosedByDispatcher(s, i);
        TerminalIsFinal(r, p - 1, p, i);
        RunsGrow(r, p - 1, p);
        assert Continues(s.senders[k], r.states[p].senders[k]);
        HeardBefore(r, p - 1, p, k, s.senders[k].callAt.Some?, s.docs[i].intent.result.value);
      } else {
        CompleterCalled(s, e, k);
        CompleterHeard(r, p - 1, k);
        HeardBefore(r, p - 1, p, k, s.senders[k].phase.invoked, s.senders[k].phase.result);
      }
    }
  }

  /**
   * A document closed by a dispatcher that called its provider is ACCEPTED exactly if the answer that
   * the dispatcher awaited was a matching ACCEPTED one, REJECTED exactly if it was a matching REJECTED
   * one, and UNKNOWN in every other case; its result is that answer, field by field.
   */
  lemma AnswerIsStored(r: Run, p: nat, i: nat) returns (n: nat)
    requires At(r, p) && i < |r.states[p].docs| == |r.states[p].tags| && r.states[p].tags[i].closer.ByDispatcher?
    requires var k := r.states[p].tags[i].closer.sender;
             k < |r.states[p].senders| && r.states[p].senders[k].callAt.Some?
    ensures var k := r.states[p].tags[i].closer.sender;
            && n < p && AwaitsAt(r, n, k) && (forall m: nat :: m < |r.events| && AwaitsAt(r, m, k) ==> m == n)
            && var (d, phase, answer) := (r.states[p].docs[i], r.states[n].senders[k].phase,
                                          r.events[n].input.provider);
               && d.intent.result.Some? && Reports(phase.intent, phase.request, answer, d.intent.result.value)
               && (d.intent.state.Accepted? <==>
                     Answered(phase.intent, phase.request, answer) && answer.result.disposition.Accepted?)
               && (d.intent.state.Rejected? <==>
                     Answered(phase.intent, phase.request, answer) && answer.result.disposition.Rejected?)
               && phase.intent.intentId == d.intent.intentId && phase.intent.providerKey == d.intent.providerKey
  {
    hide Inv, Answered;
    var k := r.states[p].tags[i].closer.sender;
    DispatcherHeard(r, p, i);
    var result := r.states[p].docs[i].intent.result.value;
    n :| n < p && HeardAt(r, n, k, result);
    RunKeeps(r, p);
    ClosedByDispatcher(r.states[p], i);
    forall m: nat | m < |r.events| && AwaitsAt(r, m, k) ensures m == n {
      OneStepEach(r, k, n, m);
    }
  }

  /** What a document closed without an answer says, and why it was closed. */
  lemma LocalClosings(r: Run, p: nat, i: nat)
    requires At(r, p) && i < |r.states[p].docs|
    ensures i < |r.states[p].tags|
    ensures var (s, d, closer) := (r.states[p], r.states[p].docs[i], r.states[p].tags[i].closer);
            match closer
            case Open => !d.intent.state.IsTerminal()
            case ByPolicy(k) =>
              && d.intent.state.Rejected? && d.intent.result.Some?
              && SaysRejectedByPolicy(d.intent, d.intent.result.value)
              && exists n: nat :: n < p && RefusedAt(r, n, k)
            case ByRecovery(_, before) =>
              && d.intent.state.Unknown? && d.intent.result.Some? && SaysRecovered(d.intent, d.intent.result.value)
              && Announced(r, p, before) && d.dispatchStartedAt.Some? && d.dispatchStartedAt.value < before
            case ByDispatcher(k) =>
              && k < |s.senders| && d.intent.result.Some?
              && (s.senders[k].callAt == None ==>
                    && d.intent.state.Rejected? && SaysUnregistered(d.intent, d.intent.result.value)
                    && exists n: nat :: n < p && UnregisteredAt(r, n, k))
  {
    hide Inv, RefusedAt, UnregisteredAt, SaysRejectedByPolicy, SaysRecovered;
    var s := r.states[p];
    RunKeeps(r, p);
    StoreIsSound(s);
    match s.tags[i].closer
    case Open => OpenIsOpen(s, i);
    case ByPolicy(_) =>
      ClosedByPolicy(s, i);
      RejecterWasRefused(r, p, i);
    case ByRecovery(_, _) =>
      ClosedByRecovery(s, i);
      ThresholdsAreAnnounced(r, p);
    case ByDispatcher(_) =>
      ClosedByDispatcher(s, i);
      DispatcherHeard(r, p, i);
  }

  lemma OpenIsOpen(s: System, i: nat)
    requires Inv(s) && i < |s.docs| && s.tags[i].closer.Open?
    ensures !s.docs[i].intent.state.IsTerminal()
  {
    hide SenderInv, OriginInv, CreatorInv, WellFormed;
    assert DocInv(s.docs, s.tags, s.senders, i);
  }

  lemma ClosedByRecovery(s: System, i: nat)
    requires Inv(s) && i < |s.docs| && s.tags[i].closer.ByRecovery?
    ensures var d := s.docs[i];
            && d.intent.state.Unknown? && d.intent.result.Some? && SaysRecovered(d.intent, d.intent.result.value)
            && d.dispatchStartedAt.Some? && d.dispatchStartedAt.value < s.tags[i].closer.before
  {
    hide SenderInv, OriginInv, CreatorInv, WellFormed, RecoveredResult, SaysRecovered;
    assert DocInv(s.docs, s.tags, s.senders, i);
    LocalResultsSay(s.docs[i].intent);
  }

  // ---- What a failure of the database does to a caller ----

  /**
   * A sender whose operation at the repository fails is told that a dependency failed or, where it has
   * called its provider, that the outcome could not be stored; whether or not the operation took effect.
   */
  lemma FaultIsTold(r: Run, n: nat, k: nat)
    requires IsRun(r) && MovesAt(r, n, k) && !r.events[n].input.fault.NoFault?
    requires PcOf(r.states[n].senders[k].phase).Some?
    ensures k < |r.states[n + 1].senders|
    ensures var phase := r.states[n].senders[k].phase;
            r.states[n + 1].senders[k].phase ==
              Finished(Failed(if phase.Completing? && phase.invoked then PostDispatchPersistence else Dependency))
  {
    hide Inv, Next, JobOk, Op, Retag;
    RunKeeps(r, n);
    JobsAreOk(r.states[n], k);
    PhasesRank(r.states[n], k);
    assert StepsAt(r, n);
    MoveIsNext(r.states[n], k, r.events[n].input);
  }
}
