// Which stored intents can still be settled, and which are stuck for good.
module Settlement {
  import opened Wrappers
  import opened Text
  import opened Contracts
  import opened IntentRecords
  import opened IntentStore
  import opened Service
  import opened Dispatch
  import opened DispatchSteps
  import opened DispatchInvariant
  import opened DispatchRuns
  import opened DispatchLaws
  import opened SoloRecovery
  import opened SoloRuns
  import A = ServiceAlone
  import Fingerprint
  import R = Recovery
  import Serialization

  /** A PENDING intent with sensitive data whose creator has stopped: nobody has its request any more. */
  predicate Stuck(s: System, i: nat) {
    && i < |s.docs| == |s.tags| && s.docs[i].intent.state.Pending?
    && IsSensitive(s.tags[i].job) && s.tags[i].creator < |s.senders| && Over(s.senders[s.tags[i].creator].phase)
  }

  // ---- Stuck intents ----

  /** A sender that works on a sensitive intent before its claim is the one that created it. */
  lemma OnlyCreatorWorks(s: System, k: nat, i: nat)
    requires Inv(s) && k < |s.senders| && (s.senders[k].phase.Claiming? || s.senders[k].phase.Denying?)
    requires Where(s.docs, s.senders[k].job) == Some(i) && IsSensitive(s.tags[i].job)
    ensures s.tags[i].creator == k
  {
    hide CallInv, CreatorInv, CloserInv, NonBlank, FingerprintOf, WellFormed, IsSensitive;
    assert SenderInv(s.docs, s.tags, s.calls, k, s.senders[k]);
    assert DocInv(s.docs, s.tags, s.senders, i);
    SameFingerprint(s.tags[i].job, s.senders[k].job);
  }

  /** A lookup, a creation, a policy or a provider call leaves every stored document as it is. */
  lemma QuietPhases(s: System, k: nat, input: Input, i: nat)
    requires Inv(s) && k < |s.senders| && i < |s.docs|
    requires var phase := s.senders[k].phase; !phase.Claiming? && !phase.Denying? && !phase.Completing?
    ensures i < |MoveSender(s, k, input).docs| && MoveSender(s, k, input).docs[i] == s.docs[i]
  {
    hide CallInv, DocInv, WellFormed, NonBlank, FingerprintOf, Retag, AfterStep, Op, OnDoc, GatewayResult,
      UnregisteredResult, StartCompleting, AfterPolicy, AfterSession, IntentFor, RequestFor;
    var (sender, docs) := (s.senders[k], s.docs);
    assert SenderInv(s.docs, s.tags, s.calls, k, sender);
    match sender.phase
    case Looking(_) => GetStep(docs, sender.job.Scope(), input.now, input.fault);
    case Creating(_, pc) =>
      if pc.CreateUpsert? {
        UpsertStep(docs, pc.intent, input.now, input.fault);
      } else {
        CreateReadStep(docs, pc, pc.intent, input.now, input.fault);
      }
    case Resolving(_, _) => GetStep(docs, sender.job.Scope(), input.now, input.fault);
    case _ =>
  }

  /** Which steps of a sender can change a PENDING document. */
  lemma PendingChanges(s: System, k: nat, input: Input, i: nat)
    requires Inv(s) && k < |s.senders| && i < |s.docs| && s.docs[i].intent.state.Pending?
    ensures i < |MoveSender(s, k, input).docs|
    ensures MoveSender(s, k, input).docs[i] != s.docs[i] ==>
              && (s.senders[k].phase.Claiming? || s.senders[k].phase.Denying?)
              && Where(s.docs, s.senders[k].job) == Some(i)
  {
    hide CallInv, DocInv, WellFormed, NonBlank, FingerprintOf, Retag, AfterStep, ClaimedDoc, CompletedDoc, Op,
      MoveOutside, UnregisteredResult, DeniedResult, Expected, RequestFor;
    var (sender, docs) := (s.senders[k], s.docs);
    assert SenderInv(s.docs, s.tags, s.calls, k, sender);
    match sender.phase
    case Denying(intent, pc) =>
      SameDocument(docs, sender.job.Scope(), intent.intentId);
      CompletionStep(docs, pc, intent.intentId, Pending, DeniedResult(intent), input.now, input.fault);
    case Claiming(intent, _, pc) =>
      SameDocument(docs, sender.job.Scope(), intent.intentId);
      ClaimStep(docs, pc, intent.intentId, input.now, input.fault);
    case Completing(intent, result, _, pc) =>
      SameDocument(docs, sender.job.Scope(), intent.intentId);
      CompletionStep(docs, pc, intent.intentId, Dispatching, result, input.now, input.fault);
    case _ => QuietPhases(s, k, input, i);
  }

  lemma RecoveryLeavesPending(s: System, q: nat, now: int, fault: Fault, i: nat)
    requires Inv(s) && i < |s.docs| && s.docs[i].intent.state.Pending?
    ensures i < |StepRecovery(s, q, now, fault).docs| && StepRecovery(s, q, now, fault).docs[i] == s.docs[i]
  {
    hide SenderInv, DocInv, WellFormed, NonBlank, RetagRecovered, R.Candidates, Pick, AfterRecovery, CompletedDoc, Op,
      RecoveredResult;
    if q < |s.recoverers| && s.recoverers[q].Working? {
      var c := s.recoverers[q];
      var d := c.todo[0];
      assert RecovererInv(s.docs, c) && Listed(s.docs, c.before, d);
      CompletionStep(s.docs, c.pc, d.intent.intentId, Dispatching, RecoveredResult(d.intent), now, fault);
    }
  }

  lemma StuckStep(s: System, e: Event, i: nat)
    requires Inv(s) && Stuck(s, i)
    ensures i < |Next(s, e).docs| && Next(s, e).docs[i] == s.docs[i]
  {
    hide Inv, Prepare, MoveSender, StepRecovery, IsSensitive;
    match e
    case Move(k, input) =>
      if k < |s.senders| {
        PendingChanges(s, k, input, i);
        if MoveSender(s, k, input).docs[i] != s.docs[i] {
          OnlyCreatorWorks(s, k, i);
        }
      } else {
        NoSuchSender(s, k, input);
      }
    case MoveRecovery(q, now, fault) => RecoveryLeavesPending(s, q, now, fault, i);
    case _ =>
  }

  lemma NoSuchSender(s: System, k: nat, input: Input)
    requires k >= |s.senders|
    ensures MoveSender(s, k, input) == s
  {
  }

  /** A stuck intent stays PENDING, in every continuation of the run, and is never sent. */
  lemma {:induction false} StuckForGood(r: Run, p: nat, q: nat, i: nat)
    requires At(r, q) && p <= q && Stuck(r.states[p], i)
    ensures Stuck(r.states[q], i) && r.states[q].docs[i] == r.states[p].docs[i]
    ensures CallsFor(r.states[q].calls, r.states[p].docs[i].intent.Key()) == 0
    decreases q
  {
    hide Next, Inv, IsSensitive;
    if p < q {
      var (s, t) := (r.states[q - 1], r.states[q]);
      StuckForGood(r, p, q - 1, i);
      RunKeeps(r, q - 1);
      RunKeeps(r, q);
      assert StepsAt(r, q - 1);
      StuckStep(s, r.events[q - 1], i);
      RunsGrow(r, q - 1, q);
      StoreIsSound(t);
      assert TagEvolves(s.tags[i], t.tags[i]);
      assert Continues(s.senders[s.tags[i].creator], t.senders[s.tags[i].creator]);
    }
    CallsFitTheState(r, q, i);
  }

  // ---- Intents that can still be settled ----

  /** Some continuation of the run ends with the intent terminal. */
  ghost predicate CanSettle(r: Run, i: nat)
    requires IsRun(r)
  {
    exists longer: Run :: Settles(r, i, longer)
  }

  predicate Settles(r: Run, i: nat, longer: Run)
    requires IsRun(r)
  {
    && IsRun(longer) && r.events <= longer.events && r.states <= longer.states
    && i < |Last(longer).docs| && Last(longer).docs[i].intent.state.IsTerminal()
  }

  /** A policy that denies, and nothing that fails. */
  const DENIAL := Input(0, NoFault, "c", "i", Eligibility(false, false), Active(false), false, Raises)

  /** The creator of a PENDING intent, if it has not stopped, is still before the outcome of its claim. */
  lemma CreatorIsWorking(s: System, i: nat)
    requires Inv(s) && i < |s.docs| && s.docs[i].intent.state.Pending?
    ensures |s.tags| == |s.docs| && JobOk(s.tags[i].job) && Where(s.docs, s.tags[i].job) == Some(i)
    ensures SameRequest(s.tags[i].job, s.docs[i].intent)
    ensures s.tags[i].creator < |s.senders| && s.senders[s.tags[i].creator].job == s.tags[i].job
    ensures var phase := s.senders[s.tags[i].creator].phase;
            !Over(phase) ==> phase.Policy? || phase.Session? || phase.Denying? || phase.Claiming?
                             || (phase.Creating? && phase.pc.CreateConfirm? && phase.pc.created)
  {
    hide CallInv, CloserInv, NonBlank, FingerprintOf, WellFormed, IsSensitive, RequestFor, Serialization.Serialize;
    assert DocInv(s.docs, s.tags, s.senders, i);
    var k := s.tags[i].creator;
    assert SenderInv(s.docs, s.tags, s.calls, k, s.senders[k]);
  }

  lemma RestSettles(docs: Store, i: nat, job: Job, phase: Phase, world: A.World, times: A.Times)
    requires JobOk(job) && i < |docs| && Where(docs, job) == Some(i) && SameRequest(job, docs[i].intent)
    requires docs[i].intent.state.Pending? && world.eligible == Ok(false)
    requires phase.Policy? || phase.Session? || phase.Denying? || phase.Claiming?
             || (phase.Creating? && phase.pc.CreateConfirm? && phase.pc.created)
    ensures var after := Rest(docs, job, phase, DENIAL, world, times).docs;
            |after| == |docs| && after[i].intent.state.IsTerminal()
  {
    hide JobOk, FingerprintOf, A.ResultOf, DeniedResult, A.SendEffect;
    ClosedIsTerminal(docs[i], None, DeniedResult(docs[i].intent), times.completed);
    ClosedIsTerminal(ClaimedDoc(docs[i], 0, times.claimed), Some(0),
                     A.ResultOf(A.Claimed(docs[i].intent), RequestFor(job, docs[i].intent.correlationId), world),
                     times.completed);
    ClosedIsTerminal(ClaimedDoc(docs[i], 0, times.claimed), Some(0),
                     A.ResultOf(A.Claimed(docs[i].intent), RequestFor(job, docs[i].intent.correlationId),
                                world.(eligible := Ok(true))),
                     times.completed);
  }

  lemma ClosedIsTerminal(d: Doc, attempt: Option<nat>, result: DispatchResult, now: int)
    ensures CompletedDoc(d, attempt, result, now).intent.state.IsTerminal()
  {
  }

  lemma DenialDenies(job: Job, at: Steps)
    ensures AllReliable(Constant(DENIAL)) && WorldOf(job, Constant(DENIAL), at).eligible == Ok(false)
  {
  }

  /** A creator that has not stopped can settle its intent, even a sensitive one. */
  lemma CreatorSettles(r: Run, i: nat) returns (longer: Run)
    requires IsRun(r) && i < |Last(r).docs| == |Last(r).tags| && Last(r).docs[i].intent.state.Pending?
    requires var s := Last(r); s.tags[i].creator < |s.senders| && !Over(s.senders[s.tags[i].creator].phase)
    ensures Settles(r, i, longer)
  {
    hide Inv, Rest, WorldOf, JobOk, IsRun;
    RunShape(r);
    RunKeeps(r, |r.events|);
    var s := Last(r);
    CreatorIsWorking(s, i);
    var k := s.tags[i].creator;
    DenialDenies(s.tags[i].job, Steps(0, 0, 0, 0, 0, 0));
    var at;
    longer, at := CallerIsServed(r, k, Constant(DENIAL));
    DenialDenies(s.tags[i].job, at);
    RestSettles(s.docs, i, s.tags[i].job, s.senders[k].phase, WorldOf(s.tags[i].job, Constant(DENIAL), at),
                TimesOf(Constant(DENIAL), at));
  }

  /** Every caller's job is what some call prepared. */
  lemma {:induction false} JobWasAsked(r: Run, p: nat, k: nat) returns (config: Config, call: SendCall)
    requires At(r, p) && k < |r.states[p].senders|
    ensures Typed(config, call) && Prepare(config, call) == Ok(r.states[p].senders[k].job)
    decreases p
  {
    hide Next, Inv, Prepare, Typed;
    assert StepsAt(r, p - 1);
    var (s, e) := (r.states[p - 1], r.events[p - 1]);
    NewSender(s, e, k);
    if k < |s.senders| {
      config, call := JobWasAsked(r, p - 1, k);
    } else {
      config, call := e.config, e.call;
    }
  }

  lemma NewSender(s: System, e: Event, k: nat)
    requires k < |Next(s, e).senders|
    ensures k < |s.senders| ==> Next(s, e).senders[k].job == s.senders[k].job
    ensures k >= |s.senders| ==>
              e.Begin? && Typed(e.config, e.call) && Prepare(e.config, e.call) == Ok(Next(s, e).senders[k].job)
  {
    hide Prepare, AfterStep, Advance, Retag, RetagRecovered, Serialization.Serialize, Pick, GatewayResult, JobOk,
      Typed, Fingerprint.RequestFingerprint, NonBlank, StartCompleting, AfterPolicy, AfterSession, AfterRecovery,
      R.Candidates;
  }

  lemma SendSettles(docs: Store, i: nat, job: Job, world: A.World, times: A.Times)
    requires JobOk(job) && i < |docs| && Where(docs, job) == Some(i) && SameRequest(job, docs[i].intent)
             && !IsSensitive(job)
    requires docs[i].intent.state.Pending? && world.eligible == Ok(false)
    ensures var after := A.SendEffect(docs, job, "i", "c", world, times).docs;
            |after| == |docs| && after[i].intent.state.IsTerminal()
  {
    hide JobOk, FingerprintOf, A.ResultOf, DeniedResult, IsSensitive;
    ClosedIsTerminal(docs[i], None, DeniedResult(docs[i].intent), times.completed);
  }

  /** An intent without sensitive data can be settled by calling again as its creator did. */
  lemma CallingAgainSettles(r: Run, i: nat) returns (longer: Run)
    requires IsRun(r) && i < |Last(r).docs| == |Last(r).tags| && Last(r).docs[i].intent.state.Pending?
    requires !IsSensitive(Last(r).tags[i].job)
    ensures Settles(r, i, longer)
  {
    hide Inv, WorldOf, JobOk, IsRun, A.SendEffect, Prepare, IsSensitive, Typed;
    RunShape(r);
    RunKeeps(r, |r.events|);
    var s := Last(r);
    CreatorIsWorking(s, i);
    var config, call := JobWasAsked(r, |r.events|, s.tags[i].creator);
    DenialDenies(s.tags[i].job, Steps(0, 0, 0, 0, 0, 0));
    var at;
    longer, at := NewCallerIsServed(r, config, call, Constant(DENIAL));
    DenialDenies(s.tags[i].job, at);
    SendSettles(s.docs, i, s.tags[i].job, WorldOf(s.tags[i].job, Constant(DENIAL), at), TimesOf(Constant(DENIAL), at));
  }

  // ---- Recovery settles what was claimed ----

  lemma DispatchingIsStale(s: System, i: nat)
    requires Inv(s) && i < |s.docs| && s.docs[i].intent.state.Dispatching?
    ensures s.docs[i].dispatchStartedAt.Some? && s.docs[i].dispatchStartedAt.value >= 0
  {
    hide SenderInv, DocInv, NonBlank;
    assert WellFormed(s.docs[i]);
  }

  lemma ClosingReducesStale(docs: Store, j: nat, d: Doc, before: int)
    requires StoreInv(docs) && j < |docs| && R.Stale(docs[j], before) && !d.intent.state.Dispatching?
    ensures R.StaleSet(docs[j := d], before) < R.StaleSet(docs, before)
  {
    hide WellFormed;
    var after := docs[j := d];
    forall x | x in R.StaleSet(after, before) ensures x in R.StaleSet(docs, before) && x != docs[j] {
      var n :| 0 <= n < |after| && after[n] == x;
      assert n != j && UniqueAt(docs, n, j);
    }
    assert docs[j] in R.StaleSet(docs, before);
  }

  /** A dispatch can be settled by recovery calls with a threshold above its start. */
  lemma {:induction false} RecoverySettles(r: Run, i: nat, before: int) returns (longer: Run)
    requires IsRun(r) && i < |Last(r).docs| && R.Stale(Last(r).docs[i], before) && before >= 0
    ensures Settles(r, i, longer)
    decreases R.StaleSet(Last(r).docs, before)
  {
    hide Inv, IsRun, CompletedDoc, RecoveredResult;
    RunShape(r);
    RunKeeps(r, |r.events|);
    StoreIsSound(Last(r));
    assert Last(r).docs[i] in Last(r).docs;
    var next, j := ClosesOne(r, before, 0);
    var d := CompletedDoc(Last(r).docs[j], Some(0), RecoveredResult(Last(r).docs[j].intent), 0);
    ClosedIsTerminal(Last(r).docs[j], Some(0), RecoveredResult(Last(r).docs[j].intent), 0);
    if j == i {
      longer := next;
    } else {
      ClosingReducesStale(Last(r).docs, j, d, before);
      longer := RecoverySettles(next, i, before);
    }
  }

  /**
   * After any run, an intent can still reach a terminal state in some continuation exactly if it is
   * not stuck: that is, unless it is PENDING, has sensitive data, and its creator has stopped.
   */
  lemma SettlesIff(r: Run, i: nat)
    requires IsRun(r) && i < |Last(r).docs|
    ensures CanSettle(r, i) <==> !Stuck(Last(r), i)
  {
    hide Inv, IsRun, Stuck;
    RunShape(r);
    RunKeeps(r, |r.events|);
    StoreIsSound(Last(r));
    if Stuck(Last(r), i) {
      forall longer: Run | IsRun(longer) && r.events <= longer.events && r.states <= longer.states
        ensures !Settles(r, i, longer)
      {
        RunShape(longer);
        StaysStuck(r, i, longer);
      }
    } else {
      var longer := NotStuckSettles(r, i);
      assert Settles(r, i, longer);
    }
  }

  lemma StaysStuck(r: Run, i: nat, longer: Run)
    requires IsRun(r) && Stuck(Last(r), i)
    ensures !Settles(r, i, longer)
  {
    hide Inv, IsSensitive;
    if Settles(r, i, longer) {
      StuckForGood(longer, |r.events|, |longer.events|, i);
    }
  }

  lemma NotStuckSettles(r: Run, i: nat) returns (longer: Run)
    requires IsRun(r) && i < |Last(r).docs| == |Last(r).tags| && !Stuck(Last(r), i)
    ensures Settles(r, i, longer)
  {
    hide Inv, IsRun, IsSensitive;
    RunShape(r);
    RunKeeps(r, |r.events|);
    var s := Last(r);
    match s.docs[i].intent.state
    case Pending =>
      CreatorIsWorking(s, i);
      if !IsSensitive(s.tags[i].job) {
        longer := CallingAgainSettles(r, i);
      } else {
        longer := CreatorSettles(r, i);
      }
    case Dispatching =>
      DispatchingIsStale(s, i);
      longer := RecoverySettles(r, i, s.docs[i].dispatchStartedAt.value + 1);
    case _ => longer := r;
  }
}
