// Exactly when the guarantees of the dispatch protocol apply: when a provider call finds its intent
// DISPATCHING, and which rejections were never sent.
module DispatchConditions {
  import opened Wrappers
  import opened Text
  import opened Contracts
  import opened IntentRecords
  import opened IntentStore
  import opened Service
  import opened Dispatch
  import opened DispatchInvariant
  import opened DispatchRuns
  import opened DispatchLaws
  import Fingerprint
  import Recovery
  import Serialization

  // ---- When a call finds its intent DISPATCHING ----

  /** Between its claim and its call, a sender can only have been overtaken by recovery. */
  lemma SendingFinds(s: System, k: nat)
    requires Inv(s) && k < |s.senders| && s.senders[k].phase.Sending?
    ensures Where(s.docs, s.senders[k].job).Some?
    ensures var i := Where(s.docs, s.senders[k].job).value;
            var (d, closer) := (s.docs[i], s.tags[i].closer);
            && s.tags[i].winner == Some(k) && s.senders[k].callAt == None && d.dispatchStartedAt.Some?
            && (d.intent.state.Dispatching? <==> !closer.ByRecovery?)
            && (closer.ByRecovery? ==> d.intent.state.Unknown? && d.dispatchStartedAt.value < closer.before)
  {
    hide CallInv, NonBlank, Fingerprint.RequestFingerprint, UnregisteredResult;
    assert SenderInv(s.docs, s.tags, s.calls, k, s.senders[k]);
    assert DocInv(s.docs, s.tags, s.senders, Where(s.docs, s.senders[k].job).value);
  }

  /** Only a sender that is about to send calls a provider. */
  lemma CallStep(s: System, e: Event)
    requires |Next(s, e).calls| > |s.calls|
    ensures e.Move? && e.sender < |s.senders| && s.senders[e.sender].phase.Sending? && e.input.registered
    ensures Next(s, e).calls[|s.calls|].sender == e.sender
  {
    hide Prepare, AfterStep, Advance, Retag, RetagRecovered, Serialization.Serialize, Pick, GatewayResult,
      Fingerprint.RequestFingerprint, NonBlank, StartCompleting, AfterPolicy, AfterSession;
  }

  /** Step `n` of the run calls the provider for caller `k`. */
  predicate CallsAt(r: Run, n: nat, k: nat)
    requires IsRun(r)
  {
    n < |r.events| && |r.states[n].calls| < |r.states[n + 1].calls|
      && r.states[n + 1].calls[|r.states[n].calls|].sender == k
  }

  lemma CallerIsSending(r: Run, n: nat, k: nat)
    requires IsRun(r) && CallsAt(r, n, k)
    ensures k < |r.states[n].senders| && r.states[n].senders[k].phase.Sending?
  {
    hide Next;
    assert StepsAt(r, n);
    CallStep(r.states[n], r.events[n]);
  }

  /**
   * A provider call finds its intent DISPATCHING exactly if recovery has not closed it; otherwise it
   * finds it UNKNOWN, and the recovery call had a threshold above the start of the dispatch.
   */
  lemma CallFindsDispatchingIff(r: Run, n: nat, k: nat)
    requires IsRun(r) && CallsAt(r, n, k)
    ensures var s := r.states[n];
            && k < |s.senders| && |s.tags| == |s.docs| && Where(s.docs, s.senders[k].job).Some?
            && var i := Where(s.docs, s.senders[k].job).value;
               && s.docs[i].dispatchStartedAt.Some?
               && (s.docs[i].intent.state.Dispatching? <==> !s.tags[i].closer.ByRecovery?)
               && (s.tags[i].closer.ByRecovery? ==>
                     s.docs[i].intent.state.Unknown? && s.docs[i].dispatchStartedAt.value < s.tags[i].closer.before)
  {
    hide Inv;
    RunKeeps(r, n);
    CallerIsSending(r, n, k);
    SendingFinds(r.states[n], k);
    StoreIsSound(r.states[n]);
  }

  function Threshold(c: Recoverer): Option<int> {
    match c
    case Scanning(before, _) => Some(before)
    case Working(before, _, _, _) => Some(before)
    case _ => None
  }

  /** Some recovery call of the run so far was begun with this threshold. */
  predicate Announced(r: Run, p: nat, before: int)
    requires IsRun(r) && p <= |r.events|
  {
    exists n :: 0 <= n < p && r.events[n].BeginRecovery? && r.events[n].before == before
  }

  lemma RecovererThresholds(s: System, e: Event, q: nat)
    requires q < |Next(s, e).recoverers| && Threshold(Next(s, e).recoverers[q]).Some?
    ensures (q < |s.recoverers| && Threshold(s.recoverers[q]) == Threshold(Next(s, e).recoverers[q]))
            || (e.BeginRecovery? && Threshold(Next(s, e).recoverers[q]) == Some(e.before))
  {
    hide Prepare, AfterStep, Advance, Retag, RetagRecovered, Serialization.Serialize, GatewayResult,
      Fingerprint.RequestFingerprint, NonBlank, StartCompleting, AfterPolicy, AfterSession, Recovery.Candidates,
      RecoveredResult, Decode;
  }

  lemma TagThresholds(s: System, e: Event, i: nat)
    requires i < |Next(s, e).tags| && Next(s, e).tags[i].closer.ByRecovery?
    ensures (i < |s.tags| && s.tags[i].closer == Next(s, e).tags[i].closer)
            || (e.MoveRecovery? && e.recoverer < |s.recoverers|
                && Threshold(s.recoverers[e.recoverer]) == Some(Next(s, e).tags[i].closer.before))
  {
    hide Prepare, AfterStep, Advance, Serialization.Serialize, GatewayResult, Pick, Fingerprint.RequestFingerprint,
      NonBlank, StartCompleting, AfterPolicy, AfterSession, Recovery.Candidates, Find;
  }

  /** Every threshold at work, and of every recovered intent, was that of some recovery call. */
  lemma {:induction false} ThresholdsAreAnnounced(r: Run, p: nat)
    requires At(r, p)
    ensures forall q :: 0 <= q < |r.states[p].recoverers| && Threshold(r.states[p].recoverers[q]).Some? ==>
              Announced(r, p, Threshold(r.states[p].recoverers[q]).value)
    ensures forall i :: 0 <= i < |r.states[p].tags| && r.states[p].tags[i].closer.ByRecovery? ==>
              Announced(r, p, r.states[p].tags[i].closer.before)
  {
    hide Next;
    if p > 0 {
      var (s, t, e) := (r.states[p - 1], r.states[p], r.events[p - 1]);
      assert StepsAt(r, p - 1);
      ThresholdsAreAnnounced(r, p - 1);
      forall q | 0 <= q < |t.recoverers| && Threshold(t.recoverers[q]).Some?
        ensures Announced(r, p, Threshold(t.recoverers[q]).value)
      {
        RecovererThresholds(s, e, q);
      }
      forall i | 0 <= i < |t.tags| && t.tags[i].closer.ByRecovery? ensures Announced(r, p, t.tags[i].closer.before) {
        TagThresholds(s, e, i);
      }
    }
  }

  /**
   * The condition an operator can keep: if no recovery call so far had a threshold above the start of
   * the dispatch, the provider call finds its intent DISPATCHING. `Overtaken.CalledAfterRecovery` shows
   * that any threshold above it can defeat this.
   */
  lemma CallFindsDispatching(r: Run, n: nat, k: nat)
    requires IsRun(r) && CallsAt(r, n, k)
    requires k < |r.states[n].senders| && Where(r.states[n].docs, r.states[n].senders[k].job).Some?
    requires var d := r.states[n].docs[Where(r.states[n].docs, r.states[n].senders[k].job).value];
             && d.dispatchStartedAt.Some?
             && forall m :: 0 <= m < n && r.events[m].BeginRecovery? ==> r.events[m].before <= d.dispatchStartedAt.value
    ensures r.states[n].docs[Where(r.states[n].docs, r.states[n].senders[k].job).value].intent.state.Dispatching?
  {
    hide Inv;
    CallFindsDispatchingIff(r, n, k);
    ThresholdsAreAnnounced(r, n);
  }

  // ---- Rejections that were never sent ----

  /** The winner of a claim that has not called its provider is the reason that nobody has. */
  lemma UncalledWinner(s: System, i: nat, k: nat)
    requires Inv(s) && i < |s.docs| && s.tags[i].winner == Some(k) && k < |s.senders| && s.senders[k].callAt == None
    ensures CallsFor(s.calls, s.docs[i].intent.Key()) == 0
  {
    hide Inv;
    forall e | 0 <= e < |s.calls| ensures s.calls[e].scope != s.docs[i].intent.Key() {
      if s.calls[e].scope == s.docs[i].intent.Key() {
        WinnerMadeTheCall(s, i, e);
      }
    }
    CountIsZero(s.calls, s.docs[i].intent.Key());
  }

  lemma ClosedByWinner(s: System, i: nat)
    requires Inv(s) && i < |s.docs| && s.tags[i].closer.ByDispatcher?
    ensures s.tags[i].winner == Some(s.tags[i].closer.sender) && s.tags[i].closer.sender < |s.senders|
  {
    hide SenderInv, OriginInv, CreatorInv, WellFormed;
    assert DocInv(s.docs, s.tags, s.senders, i);
  }

  /** A document that a dispatcher closed was sent, once, exactly if that dispatcher called the provider. */
  lemma DispatcherSentIff(r: Run, p: nat, i: nat)
    requires At(r, p) && i < |r.states[p].docs| == |r.states[p].tags| && r.states[p].tags[i].closer.ByDispatcher?
    ensures var (s, k) := (r.states[p], r.states[p].tags[i].closer.sender);
            && k < |s.senders|
            && CallsFor(s.calls, s.docs[i].intent.Key()) == (if s.senders[k].callAt == None then 0 else 1)
            && (s.senders[k].callAt == None <==> forall e :: 0 <= e < |s.calls| ==> s.calls[e].sender != k)
  {
    hide Inv;
    RunKeeps(r, p);
    var (s, k) := (r.states[p], r.states[p].tags[i].closer.sender);
    ClosedByWinner(s, i);
    CallerIsKnown(s, k);
    if s.senders[k].callAt == None {
      UncalledWinner(s, i, k);
    } else {
      CallerHasCall(s, i, k);
      AtMostOneCall(r, p, s.docs[i].intent.Key());
    }
  }

  /** Step `n` of the run is the one where caller `k`, holding its claim, finds no provider registered. */
  predicate UnregisteredAt(r: Run, n: nat, k: nat)
    requires IsRun(r)
  {
    && n < |r.events| && r.events[n].Move? && r.events[n].sender == k && !r.events[n].input.registered
    && k < |r.states[n].senders| && r.states[n].senders[k].phase.Sending?
  }

  /** A caller that found no provider never calls one. */
  predicate Unsent(sender: Sender) {
    sender.callAt == None && ((sender.phase.Completing? && !sender.phase.invoked) || Over(sender.phase))
  }

  lemma UnsentStep(s: System, e: Event, k: nat)
    requires k < |s.senders|
    requires Unsent(s.senders[k])
             || (s.senders[k].phase.Sending? && s.senders[k].callAt == None && e.Move? && e.sender == k
                 && !e.input.registered
                 && JobOk(s.senders[k].job) && |s.tags| == |s.docs|)
    ensures k < |Next(s, e).senders| && Unsent(Next(s, e).senders[k])
  {
    hide Prepare, Advance, Retag, RetagRecovered, Serialization.Serialize, Pick, GatewayResult, JobOk,
      Fingerprint.RequestFingerprint, NonBlank, AfterPolicy, AfterSession, UnregisteredResult;
  }

  lemma {:induction false} StaysUnsent(r: Run, n: nat, p: nat, k: nat)
    requires At(r, p) && UnregisteredAt(r, n, k) && n < p
    ensures k < |r.states[p].senders| && Unsent(r.states[p].senders[k])
    decreases p
  {
    hide Next, Inv, Unsent;
    assert StepsAt(r, p - 1);
    if p == n + 1 {
      RunKeeps(r, n);
      JobsAreOk(r.states[n], k);
      SendingFinds(r.states[n], k);
    } else {
      StaysUnsent(r, n, p - 1, k);
    }
    UnsentStep(r.states[p - 1], r.events[p - 1], k);
  }

  /**
   * Once the winner of a claim finds no provider registered, no provider is ever called for its scope:
   * not before, not then, and not at any later point, whoever else runs.
   */
  lemma UnregisteredIsNeverSent(r: Run, n: nat, p: nat, k: nat)
    requires At(r, p) && UnregisteredAt(r, n, k)
    ensures CallsFor(r.states[p].calls, r.states[n].senders[k].job.Scope()) == 0
  {
    hide Inv, Unsent;
    var (s, t) := (r.states[n], r.states[p]);
    RunKeeps(r, n);
    RunKeeps(r, p);
    SendingFinds(s, k);
    var i := Where(s.docs, s.senders[k].job).value;
    if n < p {
      RunsGrow(r, n, p);
      StaysUnsent(r, n, p, k);
      StoreIsSound(s);
      StoreIsSound(t);
      assert TagEvolves(s.tags[i], t.tags[i]);
      assert DocEvolves(s.docs[i], t.docs[i]);
      UnsentWinner(t, i, k);
    } else {
      UncalledWinner(s, i, k);
      RunsGrow(r, p, n);
      FewerCalls(t.calls, s.calls, s.senders[k].job.Scope());
    }
  }

  lemma UnsentWinner(s: System, i: nat, k: nat)
    requires Inv(s) && i < |s.docs| && s.tags[i].winner == Some(k) && k < |s.senders| && Unsent(s.senders[k])
    ensures CallsFor(s.calls, s.docs[i].intent.Key()) == 0
  {
    UncalledWinner(s, i, k);
  }

  lemma {:induction false} FewerCalls(calls: seq<ProviderCall>, more: seq<ProviderCall>, scope: Scope)
    requires calls <= more
    ensures CallsFor(calls, scope) <= CallsFor(more, scope)
  {
    if calls != [] {
      FewerCalls(calls[1..], more[1..], scope);
    }
  }

  /** A policy rejection, which is a terminal intent without an attempt, is never sent either. */
  lemma PolicyRejectionIsNeverSent(r: Run, p: nat, q: nat, i: nat)
    requires At(r, q) && p <= q && i < |r.states[p].docs|
    requires r.states[p].docs[i].intent.state.IsTerminal() && r.states[p].docs[i].attempts == []
    ensures CallsFor(r.states[q].calls, r.states[p].docs[i].intent.Key()) == 0
    ensures r.states[p].docs[i].intent.state.Rejected?
  {
    hide Inv;
    RunKeeps(r, p);
    NoAttemptIsRejected(r.states[p], i);
    TerminalIsFinal(r, p, q, i);
    CallsFitTheState(r, q, i);
  }

  lemma NoAttemptIsRejected(s: System, i: nat)
    requires Inv(s) && i < |s.docs| && s.docs[i].intent.state.IsTerminal() && s.docs[i].attempts == []
    ensures s.docs[i].intent.state.Rejected? && s.tags[i].closer.ByPolicy?
  {
    hide SenderInv, OriginInv, CreatorInv, WellFormed;
    assert DocInv(s.docs, s.tags, s.senders, i);
  }
}
