// Recovery steps, crashes and new callers keep the invariant too; hence every run keeps it.
module DispatchRuns {
  import opened Wrappers
  import opened Text
  import opened Contracts
  import opened IntentRecords
  import opened IntentStore
  import opened Service
  import opened Dispatch
  import opened DispatchSteps
  import opened DispatchInvariant
  import opened DispatchProof
  import Fingerprint
  import Recovery
  import Serialization

  // ---- Recovery callers ----

  /** A step of recovery caller `r` that changes at most the document at `i`. */
  lemma AssembleRecovery(s: System, t: System, r: nat, i: int)
    requires Inv(s) && r < |s.recoverers| && StoreInv(t.docs) && Evolves(s.docs, t.docs)
    requires |t.tags| == |t.docs| == |s.docs| && TagsEvolve(s.tags, t.tags)
    requires t.senders == s.senders && t.calls == s.calls
    requires |t.recoverers| == |s.recoverers| && t.recoverers == s.recoverers[r := t.recoverers[r]]
    requires RecovererInv(t.docs, t.recoverers[r])
    requires TotalRecovered(t.recoverers) + t.lost == CountRecovered(t.tags)
    requires forall j :: 0 <= j < |t.docs| && j != i ==> Untouched(s, t, j)
    requires 0 <= i < |t.docs| ==> DocInv(t.docs, t.tags, t.senders, i)
    ensures Inv(t)
  {
    hide PhaseInv, CallInv, OriginInv, CloserInv, CreatorInv, WellFormed, Listed;
    forall j | 0 <= j < |t.senders| ensures SenderInv(t.docs, t.tags, t.calls, j, t.senders[j]) {
      SenderStable(s, t, j, s.senders[j]);
    }
    forall j | 0 <= j < |t.docs| ensures DocInv(t.docs, t.tags, t.senders, j) {
      if j != i {
        assert Untouched(s, t, j);
        DocStable(s, t, j);
      }
    }
    forall q | 0 <= q < |t.recoverers| ensures RecovererInv(t.docs, t.recoverers[q]) {
      if q != r {
        RecovererStable(s.docs, t.docs, s.recoverers[q]);
      }
    }
  }

  lemma CandidatesAreStored(docs: Store, before: int, limit: nat)
    requires StoreInv(docs)
    ensures forall d <- Recovery.Candidates(docs, before, limit) :: Listed(docs, before, d)
  {
    Recovery.StaleMembers(docs, before);
    forall d <- Recovery.Candidates(docs, before, limit) ensures Listed(docs, before, d) {
      assert d in Recovery.StaleSorted(docs, before);
      var i :| 0 <= i < |docs| && docs[i] == d;
      FindUnique(docs, ById(d.intent.intentId), i);
    }
  }

  lemma PickIsOk(docs: Store, before: int, todo: seq<Doc>, recovered: nat)
    requires forall d <- todo :: Listed(docs, before, d)
    ensures RecovererInv(docs, Pick(before, todo, recovered)) && Count(Pick(before, todo, recovered)) == recovered
  {
    if todo != [] {
      assert Listed(docs, before, todo[0]);
      LocalResultsAreValid(todo[0].intent);
    }
  }

  lemma ScanKeeps(s: System, r: nat, now: int, fault: Fault)
    requires Inv(s) && r < |s.recoverers| && s.recoverers[r].Scanning?
    ensures Inv(StepRecovery(s, r, now, fault))
  {
    hide PhaseInv, CallInv, DocInv, WellFormed;
    var t := StepRecovery(s, r, now, fault);
    var scan := s.recoverers[r];
    CandidatesAreStored(s.docs, scan.before, scan.limit);
    PickIsOk(s.docs, scan.before, Recovery.Candidates(s.docs, scan.before, scan.limit), 0);
    EvolvesReflexive(s.docs);
    TagsReflexive(s.tags);
    TotalUpdated(s.recoverers, r, t.recoverers[r]);
    AssembleRecovery(s, t, r, -1);
  }

  /** A completion that takes effect answers unless the database fails after it. */
  lemma CompletionFault(
    docs: Store, pc: Pc, id: string, expected: IntentState, result: DispatchResult, now: int, fault: Fault)
    requires StoreInv(docs) && PcInv(docs, pc) && Holds(docs, id)
    requires CompletionPc(pc, id, expected, result) && !expected.IsTerminal()
    requires Advance(docs, pc, now, fault).docs != docs
    ensures fault.FailAfter? <==> Advance(docs, pc, now, fault).pc == Returned(Raised(Unavailable))
  {
    if pc.CompleteWrite? {
      CompletionKeepsStore(docs, id, expected, result, pc.active, now);
    } else {
      CompletionReadStep(docs, id, expected, result, now);
    }
  }

  lemma StillStale(docs: Store, before: int, d: Doc, i: nat)
    requires i < |docs| && Listed(docs, before, d) && Find(docs, ById(d.intent.intentId)) == Some(i)
    requires docs[i].intent.state.Dispatching?
    ensures Recovery.Stale(docs[i], before)
  {
  }

  lemma ListedNames(docs: Store, before: int, d: Doc, i: nat)
    requires i < |docs| && Listed(docs, before, d) && Find(docs, ById(d.intent.intentId)) == Some(i)
    ensures RecoveredResult(d.intent) == RecoveredResult(docs[i].intent)
  {
    hide RecoveredResult;
    ResultsIgnoreState(d.intent, docs[i].intent.state, docs[i].intent.result);
  }

  lemma RecoveredDoc(s: System, t: System, r: nat, before: int, i: nat, result: DispatchResult, now: int)
    requires i < |s.docs| == |s.tags| && |t.docs| == |t.tags| == |s.docs| && DocInv(s.docs, s.tags, s.senders, i)
    requires s.docs[i].intent.state.Dispatching? && WellFormed(s.docs[i]) && t.senders == s.senders
    requires t.docs[i] == CompletedDoc(s.docs[i], Some(0), result, now)
    requires result == RecoveredResult(s.docs[i].intent)
    requires CreatorInv(t.docs, t.senders, i, t.tags[i])
    requires t.tags[i] == s.tags[i].(closer := ByRecovery(r, before)) && Recovery.Stale(s.docs[i], before)
    requires forall k :: 0 <= k < |s.senders| && Where(s.docs, s.senders[k].job).Some? ==>
               Where(t.docs, s.senders[k].job) == Where(s.docs, s.senders[k].job)
    ensures DocInv(t.docs, t.tags, t.senders, i)
  {
    hide NonBlank, Fingerprint.RequestFingerprint, Serialization.Serialize;
    ResultsIgnoreState(s.docs[i].intent, t.docs[i].intent.state, t.docs[i].intent.result);
  }

  /** A recovery caller that is completing an intent. */
  predicate Recovering(s: System, r: nat) {
    r < |s.recoverers| && s.recoverers[r].Working? && s.recoverers[r].todo != []
  }

  /** The recovery caller after a step of its completion. */
  function Recovered(c: Recoverer, step: Step): Recoverer
    requires c.Working? && c.todo != []
  {
    if step.pc.Returned? then AfterRecovery(c.before, c.todo, c.recovered, step.pc.response)
    else Working(c.before, c.todo, step.pc, c.recovered)
  }

  predicate RecoveryEffect(s: System, r: nat, i: nat, step: Step, now: int)
    requires Recovering(s, r) && i < |s.docs|
  {
    var intent := s.recoverers[r].todo[0].intent;
    CompletionEffect(s.docs, step, i, intent.intentId, Dispatching, RecoveredResult(intent), now)
  }

  lemma RecoveredIsOk(docs: Store, c: Recoverer, step: Step, i: nat, now: int)
    requires c.Working? && c.todo != [] && RecovererInv(docs, c) && Sound(docs, step) && StoreInv(docs) && i < |docs|
    requires var intent := c.todo[0].intent;
             CompletionEffect(docs, step, i, intent.intentId, Dispatching, RecoveredResult(intent), now)
    ensures RecovererInv(step.docs, Recovered(c, step))
    ensures Count(Recovered(c, step)) == c.recovered + if step.docs != docs && step.pc.response.Found? then 1 else 0
  {
    hide NonBlank;
    RecovererStable(docs, step.docs, c);
    if step.pc.Returned? {
      PickIsOk(step.docs, c.before, c.todo[1..], c.recovered);
      PickIsOk(step.docs, c.before, c.todo[1..], c.recovered + 1);
    }
  }

  lemma WorkKeeps(s: System, r: nat, now: int, fault: Fault)
    requires Inv(s) && Recovering(s, r) && RecovererInv(s.docs, s.recoverers[r])
    ensures Inv(StepRecovery(s, r, now, fault))
  {
    hide PhaseInv, CallInv, DocInv, WellFormed, NonBlank, SenderInv, RecoveredResult, Op;
    var c := s.recoverers[r];
    var (intent, pc) := (c.todo[0].intent, c.pc);
    var step := Advance(s.docs, pc, now, fault);
    assert Listed(s.docs, c.before, c.todo[0]);
    var i := Find(s.docs, ById(intent.intentId)).value;
    CompletionStep(s.docs, pc, intent.intentId, Dispatching, RecoveredResult(intent), now, fault);
    AdvanceKeepsStore(s.docs, pc, now, fault);
    RecoveredIsOk(s.docs, c, step, i, now);
    if step.docs == s.docs {
      RecoveryWaits(s, r, step);
    } else {
      CompletionFault(s.docs, pc, intent.intentId, Dispatching, RecoveredResult(intent), now, fault);
      if s.docs[i].intent.state.Dispatching? {
        StillStale(s.docs, c.before, c.todo[0], i);
      }
      ListedNames(s.docs, c.before, c.todo[0], i);
      RecoveryKeeps(s, r, i, step, now, if fault.FailAfter? then 1 else 0);
    }
  }

  lemma RecoveryWaits(s: System, r: nat, step: Step)
    requires Inv(s) && Recovering(s, r) && RecovererInv(s.docs, Recovered(s.recoverers[r], step))
    requires Count(Recovered(s.recoverers[r], step)) == s.recoverers[r].recovered
    ensures Inv(s.(recoverers := s.recoverers[r := Recovered(s.recoverers[r], step)]))
  {
    hide PhaseInv, CallInv, DocInv, WellFormed, RecoveredResult;
    var t := s.(recoverers := s.recoverers[r := Recovered(s.recoverers[r], step)]);
    EvolvesReflexive(s.docs);
    TagsReflexive(s.tags);
    TotalUpdated(s.recoverers, r, t.recoverers[r]);
    AssembleRecovery(s, t, r, -1);
  }

  lemma RecoveryKeeps(s: System, r: nat, i: nat, step: Step, now: int, lost: nat)
    requires Inv(s) && Recovering(s, r) && Sound(s.docs, step) && i < |s.docs| && step.docs != s.docs
    requires RecoveryEffect(s, r, i, step, now) && RecovererInv(step.docs, Recovered(s.recoverers[r], step))
    requires Count(Recovered(s.recoverers[r], step)) + lost == s.recoverers[r].recovered + 1
    requires s.docs[i].intent.state.Dispatching? ==> Recovery.Stale(s.docs[i], s.recoverers[r].before)
    requires RecoveredResult(s.recoverers[r].todo[0].intent) == RecoveredResult(s.docs[i].intent)
    ensures Inv(s.(docs := step.docs,
                   tags := s.tags[i := s.tags[i].(closer := ByRecovery(r, s.recoverers[r].before))],
                   recoverers := s.recoverers[r := Recovered(s.recoverers[r], step)],
                   lost := s.lost + lost))
  {
    hide SenderInv, WellFormed, NonBlank, OriginInv, RecovererInv, CompletedDoc, RecoveredResult;
    var t := s.(docs := step.docs,
                tags := s.tags[i := s.tags[i].(closer := ByRecovery(r, s.recoverers[r].before))],
                recoverers := s.recoverers[r := Recovered(s.recoverers[r], step)],
                lost := s.lost + lost);
    assert DocInv(s.docs, s.tags, s.senders, i);
    forall k | 0 <= k < |s.senders| && Where(s.docs, s.senders[k].job).Some?
      ensures Where(t.docs, s.senders[k].job) == Where(s.docs, s.senders[k].job)
    {
      WhereStable(s.docs, t.docs, s.senders[k].job);
    }
    forall k | 0 <= k < |s.senders| ensures SenderEvolves(s.senders[k], t.senders[k]) {
    }
    CreatorStable(s, t, i);
    RecoveredDoc(s, t, r, s.recoverers[r].before, i, RecoveredResult(s.recoverers[r].todo[0].intent), now);
    TotalUpdated(s.recoverers, r, t.recoverers[r]);
    CountRetagged(s.tags, i, t.tags[i]);
    AssembleRecovery(s, t, r, i);
  }

  lemma StepRecoveryKeeps(s: System, r: nat, now: int, fault: Fault)
    requires Inv(s)
    ensures Inv(StepRecovery(s, r, now, fault))
  {
    hide PhaseInv, CallInv, DocInv, WellFormed;
    if r < |s.recoverers| {
      if s.recoverers[r].Scanning? {
        ScanKeeps(s, r, now, fault);
      } else if s.recoverers[r].Working? {
        WorkKeeps(s, r, now, fault);
      }
    }
  }

  // ---- New callers and crashes ----

  lemma BeginKeeps(s: System, job: Job)
    requires Inv(s) && JobOk(job)
    ensures Inv(s.(senders := s.senders + [Sender(job, Looking(Start(Get(job.Scope()))), Evidence(None, None), None)]))
  {
    hide NonBlank, Fingerprint.RequestFingerprint, OriginInv, CloserInv, WellFormed;
    var t := s.(senders := s.senders + [Sender(job, Looking(Start(Get(job.Scope()))), Evidence(None, None), None)]);
    forall k | 0 <= k < |t.senders| ensures SenderInv(t.docs, t.tags, t.calls, k, t.senders[k]) {
      if k < |s.senders| {
        assert t.senders[k] == s.senders[k];
      }
    }
    EvolvesReflexive(s.docs);
    forall k | 0 <= k < |s.senders| ensures SenderEvolves(s.senders[k], t.senders[k]) {
    }
    forall i | 0 <= i < |t.docs| ensures DocInv(t.docs, t.tags, t.senders, i) {
      DocStable(s, t, i);
    }
    forall e | 0 <= e < |t.calls| ensures LogInv(t.senders, t.calls, e) {
      assert LogInv(s.senders, s.calls, e);
    }
  }

  lemma CrashKeeps(s: System, k: nat)
    requires Inv(s) && k < |s.senders|
    ensures Inv(s.(senders := s.senders[k := s.senders[k].(phase := Crashed)]))
  {
    hide DocInv, WellFormed, NonBlank, Fingerprint.RequestFingerprint;
    assert SenderInv(s.docs, s.tags, s.calls, k, s.senders[k]);
    MoveOnly(s, k, s.senders[k].(phase := Crashed));
  }

  lemma RecovererCrashKeeps(s: System, r: nat)
    requires Inv(s) && r < |s.recoverers| && s.recoverers[r].Working?
    ensures Inv(s.(recoverers := s.recoverers[r := Broken(s.recoverers[r].recovered)]))
  {
    hide PhaseInv, CallInv, DocInv, WellFormed;
    var t := s.(recoverers := s.recoverers[r := Broken(s.recoverers[r].recovered)]);
    EvolvesReflexive(s.docs);
    TagsReflexive(s.tags);
    TotalUpdated(s.recoverers, r, t.recoverers[r]);
    AssembleRecovery(s, t, r, -1);
  }

  lemma BeginRecoveryKeeps(s: System, before: int, limit: nat)
    requires Inv(s)
    ensures Inv(s.(recoverers := s.recoverers + [Scanning(before, limit)]))
  {
    hide PhaseInv, CallInv, DocInv, WellFormed;
    TotalAppended(s.recoverers, Scanning(before, limit));
  }

  // ---- Runs ----

  /** Every step of every caller keeps the invariant. */
  lemma NextKeeps(s: System, e: Event)
    requires Inv(s)
    ensures Inv(Next(s, e))
  {
    hide PhaseInv, CallInv, DocInv, WellFormed, RecovererInv;
    match e
    case Begin(config, call) =>
      if Typed(config, call) && Prepare(config, call).Ok? {
        PreparedJobIsOk(config, call);
        BeginKeeps(s, Prepare(config, call).value);
      }
    case Move(k, input) => MoveKeeps(s, k, input);
    case Crash(k) =>
      if k < |s.senders| {
        CrashKeeps(s, k);
      }
    case BeginRecovery(before, limit) => BeginRecoveryKeeps(s, before, limit);
    case MoveRecovery(r, now, fault) => StepRecoveryKeeps(s, r, now, fault);
    case CrashRecovery(r) =>
      if r < |s.recoverers| && s.recoverers[r].Working? {
        RecovererCrashKeeps(s, r);
      }
  }

  lemma InitialKeeps()
    ensures Inv(Initial())
  {
  }

  /** The invariant holds at every point of every run. */
  lemma {:induction false} RunKeeps(r: Run, p: nat)
    requires At(r, p)
    ensures Inv(r.states[p])
  {
    hide Next, Inv;
    if p == 0 {
      InitialKeeps();
    } else {
      RunKeeps(r, p - 1);
      assert StepsAt(r, p - 1);
      NextKeeps(r.states[p - 1], r.events[p - 1]);
    }
  }

  lemma JobsAreOk(s: System, k: nat)
    requires Inv(s) && k < |s.senders|
    ensures JobOk(s.senders[k].job) && SenderInv(s.docs, s.tags, s.calls, k, s.senders[k]) && |s.tags| == |s.docs|
  {
    assert SenderInv(s.docs, s.tags, s.calls, k, s.senders[k]);
  }

  lemma MoveIsNext(s: System, k: nat, input: Input)
    ensures Next(s, Move(k, input)) == MoveSender(s, k, input)
  {
  }

  // ---- Between two points of a run ----

  /** A caller keeps what it asked for, and stops for good. */
  predicate Continues(a: Sender, b: Sender) {
    b.job == a.job && (Over(a.phase) ==> b == a)
  }

  /** Nothing that has happened is undone. */
  predicate Later(s: System, t: System) {
    && Evolves(s.docs, t.docs)
    && TagsEvolve(s.tags, t.tags)
    && s.calls <= t.calls
    && |s.senders| <= |t.senders|
    && forall k :: 0 <= k < |s.senders| ==> Continues(s.senders[k], t.senders[k])
  }

  lemma LaterReflexive(s: System)
    ensures Later(s, s)
  {
    EvolvesReflexive(s.docs);
  }

  lemma LaterTransitive(s: System, t: System, u: System)
    requires Later(s, t) && Later(t, u)
    ensures Later(s, u)
  {
    EvolvesTransitive(s.docs, t.docs, u.docs);
    forall k | 0 <= k < |s.senders| ensures Continues(s.senders[k], u.senders[k]) {
      assert Continues(s.senders[k], t.senders[k]);
    }
    forall i | 0 <= i < |s.tags| ensures TagEvolves(s.tags[i], u.tags[i]) {
      assert TagEvolves(s.tags[i], t.tags[i]);
    }
  }

  lemma RetagEvolves(s: System, docs': Store, k: nat, sender: Sender)
    requires Inv(s) && Evolves(s.docs, docs')
    ensures TagsEvolve(s.tags, Retag(s.tags, s.docs, docs', k, sender))
  {
    hide SenderInv, OriginInv, RecovererInv, WellFormed;
    var i := Find(s.docs, ByScope(sender.job.Scope()));
    if |docs'| == |s.docs| && i.Some? {
      assert DocInv(s.docs, s.tags, s.senders, i.value) && DocEvolves(s.docs[i.value], docs'[i.value]);
      OnlyPendingIsUnclaimed(s, i.value);
    }
  }

  lemma OnlyPendingIsUnclaimed(s: System, i: nat)
    requires Inv(s) && i < |s.docs|
    ensures s.docs[i].intent.state.Pending? ==> s.tags[i].winner == None
    ensures !s.docs[i].intent.state.IsTerminal() ==> s.tags[i].closer.Open?
  {
    hide SenderInv, OriginInv, RecovererInv;
    assert DocInv(s.docs, s.tags, s.senders, i);
  }

  lemma RetagRecoveredEvolves(s: System, docs': Store, r: nat, before: int, id: string)
    requires Inv(s) && Evolves(s.docs, docs')
    ensures TagsEvolve(s.tags, RetagRecovered(s.tags, s.docs, docs', r, before, id))
  {
    hide SenderInv, OriginInv, RecovererInv, WellFormed;
    var i := Find(s.docs, ById(id));
    if i.Some? {
      assert DocEvolves(s.docs[i.value], docs'[i.value]);
      OnlyPendingIsUnclaimed(s, i.value);
    }
  }

  lemma SenderStepEvolves(s: System, k: nat, input: Input)
    requires Inv(s) && k < |s.senders|
    ensures Evolves(s.docs, MoveSender(s, k, input).docs) && TagsEvolve(s.tags, MoveSender(s, k, input).tags)
  {
    hide CallInv, DocInv, WellFormed, NonBlank, Fingerprint.RequestFingerprint, Serialization.Serialize, Retag,
      AfterStep;
    EvolvesReflexive(s.docs);
    TagsReflexive(s.tags);
    assert SenderInv(s.docs, s.tags, s.calls, k, s.senders[k]);
    var pc := PcOf(s.senders[k].phase);
    if pc.Some? {
      AdvanceKeepsStore(s.docs, pc.value, input.now, input.fault);
      RetagEvolves(s, Advance(s.docs, pc.value, input.now, input.fault).docs, k, s.senders[k]);
    }
  }

  lemma RecoveryStepEvolves(s: System, r: nat, now: int, fault: Fault)
    requires Inv(s)
    ensures Evolves(s.docs, StepRecovery(s, r, now, fault).docs)
            && TagsEvolve(s.tags, StepRecovery(s, r, now, fault).tags)
  {
    hide SenderInv, DocInv, WellFormed, NonBlank, RetagRecovered, Recovery.Candidates, Pick;
    EvolvesReflexive(s.docs);
    TagsReflexive(s.tags);
    if r < |s.recoverers| && s.recoverers[r].Working? {
      var c := s.recoverers[r];
      AdvanceKeepsStore(s.docs, c.pc, now, fault);
      RetagRecoveredEvolves(s, Advance(s.docs, c.pc, now, fault).docs, r, c.before, c.todo[0].intent.intentId);
    }
  }

  lemma NextIsLater(s: System, e: Event)
    requires Inv(s)
    ensures Later(s, Next(s, e))
  {
    hide Inv, Evolves, TagsEvolve, JobOk, Typed, AfterRecovery, Prepare, AfterStep, Advance, Retag, RetagRecovered,
      Serialization.Serialize, Pick, GatewayResult;
    EvolvesReflexive(s.docs);
    TagsReflexive(s.tags);
    if e.Move? && e.sender < |s.senders| {
      SenderStepEvolves(s, e.sender, e.input);
    } else if e.MoveRecovery? {
      RecoveryStepEvolves(s, e.recoverer, e.now, e.fault);
    }
  }

  /** A later point of a run only adds to an earlier one. */
  lemma {:induction false} RunsGrow(r: Run, p: nat, q: nat)
    requires At(r, q) && p <= q
    ensures Later(r.states[p], r.states[q])
    decreases q
  {
    hide Next, Inv, Later;
    if p == q {
      LaterReflexive(r.states[p]);
    } else {
      RunsGrow(r, p, q - 1);
      RunKeeps(r, q - 1);
      assert StepsAt(r, q - 1);
      NextIsLater(r.states[q - 1], r.events[q - 1]);
      LaterTransitive(r.states[p], r.states[q - 1], r.states[q]);
    }
  }
}
