// Recovery calls that nothing interrupts, from any reachable state of the protocol.
module SoloRecovery {
  import opened Wrappers
  import opened Text
  import opened Contracts
  import opened IntentRecords
  import opened IntentStore
  import opened Service
  import opened Dispatch
  import opened DispatchInvariant
  import opened DispatchRuns
  import opened SoloRuns
  import L = DispatchLaws
  import R = Recovery

  function RecoveryPc(d: Doc): Pc {
    Start(Complete(d.intent.intentId, Dispatching, RecoveredResult(d.intent)))
  }

  lemma FirstCandidate(docs: Store, before: int) returns (i: nat)
    requires StoreInv(docs) && exists d :: d in docs && R.Stale(d, before)
    ensures i < |docs| && R.Stale(docs[i], before) && R.Candidates(docs, before, 1) == [docs[i]]
  {
    hide StoreInv, R.Candidates, R.InOrder;
    R.CandidatesAreTheLeast(docs, before, 1);
    var picked := R.Candidates(docs, before, 1);
    var d :| d in docs && R.Stale(d, before);
    assert d in R.StaleSet(docs, before);
    assert picked[0] in R.Members(picked);
    i :| 0 <= i < |docs| && docs[i] == picked[0];
  }

  /** A recovery call begins, and its query finds a stale dispatch. */
  lemma Scans(s: System, before: int, now: int) returns (t: System, u: System, i: nat)
    requires Inv(s) && before >= 0 && exists d :: d in s.docs && R.Stale(d, before)
    ensures t == Next(s, BeginRecovery(before, 1)) && u == Next(t, MoveRecovery(|s.recoverers|, now, NoFault))
    ensures i < |s.docs| && R.Stale(s.docs[i], before) && Inv(u)
    ensures u == s.(recoverers := s.recoverers + [Working(before, [s.docs[i]], RecoveryPc(s.docs[i]), 0)])
  {
    hide Inv, NonBlank, RecoveredResult, StoreInv, R.Candidates;
    L.StoreIsSound(s);
    i := FirstCandidate(s.docs, before);
    t := Next(s, BeginRecovery(before, 1));
    NextKeeps(s, BeginRecovery(before, 1));
    StoredDecodes(s.docs, i);
    u := Next(t, MoveRecovery(|s.recoverers|, now, NoFault));
    NextKeeps(t, MoveRecovery(|s.recoverers|, now, NoFault));
  }

  /** Its two further steps close the intent; no sender notices. */
  lemma Recovers(u: System, r: nat, i: nat, now: int) returns (v: System, w: System)
    requires Inv(u) && i < |u.docs| && u.docs[i].intent.state.Dispatching? && now >= 0
    requires r < |u.recoverers| && u.recoverers[r].Working?
    requires u.recoverers[r] == Working(u.recoverers[r].before, [u.docs[i]], RecoveryPc(u.docs[i]), 0)
    ensures v == Next(u, MoveRecovery(r, now, NoFault)) && w == Next(v, MoveRecovery(r, now, NoFault))
    ensures Inv(w) && w.senders == u.senders && w.calls == u.calls
    ensures w.docs == u.docs[i := CompletedDoc(u.docs[i], Some(0), RecoveredResult(u.docs[i].intent), now)]
  {
    hide Inv, NonBlank, RecoveredResult, RetagRecovered, ReadForCompletion, WriteCompletion, CompletedDoc,
      AfterRecovery;
    var (docs, d) := (u.docs, u.docs[i]);
    var (id, result) := (d.intent.intentId, RecoveredResult(d.intent));
    var write := CompleteWrite(id, Dispatching, result, Some(0));
    L.StoreIsSound(u);
    StoredIsValid(u, i);
    LocalResultsAreValid(d.intent);
    L.ReliableCompletion(docs, RecoveryPc(d), i, result, now);
    FindUnique(docs, ById(id), i);
    CompletionReadKeepsStore(docs, id, Dispatching, result, now);
    v := Next(u, MoveRecovery(r, now, NoFault));
    NextKeeps(u, MoveRecovery(r, now, NoFault));
    L.StoreIsSound(v);
    assert v.docs == docs && v.recoverers[r] == Working(u.recoverers[r].before, [d], write, 0);
    CompletionKeepsStore(docs, id, Dispatching, result, Some(0), now);
    w := Next(v, MoveRecovery(r, now, NoFault));
    NextKeeps(v, MoveRecovery(r, now, NoFault));
  }

  /** Any run with a stale dispatch can go on with a recovery call that closes one, and does nothing else. */
  lemma ClosesOne(r: Run, before: int, now: int) returns (longer: Run, i: nat)
    requires IsRun(r) && now >= 0 && before >= 0 && exists d :: d in Last(r).docs && R.Stale(d, before)
    ensures IsRun(longer) && r.events <= longer.events && r.states <= longer.states
    ensures forall m :: |r.events| <= m < |longer.events| && longer.events[m].BeginRecovery? ==>
            longer.events[m].before == before
    ensures i < |Last(r).docs| && R.Stale(Last(r).docs[i], before)
    ensures var (s, t) := (Last(r), Last(longer));
            && t.docs == s.docs[i := CompletedDoc(s.docs[i], Some(0), RecoveredResult(s.docs[i].intent), now)]
            && t.senders == s.senders && t.calls == s.calls && Inv(t)
  {
    hide Inv, Next, IsRun, Then, CompletedDoc, RecoveredResult, R.Stale;
    RunKeeps(r, |r.events|) by { RunShape(r); }
    RunShape(r);
    var s := Last(r);
    var recover := MoveRecovery(|s.recoverers|, now, NoFault);
    var t, u;
    t, u, i := Scans(s, before, now);
    StaleIsDispatching(s.docs[i], before);
    var v, w := Recovers(u, |s.recoverers|, i, now);
    ThenIsRun(r, BeginRecovery(before, 1));
    longer := Then(r, BeginRecovery(before, 1));
    ThenIsRun(longer, recover);
    longer := Then(longer, recover);
    ThenIsRun(longer, recover);
    longer := Then(longer, recover);
    ThenIsRun(longer, recover);
    longer := Then(longer, recover);
  }

  lemma StaleIsDispatching(d: Doc, before: int)
    requires R.Stale(d, before)
    ensures d.intent.state.Dispatching?
  {
  }
}
