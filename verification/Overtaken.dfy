// A provider call after recovery: the stored state does not bound when calls are made.
module Overtaken {
  import opened Wrappers
  import opened Text
  import opened Contracts
  import opened IntentRecords
  import opened IntentStore
  import opened Service
  import opened Dispatch
  import opened DispatchInvariant
  import opened DispatchProof
  import opened DispatchRuns
  import opened SoloRuns
  import A = ServiceAlone
  import L = DispatchLaws
  import M = MongoRepository
  import opened SoloRecovery
  import opened Recovery
  import Fingerprint
  import Serialization

  /** The policies allow the send, and its identifiers are usable. */
  predicate Allowed(job: Job, input: Input) {
    Reliable(input) && PoliciesAllow(job.purpose, input.policy, input.session) && NonBlank(input.intentId)
      && NonBlank(input.correlationId)
  }

  predicate AboutToSend(s: System, k: nat) {
    k < |s.senders| && s.senders[k].phase.Sending?
  }

  /** Over an empty collection, a new sender that is allowed gets to the point of calling its provider. */
  lemma GetsToSend(s: System, k: nat, input: Input) returns (t: System, b: nat)
    requires Inv(s) && k < |s.senders| && s.docs == []
             && s.senders[k].phase == Looking(Start(Get(s.senders[k].job.Scope())))
    requires Allowed(s.senders[k].job, input)
    ensures Reaches(s, t, k, Constant(input), 0, b) && Inv(t) && AboutToSend(t, k)
    ensures |t.docs| == 1 && t.docs[0].intent.state.Dispatching? && t.docs[0].dispatchStartedAt == Some(input.now)
  {
    hide Inv, JobOk, NonBlank, FingerprintOf, IsSensitive, IntentFor, RequestFor, StoreInv, Serialization.Deserialize;
    JobsAreOk(s, k);
    L.StoreIsSound(s);
    var job := s.senders[k].job;
    var intent := IntentFor(job, input.intentId, input.correlationId);
    A.GetsAlone(s.docs, job, input.now);
    var inputs := Constant(input);
    var looked, c, _ := CallEnds(s, k, inputs, 0);
    L.StoreIsSound(looked);
    IntentForIsValid(job, input.intentId, input.correlationId);
    IntentForNames(job, input.intentId, input.correlationId);
    M.CreatesAlone(looked.docs, intent, input.now);
    var created, d, _ := CallEnds(looked, k, inputs, c);
    ReachesTransitive(s, looked, created, k, inputs, 0, c, d);
    IntentForPrint(job, input.intentId, input.correlationId);
    L.StoreIsSound(created);
    FindUnique(created.docs, ByScope(job.Scope()), 0);
    AllOriginated(created);
    A.StoredRequest(created.docs, 0, job);
    t, b := PoliciesAgree(created, k, input, d);
    ReachesTransitive(s, created, t, k, inputs, 0, d, b);
  }

  lemma IntentForPrint(job: Job, intentId: string, correlationId: string)
    requires JobOk(job)
    ensures SameRequest(job, IntentFor(job, intentId, correlationId))
  {
  }

  lemma PoliciesAgree(s: System, k: nat, input: Input, a: nat) returns (t: System, b: nat)
    requires Inv(s) && k < |s.senders| && |s.docs| == 1 && Where(s.docs, s.senders[k].job) == Some(0)
    requires s.docs[0].intent.state.Pending? && s.senders[k].phase.Policy?
    requires s.senders[k].phase.intent == s.docs[0].intent && Allowed(s.senders[k].job, input)
    ensures Reaches(s, t, k, Constant(input), a, b) && Inv(t) && AboutToSend(t, k)
    ensures |t.docs| == 1 && t.docs[0].intent.state.Dispatching? && t.docs[0].dispatchStartedAt == Some(input.now)
  {
    hide Inv, JobOk, NonBlank, StoreInv, DeniedResult, Fingerprint.RequestFingerprint, MoveSender, Solo;
    var inputs := Constant(input);
    var one := OutsideStep(s, k, inputs, a);
    var two, c := one, a + 1;
    if one.senders[k].phase.Session? {
      two := OutsideStep(one, k, inputs, a + 1);
      ReachesTransitive(s, one, two, k, inputs, a, a + 1, a + 2);
      c := a + 2;
    }
    L.StoreIsSound(two);
    M.ClaimsAlone(two.docs, 0, input.now);
    var w;
    t, b, w := CallEnds(two, k, inputs, c);
    ReachesTransitive(s, two, t, k, inputs, a, c, b);
  }

  /** A run of one new sender, up to the call of its provider. */
  lemma RunsToSend(config: Config, call: SendCall, input: Input) returns (r: Run)
    requires Typed(config, call) && Prepare(config, call).Ok? && Allowed(Prepare(config, call).value, input)
    ensures IsRun(r) && Inv(Last(r)) && AboutToSend(Last(r), 0) && |Last(r).docs| == 1
    ensures Last(r).docs[0].intent.state.Dispatching? && Last(r).docs[0].dispatchStartedAt == Some(input.now)
    ensures forall m :: 0 <= m < |r.events| ==> !r.events[m].BeginRecovery?
  {
    hide Inv, JobOk, Typed, NonBlank, Prepare, MoveSender, Asked;
    var begun := Run([Initial(), Next(Initial(), Begin(config, call))], [Begin(config, call)]);
    assert StepsAt(begun, 0);
    RunKeeps(begun, 1);
    PreparedJobIsOk(config, call);
    var ready, n := GetsToSend(begun.states[1], 0, input);
    SoloAsRun(begun, 0, Constant(input), n);
    r := Extended(begun, 0, Constant(input), n);
    forall m | 0 <= m < |r.events| ensures !r.events[m].BeginRecovery? {
      if m > 0 {
        ExtendedMoves(begun, 0, Constant(input), n, m);
      }
    }
  }

  /**
   * At-most-once does not rest on calls being made only while DISPATCHING. For every call that passes
   * preparation, and every recovery threshold above the time of its claim, there is a run in which its
   * provider is called although the stored intent is already UNKNOWN: recovery with that threshold came
   * between the claim and the call.
   */
  lemma CalledAfterRecovery(config: Config, call: SendCall, input: Input, before: int) returns (r: Run)
    requires Typed(config, call) && Prepare(config, call).Ok? && Allowed(Prepare(config, call).value, input)
             && input.registered
    requires before > input.now
    ensures IsRun(r) && |r.events| > 0
    ensures forall n :: 0 <= n < |r.events| && r.events[n].BeginRecovery? ==> r.events[n].before == before
    ensures var (s, t) := (r.states[|r.events| - 1], r.states[|r.events|]);
            && |s.docs| == 1 && s.docs[0].intent.state.Unknown? && s.docs[0].dispatchStartedAt == Some(input.now)
            && |s.calls| < |t.calls| && t.calls[|s.calls|].scope == s.docs[0].intent.Key()
  {
    hide Inv, JobOk, Typed, NonBlank, Prepare, Next, IsRun, Then, MoveSender;
    r := RunsToSend(config, call, input);
    assert Last(r).docs[0] in Last(r).docs && Stale(Last(r).docs[0], before);
    var i;
    r, i := ClosesOne(r, before, input.now);
    assert Last(r).docs[0].intent.state.Unknown?;
    SendsAnyway(Last(r), 0, input);
    MoveIsNext(Last(r), 0, input);
    ThenIsRun(r, Move(0, input));
    r := Then(r, Move(0, input));
  }

  lemma SendsAnyway(s: System, k: nat, input: Input)
    requires Inv(s) && AboutToSend(s, k) && |s.docs| == 1 && input.registered
    ensures var t := MoveSender(s, k, input);
            |s.calls| < |t.calls| && t.calls[|s.calls|].scope == s.docs[0].intent.Key()
  {
    hide CallInv, DocInv, NonBlank, WellFormed, Fingerprint.RequestFingerprint;
    assert SenderInv(s.docs, s.tags, s.calls, k, s.senders[k]);
  }
}