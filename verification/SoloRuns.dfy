// A sender that nobody interrupts, from any reachable state of the protocol: its steps add up to the
// atomic send.
module SoloRuns {
  import opened Wrappers
  import opened Text
  import opened Contracts
  import opened IntentRecords
  import opened IntentStore
  import opened Service
  import opened Dispatch
  import opened DispatchSteps
  import opened DispatchInvariant
  import opened DispatchProof
  import opened DispatchRuns
  import Linearization
  import A = ServiceAlone
  import L = DispatchLaws
  import M = MongoRepository
  import Serialization

  /** The system after `n` steps of one sender, which get the inputs from number `a` on. */
  function Solo(s: System, k: nat, inputs: nat -> Input, a: nat, n: nat): System
    decreases n
  {
    if n == 0 then s else Solo(MoveSender(s, k, inputs(a)), k, inputs, a + 1, n - 1)
  }

  /** The steps with the inputs from `a` up to `b` lead from one system to the other. */
  predicate Reaches(s: System, t: System, k: nat, inputs: nat -> Input, a: nat, b: nat) {
    a <= b && t == Solo(s, k, inputs, a, b - a)
  }

  lemma {:induction false} SoloAdds(s: System, k: nat, inputs: nat -> Input, a: nat, m: nat, n: nat)
    ensures Solo(s, k, inputs, a, m + n) == Solo(Solo(s, k, inputs, a, m), k, inputs, a + m, n)
    decreases m
  {
    hide MoveSender;
    if m > 0 {
      SoloAdds(MoveSender(s, k, inputs(a)), k, inputs, a + 1, m - 1, n);
    }
  }

  lemma ReachesTransitive(s: System, t: System, u: System, k: nat, inputs: nat -> Input, a: nat, b: nat, c: nat)
    requires Reaches(s, t, k, inputs, a, b) && Reaches(t, u, k, inputs, b, c)
    ensures Reaches(s, u, k, inputs, a, c)
  {
    hide MoveSender, Solo;
    SoloAdds(s, k, inputs, a, b - a, c - b);
    assert (b - a) + (c - b) == c - a && a + (b - a) == b;
  }

  /** The sender at `k` moved to a phase, and nothing else of the system but what is named. */
  predicate Moved(s: System, t: System, k: nat, docs: Store, calls: seq<ProviderCall>, phase: Phase) {
    && k < |s.senders| == |t.senders| && t.docs == docs && t.calls == calls
    && t.senders[k].job == s.senders[k].job && t.senders[k].phase == phase && Inv(t)
  }

  predicate Reliable(input: Input) {
    input.fault.NoFault? && input.now >= 0
  }

  ghost predicate AllReliable(inputs: nat -> Input) {
    forall n :: Reliable(inputs(n))
  }

  /** The same input at every step. */
  function Constant(input: Input): nat -> Input {
    _ => input
  }

  // ---- The steps that count ----

  /**
   * The steps of a send at which an input counts: the policies, the lookup of the provider, and the
   * three writes with their clock readings.
   */
  datatype Steps = Steps(created: nat, policy: nat, session: nat, claimed: nat, sending: nat, completed: nat)

  /** If the sender is about to take a step that counts, it is the one with number `n`. */
  predicate CountsAt(u: System, k: nat, n: nat, at: Steps) {
    k < |u.senders| ==>
      match u.senders[k].phase
      case Creating(_, pc) => pc.CreateUpsert? ==> at.created == n
      case Policy(_, _) => at.policy == n
      case Session(_, _) => at.session == n
      case Claiming(_, _, pc) => pc.ClaimWrite? ==> at.claimed == n
      case Sending(_, _) => at.sending == n
      case Denying(_, pc) => pc.CompleteWrite? ==> at.completed == n
      case Completing(_, _, _, pc) => pc.CompleteWrite? ==> at.completed == n
      case _ => true
  }

  predicate StepCounts(s: System, k: nat, inputs: nat -> Input, a: nat, n: nat, at: Steps)
    requires a <= n
  {
    CountsAt(Solo(s, k, inputs, a, n - a), k, n, at)
  }

  /** Each step of the sender that counts is the one named for it. */
  ghost predicate Counts(s: System, k: nat, inputs: nat -> Input, a: nat, b: nat, at: Steps) {
    forall n :: a <= n < b ==> StepCounts(s, k, inputs, a, n, at)
  }

  /** All steps named are among those taken, if any is. */
  predicate Within(at: Steps, a: nat, b: nat) {
    && a <= at.created <= b && a <= at.policy <= b && a <= at.session <= b
    && a <= at.claimed <= b && a <= at.sending <= b && a <= at.completed <= b
  }

  /** What may still count from a stage on: nothing, the completion, the lookup of the provider, and so on back. */
  datatype Stage = OnRace | OnCompletion | OnProvider | OnClaim | OnSession | OnPolicy | OnCreation

  predicate Agree(at: Steps, other: Steps, stage: Stage) {
    && (stage != OnRace ==> other.completed == at.completed)
    && (stage != OnRace && stage != OnCompletion ==> other.sending == at.sending)
    && (stage in {OnClaim, OnSession, OnPolicy, OnCreation} ==> other.claimed == at.claimed)
    && (stage in {OnSession, OnPolicy, OnCreation} ==> other.session == at.session)
    && (stage in {OnPolicy, OnCreation} ==> other.policy == at.policy)
    && (stage == OnCreation ==> other.created == at.created)
  }

  lemma AgreeReflexive(at: Steps, stage: Stage)
    ensures Agree(at, at, stage)
  {
  }

  /** From this stage on, only the steps of the stage count, and they are those named. */
  ghost predicate Counted(s: System, k: nat, inputs: nat -> Input, a: nat, b: nat, at: Steps, stage: Stage) {
    forall other :: Agree(at, other, stage) ==> Counts(s, k, inputs, a, b, other)
  }

  lemma CountsOne(s: System, k: nat, inputs: nat -> Input, a: nat, at: Steps)
    ensures Counts(s, k, inputs, a, a + 1, at) <==> CountsAt(s, k, a, at)
  {
    hide MoveSender, CountsAt;
    assert Solo(s, k, inputs, a, 0) == s;
    assert StepCounts(s, k, inputs, a, a, at) <==> CountsAt(s, k, a, at);
  }

  lemma CountsJoin(s: System, u: System, k: nat, inputs: nat -> Input, a: nat, c: nat, b: nat, at: Steps)
    requires Reaches(s, u, k, inputs, a, c) && Counts(s, k, inputs, a, c, at) && Counts(u, k, inputs, c, b, at)
    ensures Counts(s, k, inputs, a, b, at)
  {
    hide MoveSender, CountsAt, Solo;
    forall n | a <= n < b ensures StepCounts(s, k, inputs, a, n, at) {
      if n >= c {
        assert StepCounts(u, k, inputs, c, n, at);
        SoloAdds(s, k, inputs, a, c - a, n - c);
        assert (c - a) + (n - c) == n - a && a + (c - a) == c;
      }
    }
  }

  /** First the steps of one stage, then those of the stages after it. */
  lemma CountedJoin(
    s: System, u: System, k: nat, inputs: nat -> Input, a: nat, c: nat, b: nat, after: Steps, later: Stage, at: Steps,
    stage: Stage)
    requires Reaches(s, u, k, inputs, a, c) && Counted(u, k, inputs, c, b, after, later)
    requires forall other :: Agree(at, other, stage) ==> Agree(after, other, later) && Counts(s, k, inputs, a, c, other)
    ensures Counted(s, k, inputs, a, b, at, stage)
    ensures Counts(s, k, inputs, a, b, at)
  {
    hide Counts, Reaches, Agree;
    forall other | Agree(at, other, stage) ensures Counts(s, k, inputs, a, b, other) {
      CountsJoin(s, u, k, inputs, a, c, b, other);
    }
    AgreeReflexive(at, stage);
  }

  /** The same where the first stage is one step. */
  lemma CountedStep(
    s: System, u: System, k: nat, inputs: nat -> Input, a: nat, b: nat, after: Steps, later: Stage, at: Steps,
    stage: Stage)
    requires Reaches(s, u, k, inputs, a, a + 1) && Counted(u, k, inputs, a + 1, b, after, later)
    requires forall other :: Agree(at, other, stage) ==> Agree(after, other, later) && CountsAt(s, k, a, other)
    ensures Counted(s, k, inputs, a, b, at, stage)
    ensures Counts(s, k, inputs, a, b, at)
  {
    hide Counted, Counts, Reaches, Agree, CountsAt;
    forall other | Agree(at, other, stage) ensures Counts(s, k, inputs, a, a + 1, other) {
      CountsOne(s, k, inputs, a, other);
    }
    CountedJoin(s, u, k, inputs, a, a + 1, b, after, later, at, stage);
    AgreeReflexive(at, stage);
  }

  lemma CountedOnce(s: System, k: nat, inputs: nat -> Input, a: nat, at: Steps, stage: Stage)
    requires forall other :: Agree(at, other, stage) ==> CountsAt(s, k, a, other)
    ensures Counted(s, k, inputs, a, a + 1, at, stage)
    ensures Counts(s, k, inputs, a, a + 1, at)
  {
    hide Counts, Agree, CountsAt;
    forall other | Agree(at, other, stage) ensures Counts(s, k, inputs, a, a + 1, other) {
      CountsOne(s, k, inputs, a, other);
    }
    AgreeReflexive(at, stage);
  }

  // ---- Calls at the repository ----

  /** Only three steps read the clock; any other is the same at all times. */
  lemma ClockIsIgnored(docs: Store, pc: Pc, now: int, other: int)
    requires !pc.CreateUpsert? && !pc.ClaimWrite? && !pc.CompleteWrite? && now >= 0 && other >= 0
    ensures Op(docs, pc, now) == Op(docs, pc, other)
  {
  }

  /** A call run to its end with two clock readings is as if all of it had the reading of its write. */
  lemma TwoReadings(docs: Store, pc: Pc, first: int, second: int) returns (write: int)
    requires !pc.Returned? && first >= 0 && second >= 0
    ensures write == if pc.CreateUpsert? then first else second
    ensures var step := Op(docs, pc, first);
            !step.pc.Returned? ==> Linearization.Alone(docs, pc, write) == Op(step.docs, step.pc, second)
    ensures var step := Op(docs, pc, first);
            !step.pc.Returned? ==> Op(step.docs, step.pc, second).pc.Returned?
  {
    write := if pc.CreateUpsert? then first else second;
    var step := Op(docs, pc, first);
    if !step.pc.Returned? {
      Linearization.AloneStep(docs, pc, write);
      Linearization.StepsDecrease(docs, pc, first);
      Linearization.StepsDecrease(step.docs, step.pc, second);
      if !pc.CreateUpsert? {
        ClockIsIgnored(docs, pc, first, second);
      } else {
        ClockIsIgnored(step.docs, step.pc, first, second);
      }
      Linearization.AloneStep(step.docs, step.pc, write);
    }
  }

  /** A call at the repository, to its end; `w` is the step whose clock reading counts. */
  lemma CallEnds(s: System, k: nat, inputs: nat -> Input, a: nat) returns (t: System, b: nat, w: nat)
    requires Inv(s) && k < |s.senders| && PcOf(s.senders[k].phase).Some? && AllReliable(inputs)
    requires !PcOf(s.senders[k].phase).value.Returned?
    ensures JobOk(s.senders[k].job) && a <= w < b <= a + 2 && Reaches(s, t, k, inputs, a, b)
    ensures s.senders[k].phase.Looking? ==> b == a + 1
    ensures forall at :: Wrote(s.senders[k].phase, at, w) ==> Counts(s, k, inputs, a, b, at)
    ensures var end := Linearization.Alone(s.docs, PcOf(s.senders[k].phase).value, inputs(w).now);
            Moved(s, t, k, end.docs, s.calls, AfterStep(s.senders[k].job, s.senders[k].phase, end.pc, inputs(b - 1)))
  {
    hide Inv, SenderInv, JobOk, Op, Retag, AfterLookup, AfterCreation, AfterDenial, AfterClaim, AfterRace,
      AfterCompletion, Counts;
    JobsAreOk(s, k);
    if s.senders[k].phase.Looking? {
      LookingReads(s, k);
    }
    var sender := s.senders[k];
    var pc := PcOf(sender.phase).value;
    assert Reliable(inputs(a)) && Reliable(inputs(a + 1));
    var step := Op(s.docs, pc, inputs(a).now);
    t := MoveSender(s, k, inputs(a));
    assert t.docs == step.docs;
    assert t.senders[k] == sender.(phase := AfterStep(sender.job, sender.phase, step.pc, inputs(a)));
    MoveKeeps(s, k, inputs(a));
    OneStep(s, k, inputs, a);
    if step.pc.Returned? {
      b, w := a + 1, a;
      Linearization.AloneStep(s.docs, pc, inputs(a).now);
      OneCallCounts(s, k, inputs, a);
    } else {
      var write := TwoReadings(s.docs, pc, inputs(a).now, inputs(a + 1).now);
      SamePhase(sender.job, sender.phase, step.pc, inputs(a), inputs(a + 1));
      if pc.GetRead? {
        GetReturns(s.docs, pc, inputs(a).now);
      }
      var u := MoveSender(t, k, inputs(a + 1));
      var last := Op(t.docs, step.pc, inputs(a + 1).now);
      JobsAreOk(t, k);
      assert u.docs == last.docs && u.calls == s.calls;
      assert u.senders[k] == t.senders[k].(phase := AfterStep(sender.job, t.senders[k].phase, last.pc, inputs(a + 1)));
      MoveKeeps(t, k, inputs(a + 1));
      OneStep(t, k, inputs, a + 1);
      ReachesTransitive(s, t, u, k, inputs, a, a + 1, a + 2);
      TwoCallsCount(s, t, k, inputs, a, step.pc);
      t, b, w := u, a + 2, if pc.CreateUpsert? then a else a + 1;
    }
  }

  /** The write of the sender's call, if it gets to one, is step `w`. */
  predicate Wrote(phase: Phase, at: Steps, w: nat) {
    match phase
    case Creating(_, _) => at.created == w
    case Claiming(_, _, _) => at.claimed == w
    case Denying(_, _) => at.completed == w
    case Completing(_, _, _, _) => at.completed == w
    case _ => true
  }

  lemma OneCallCounts(s: System, k: nat, inputs: nat -> Input, a: nat)
    requires k < |s.senders| && PcOf(s.senders[k].phase).Some?
    ensures forall at :: Wrote(s.senders[k].phase, at, a) ==> Counts(s, k, inputs, a, a + 1, at)
  {
    hide Counts, MoveSender;
    forall at | Wrote(s.senders[k].phase, at, a) ensures Counts(s, k, inputs, a, a + 1, at) {
      CountsOne(s, k, inputs, a, at);
    }
  }

  lemma TwoCallsCount(s: System, t: System, k: nat, inputs: nat -> Input, a: nat, pc: Pc)
    requires k < |s.senders| && JobOk(s.senders[k].job) && PcOf(s.senders[k].phase).Some? && !pc.Returned?
    requires !PcOf(s.senders[k].phase).value.Returned?
    requires pc == Op(s.docs, PcOf(s.senders[k].phase).value, inputs(a).now).pc
    requires k < |t.senders| && t.senders[k].phase == AfterStep(s.senders[k].job, s.senders[k].phase, pc, inputs(a))
    requires Reaches(s, t, k, inputs, a, a + 1)
    ensures var w := if PcOf(s.senders[k].phase).value.CreateUpsert? then a else a + 1;
            forall at :: Wrote(s.senders[k].phase, at, w) ==> Counts(s, k, inputs, a, a + 2, at)
  {
    hide Counts, MoveSender, JobOk, Reaches, Op, AfterLookup, AfterCreation, AfterDenial, AfterClaim, AfterRace,
      AfterCompletion;
    var first := PcOf(s.senders[k].phase).value;
    SecondSteps(s.docs, first, inputs(a).now);
    var w := if first.CreateUpsert? then a else a + 1;
    forall at | Wrote(s.senders[k].phase, at, w) ensures Counts(s, k, inputs, a, a + 2, at) {
      CountsOne(s, k, inputs, a, at);
      CountsOne(t, k, inputs, a + 1, at);
      CountsJoin(s, t, k, inputs, a, a + 1, a + 2, at);
    }
  }

  /** Which calls have a second step, and which of the two writes. */
  lemma SecondSteps(docs: Store, pc: Pc, now: int)
    requires !pc.Returned? && !Op(docs, pc, now).pc.Returned?
    ensures var next := Op(docs, pc, now).pc;
            if pc.CreateUpsert? then next.CreateConfirm? || next.CreateDuplicate?
            else (pc.ClaimRead? && next.ClaimWrite?) || (pc.CompleteRead? && next.CompleteWrite?)
  {
  }

  lemma LookingReads(s: System, k: nat)
    requires Inv(s) && k < |s.senders| && s.senders[k].phase.Looking?
    ensures s.senders[k].phase.pc.GetRead?
  {
    JobsAreOk(s, k);
  }

  lemma GetReturns(docs: Store, pc: Pc, now: int)
    requires pc.GetRead?
    ensures Op(docs, pc, now).pc.Returned?
  {
  }

  lemma OneStep(s: System, k: nat, inputs: nat -> Input, a: nat)
    ensures Reaches(s, MoveSender(s, k, inputs(a)), k, inputs, a, a + 1)
  {
    hide MoveSender;
    assert Solo(MoveSender(s, k, inputs(a)), k, inputs, a + 1, 0) == MoveSender(s, k, inputs(a));
  }

  lemma NoStep(s: System, k: nat, inputs: nat -> Input, a: nat)
    ensures Reaches(s, s, k, inputs, a, a)
  {
  }

  /** The phase after a policy, the lookup of the provider or its answer. */
  function OutsidePhase(job: Job, phase: Phase, input: Input): Phase {
    match phase
    case Policy(intent, request) => AfterPolicy(job, intent, request, input.policy)
    case Session(intent, request) => AfterSession(intent, request, input.session)
    case Sending(intent, request) =>
      if input.registered then Awaiting(intent, request) else StartCompleting(intent, UnregisteredResult(intent), false)
    case Awaiting(intent, request) => StartCompleting(intent, GatewayResult(intent, request, input.provider), true)
    case _ => phase
  }

  /** A step outside the repository changes the phase, and logs a provider call. */
  lemma OutsideStep(s: System, k: nat, inputs: nat -> Input, a: nat) returns (u: System)
    requires Inv(s) && k < |s.senders| && PcOf(s.senders[k].phase) == None && !Over(s.senders[k].phase)
    ensures JobOk(s.senders[k].job) && Reaches(s, u, k, inputs, a, a + 1)
    ensures var (job, phase) := (s.senders[k].job, s.senders[k].phase);
            Moved(s, u, k, s.docs,
                  if phase.Sending? && inputs(a).registered then
                    s.calls + [ProviderCall(k, phase.intent.Key(), phase.intent.providerKey, phase.request)]
                  else s.calls,
                  OutsidePhase(job, phase, inputs(a)))
  {
    hide Inv, SenderInv, JobOk, AfterPolicy, AfterSession, StartCompleting, UnregisteredResult, GatewayResult, Solo;
    JobsAreOk(s, k);
    u := MoveSender(s, k, inputs(a));
    MoveKeeps(s, k, inputs(a));
    OneStep(s, k, inputs, a);
  }

  /** A call in progress keeps its phase. */
  lemma SamePhase(job: Job, phase: Phase, pc: Pc, input: Input, next: Input)
    requires JobOk(job) && PcOf(phase).Some? && !pc.Returned?
    ensures PcOf(AfterStep(job, phase, pc, input)) == Some(pc)
    ensures forall end: Pc :: end.Returned? ==>
              AfterStep(job, AfterStep(job, phase, pc, input), end, next) == AfterStep(job, phase, end, next)
  {
  }

  // ---- Calls at the repository, from wherever they stand ----

  lemma ClaimEnds(docs: Store, pc: Pc, i: nat, now: int)
    requires StoreInv(docs) && i < |docs| && PcInv(docs, pc) && now >= 0
    requires pc == ClaimRead(docs[i].intent.intentId) || pc == ClaimWrite(docs[i].intent.intentId, 0)
    ensures Linearization.Alone(docs, pc, now) ==
            if docs[i].intent.state.Pending? then
              Step(docs[i := ClaimedDoc(docs[i], 0, now)], Returned(Found(Some(A.Claimed(docs[i].intent)))))
            else Nothing(docs)
  {
    hide NonBlank, WellFormed, Linearization.Alone;
    var id := docs[i].intent.intentId;
    FindUnique(docs, ById(id), i);
    if pc.ClaimWrite? {
      Linearization.AloneStep(docs, pc, now);
      ClaimKeepsStore(docs, id, 0, now);
    } else if docs[i].intent.state.Pending? {
      M.ClaimsAlone(docs, i, now);
    } else {
      StoredDecodes(docs, i);
      Linearization.AloneStep(docs, pc, now);
    }
  }

  lemma StoredDecodes(docs: Store, i: nat)
    requires StoreInv(docs) && i < |docs|
    ensures WellFormed(docs[i]) && Decode(docs[i]) == Ok(docs[i].intent) && docs[i].intent.Valid()
  {
    WellFormedDecodes(docs[i]);
  }

  lemma CompletionEnds(docs: Store, pc: Pc, i: nat, expected: IntentState, result: DispatchResult, now: int)
    requires StoreInv(docs) && i < |docs| && PcInv(docs, pc) && now >= 0 && !expected.IsTerminal()
    requires CompletionPc(pc, docs[i].intent.intentId, expected, result) && result.Valid()
             && docs[i].intent.Matches(result)
    ensures Linearization.Alone(docs, pc, now) ==
            if docs[i].intent.state == expected then
              Step(docs[i := CompletedDoc(docs[i], ActiveAttempt(expected), result, now)],
                   Returned(Found(Some(Expected(docs[i].intent, result)))))
            else Nothing(docs)
  {
    hide NonBlank, WellFormed, CompletedDoc, Linearization.Alone;
    var id := docs[i].intent.intentId;
    FindUnique(docs, ById(id), i);
    if pc.CompleteWrite? {
      Linearization.AloneStep(docs, pc, now);
      CompletionKeepsStore(docs, id, expected, result, pc.active, now);
    } else if docs[i].intent.state != expected {
      var found := Find(docs, ByIdInState(id, expected));
      if found.Some? {
        FindUnique(docs, ById(id), found.value);
      }
      Linearization.AloneStep(docs, pc, now);
    } else if expected.Dispatching? {
      M.CompletesAlone(docs, i, result, now);
    } else {
      M.RejectsAlone(docs, i, result, now);
    }
  }

  lemma CreatedReads(docs: Store, pc: Pc, i: nat, now: int)
    requires StoreInv(docs) && i < |docs| && (pc.CreateConfirm? || pc.CreateDuplicate?)
    requires Find(docs, ByScope(pc.intent.Key())) == Some(i)
    ensures Linearization.Alone(docs, pc, now) ==
            Step(docs, Returned(Created(docs[i].intent, pc.CreateConfirm? && pc.created)))
  {
    hide NonBlank, WellFormed, Linearization.Alone;
    StoredDecodes(docs, i);
    Linearization.AloneStep(docs, pc, now);
  }

  /** A creation whose scope is taken meanwhile. */
  lemma UpsertMatches(docs: Store, intent: MessageIntent, i: nat, now: int)
    requires StoreInv(docs) && i < |docs| && Find(docs, ByScope(intent.Key())) == Some(i)
    requires now >= 0 && intent.state.Pending? && intent.result == None
    ensures Linearization.Alone(docs, CreateUpsert(intent), now) == Step(docs, Returned(Created(docs[i].intent, false)))
  {
    hide NonBlank, WellFormed, Linearization.Alone;
    Linearization.AloneStep(docs, CreateUpsert(intent), now);
    CreatedReads(docs, CreateConfirm(intent, false), i, now);
  }

  // ---- What is left of a send ----

  /** What the send finds: the policies as they answered, and the provider with the answer it gave. */
  function WorldOf(job: Job, inputs: nat -> Input, at: Steps): A.World {
    A.World(Eligible(job.purpose, inputs(at.policy).policy, inputs(at.session).session), ProviderAt(inputs, at.sending))
  }

  function ProviderAt(inputs: nat -> Input, a: nat): Option<MessageRequest -> ProviderAnswer> {
    if inputs(a).registered then Some(_ => inputs(a + 1).provider) else None
  }

  function TimesOf(inputs: nat -> Input, at: Steps): A.Times
    requires AllReliable(inputs)
  {
    assert Reliable(inputs(at.created)) && Reliable(inputs(at.claimed)) && Reliable(inputs(at.completed));
    A.Times(inputs(at.created).now, inputs(at.claimed).now, inputs(at.completed).now)
  }

  function CallsOf(k: nat, job: Job, sent: seq<MessageRequest>): seq<ProviderCall> {
    if sent == [] then [] else [ProviderCall(k, job.Scope(), job.subject.providerKey, sent[0])]
  }

  /** The sender has finished as the atomic send says. */
  predicate FinishedAs(s: System, t: System, k: nat, e: A.Effect) {
    k < |s.senders| && Moved(s, t, k, e.docs, s.calls + CallsOf(k, s.senders[k].job, e.sent), Finished(e.outcome))
  }

  /** From the answer of the policies on; the run may hold its request, stored or not. */
  function Decide(docs: Store, job: Job, eligible: Result<bool, ServiceError>, world: A.World, times: A.Times): A.Effect
    requires JobOk(job)
  {
    if eligible.Err? then A.NoEffect(docs, eligible.error)
    else
      match Where(docs, job)
      case None => A.NoEffect(docs, BadIntentState)
      case Some(i) => A.Continue(docs, i, job, true, world.(eligible := eligible), times)
  }

  /** The completion by the winner of the claim: too late if recovery came first. */
  function Close(
    docs: Store, job: Job, result: DispatchResult, invoked: bool, sent: seq<MessageRequest>, times: A.Times): A.Effect
  {
    match Where(docs, job)
    case Some(i) =>
      if docs[i].intent.state.Dispatching? then
        A.Effect(docs[i := CompletedDoc(docs[i], Some(0), result, times.completed)], Result(result), sent)
      else A.Effect(docs, Failed(if invoked then PostDispatchPersistence else Dependency), sent)
    case None => A.NoEffect(docs, Dependency)
  }

  /** What is left of a send in any phase; `first` is what its next step gets. */
  function Rest(docs: Store, job: Job, phase: Phase, first: Input, world: A.World, times: A.Times): A.Effect
    requires JobOk(job) && !phase.Crashed?
  {
    match phase
    case Looking(_) => A.SendEffect(docs, job, first.intentId, first.correlationId, world, times)
    case Creating(_, CreateUpsert(intent)) =>
      A.SendEffect(docs, job, intent.intentId, intent.correlationId, world, times)
    case Creating(_, pc) =>
      (match Where(docs, job)
       case None => A.NoEffect(docs, Dependency)
       case Some(i) => A.Continue(docs, i, job, pc.CreateConfirm? && pc.created, world, times))
    case Policy(_, _) => Decide(docs, job, world.eligible, world, times)
    case Session(_, _) => Decide(docs, job, SessionAllows(first.session), world, times)
    case Denying(_, _) => Decide(docs, job, Ok(false), world, times)
    case Claiming(_, _, _) => Decide(docs, job, Ok(true), world, times)
    case Resolving(_, _) => Decide(docs, job, Ok(false), world, times)
    case Sending(intent, request) =>
      Close(docs, job, A.ResultOf(intent, request, world), world.provider.Some?,
            if world.provider.Some? then [request] else [], times)
    case Awaiting(intent, request) => Close(docs, job, GatewayResult(intent, request, first.provider), true, [], times)
    case Completing(_, result, invoked, _) => Close(docs, job, result, invoked, [], times)
    case Finished(outcome) => A.Effect(docs, outcome, [])
  }

  /**
   * Left alone, the sender has gone from one system to the other, and has done the rest of its send;
   * what its policies and its provider answered, and what the clock read, it met at its own steps.
   */
  ghost predicate Ends(s: System, t: System, k: nat, inputs: nat -> Input, a: nat, b: nat, at: Steps) {
    && AllReliable(inputs) && k < |s.senders| && JobOk(s.senders[k].job) && !s.senders[k].phase.Crashed?
    && Reaches(s, t, k, inputs, a, b) && Within(at, a, b) && Counts(s, k, inputs, a, b, at)
    && var job := s.senders[k].job;
       FinishedAs(s, t, k,
                  Rest(s.docs, job, s.senders[k].phase, inputs(a), WorldOf(job, inputs, at), TimesOf(inputs, at)))
  }

  // ---- The rest, phase by phase ----

  lemma RestOfCreation(docs: Store, job: Job, phase: Phase, first: Input, world: A.World, times: A.Times)
    requires JobOk(job) && phase.Creating?
    ensures Rest(docs, job, phase, first, world, times) ==
            if phase.pc.CreateUpsert? then
              A.SendEffect(docs, job, phase.pc.intent.intentId, phase.pc.intent.correlationId, world, times)
            else
              match Where(docs, job)
              case None => A.NoEffect(docs, Dependency)
              case Some(i) => A.Continue(docs, i, job, phase.pc.CreateConfirm? && phase.pc.created, world, times)
  {
    hide JobOk, A.SendEffect, A.Continue;
  }

  predicate Undecided(phase: Phase) {
    phase.Policy? || phase.Session? || phase.Denying? || phase.Claiming?
  }

  /** What the policies have said, or say when they are asked. */
  function Allowance(phase: Phase, first: Input, world: A.World): Result<bool, ServiceError>
    requires Undecided(phase)
  {
    match phase
    case Policy(_, _) => world.eligible
    case Session(_, _) => SessionAllows(first.session)
    case Denying(_, _) => Ok(false)
    case Claiming(_, _, _) => Ok(true)
  }

  lemma RestOfDecision(docs: Store, job: Job, phase: Phase, first: Input, world: A.World, times: A.Times)
    requires JobOk(job) && Undecided(phase)
    ensures Rest(docs, job, phase, first, world, times) ==
            Decide(docs, job, Allowance(phase, first, world), world, times)
  {
    hide JobOk, Decide;
  }

  /** A decision depends on what the policies said, not on when. */
  lemma SameDecision(
    docs: Store, job: Job, eligible: Result<bool, ServiceError>, world: A.World, other: A.World, times: A.Times)
    requires JobOk(job) && world.provider == other.provider
    ensures Decide(docs, job, eligible, world, times) == Decide(docs, job, eligible, other, times)
    ensures eligible.Err? ==> Decide(docs, job, eligible, world, times) == A.NoEffect(docs, eligible.error)
  {
    hide JobOk, A.Continue;
  }

  lemma RestOfSending(
    docs: Store, job: Job, intent: MessageIntent, request: MessageRequest, first: Input, inputs: nat -> Input,
    at: Steps, times: A.Times)
    requires JobOk(job)
    ensures Rest(docs, job, Sending(intent, request), first, WorldOf(job, inputs, at), times) ==
            if inputs(at.sending).registered then
              Close(docs, job, GatewayResult(intent, request, inputs(at.sending + 1).provider), true, [request], times)
            else Close(docs, job, UnregisteredResult(intent), false, [], times)
  {
    hide JobOk, Close, GatewayResult, UnregisteredResult, Eligible;
  }

  lemma RestOfDispatch(docs: Store, job: Job, phase: Phase, first: Input, world: A.World, times: A.Times)
    requires JobOk(job) && (phase.Awaiting? || phase.Completing?)
    ensures Rest(docs, job, phase, first, world, times) ==
            if phase.Completing? then Close(docs, job, phase.result, phase.invoked, [], times)
            else Close(docs, job, GatewayResult(phase.intent, phase.request, first.provider), true, [], times)
  {
    hide JobOk, Close, GatewayResult;
  }

  // ---- Which steps count in each stage ----

  /** What the first step, or the first call, of a stage adds to what counts after it. */
  lemma AwaitingCounts(s: System, u: System, k: nat, inputs: nat -> Input, a: nat, b: nat, at: Steps)
    requires k < |s.senders| && s.senders[k].phase.Awaiting? && Reaches(s, u, k, inputs, a, a + 1)
    requires Counted(u, k, inputs, a + 1, b, at, OnCompletion)
    ensures Counted(s, k, inputs, a, b, at, OnCompletion) && Counts(s, k, inputs, a, b, at)
  {
    hide Counted, Counts, Reaches;
    CountedStep(s, u, k, inputs, a, b, at, OnCompletion, at, OnCompletion);
  }

  lemma SendingCounts(s: System, u: System, k: nat, inputs: nat -> Input, a: nat, b: nat, at: Steps)
    requires k < |s.senders| && s.senders[k].phase.Sending? && Reaches(s, u, k, inputs, a, a + 1)
    requires Counted(u, k, inputs, a + 1, b, at, OnCompletion)
    ensures Counted(s, k, inputs, a, b, at.(sending := a), OnProvider) && Counts(s, k, inputs, a, b, at.(sending := a))
  {
    hide Counted, Counts, Reaches;
    CountedStep(s, u, k, inputs, a, b, at, OnCompletion, at.(sending := a), OnProvider);
  }

  lemma SessionCounts(s: System, u: System, k: nat, inputs: nat -> Input, a: nat, b: nat, at: Steps, later: Stage)
    requires k < |s.senders| && s.senders[k].phase.Session? && Reaches(s, u, k, inputs, a, a + 1)
    requires b == a + 1 || (Counted(u, k, inputs, a + 1, b, at, later) && (later == OnClaim || later == OnCompletion))
    ensures Counted(s, k, inputs, a, b, at.(session := a), OnSession) && Counts(s, k, inputs, a, b, at.(session := a))
  {
    hide Counted, Counts, Reaches;
    if b == a + 1 {
      CountedOnce(s, k, inputs, a, at.(session := a), OnSession);
    } else {
      CountedStep(s, u, k, inputs, a, b, at, later, at.(session := a), OnSession);
    }
  }

  lemma PolicyCounts(s: System, u: System, k: nat, inputs: nat -> Input, a: nat, b: nat, at: Steps, later: Stage)
    requires k < |s.senders| && s.senders[k].phase.Policy? && Reaches(s, u, k, inputs, a, a + 1)
    requires b == a + 1 || (Counted(u, k, inputs, a + 1, b, at, later)
                            && (later == OnClaim || later == OnCompletion
                                || (later == OnSession && at.session == a + 1)))
    ensures Counted(s, k, inputs, a, b, at.(policy := a, session := a + 1), OnPolicy)
    ensures Counts(s, k, inputs, a, b, at.(policy := a, session := a + 1))
  {
    hide Counted, Counts, Reaches;
    if b == a + 1 {
      CountedOnce(s, k, inputs, a, at.(policy := a, session := a + 1), OnPolicy);
    } else {
      CountedStep(s, u, k, inputs, a, b, at, later, at.(policy := a, session := a + 1), OnPolicy);
    }
  }

  lemma CallCounts(
    s: System, u: System, k: nat, inputs: nat -> Input, a: nat, c: nat, b: nat, w: nat,
    after: Steps, later: Stage, at: Steps, stage: Stage)
    requires k < |s.senders| && Reaches(s, u, k, inputs, a, c) && (b == c || Counted(u, k, inputs, c, b, after, later))
    requires forall other :: Wrote(s.senders[k].phase, other, w) ==> Counts(s, k, inputs, a, c, other)
    requires match s.senders[k].phase
             case Creating(_, _) => later == OnPolicy && stage == OnCreation && at == after.(created := w)
             case Claiming(_, _, _) =>
               (later == OnProvider || later == OnRace) && stage == OnClaim && at == after.(claimed := w)
             case Denying(_, _) => later == OnRace && stage == OnCompletion && at == after.(completed := w)
             case Completing(_, _, _, _) => b == c && stage == OnCompletion && at.completed == w
             case Resolving(_, _) => b == c && stage == OnRace
             case Looking(_) => (later == OnPolicy || later == OnCreation) && stage == OnCreation && at == after
             case _ => false
    ensures Counted(s, k, inputs, a, b, at, stage) && Counts(s, k, inputs, a, b, at)
  {
    hide Counts, Reaches;
    if b == c {
      AgreeReflexive(at, stage);
    } else {
      CountedJoin(s, u, k, inputs, a, c, b, after, later, at, stage);
    }
  }

  // ---- The stages of a send ----

  lemma StoredIsValid(s: System, i: nat)
    requires Inv(s) && i < |s.docs|
    ensures StoreInv(s.docs) && s.docs[i].intent.Valid()
  {
  }

  lemma NothingSent(s: System, k: nat, job: Job)
    ensures s.calls + CallsOf(k, job, []) == s.calls
  {
  }

  /** First to a system where the sender has another phase and nothing was sent, then to the end. */
  lemma Chains(
    s: System, u: System, t: System, k: nat, inputs: nat -> Input, a: nat, c: nat, b: nat, docs: Store, phase: Phase,
    at: Steps)
    requires Moved(s, u, k, docs, s.calls, phase) && Reaches(s, u, k, inputs, a, c) && Ends(u, t, k, inputs, c, b, at)
    ensures Reaches(s, t, k, inputs, a, b)
    ensures var job := s.senders[k].job;
            FinishedAs(s, t, k, Rest(docs, job, phase, inputs(c), WorldOf(job, inputs, at), TimesOf(inputs, at)))
  {
    hide Inv, JobOk, Rest, WorldOf, TimesOf, Solo;
    ReachesTransitive(s, u, t, k, inputs, a, c, b);
  }

  /** The same where nothing was changed before, for an end that is known. */
  lemma Continued(s: System, u: System, t: System, k: nat, phase: Phase, e: A.Effect)
    requires Moved(s, u, k, s.docs, s.calls, phase) && FinishedAs(u, t, k, e)
    ensures FinishedAs(s, t, k, e)
  {
    hide Inv;
  }

  /** What the invariant says about a sender in a phase that has an intent. */
  lemma PhaseFacts(s: System, k: nat)
    requires Inv(s) && k < |s.senders| && !Over(s.senders[k].phase) && !s.senders[k].phase.Looking?
             && !s.senders[k].phase.Creating?
    ensures JobOk(s.senders[k].job) && StoreInv(s.docs) && |s.tags| == |s.docs|
    ensures OnDoc(s.docs, s.senders[k].job, s.senders[k].phase.intent) && PhaseInv(s.docs, s.tags, k, s.senders[k])
    ensures var i := Where(s.docs, s.senders[k].job).value;
            && s.docs[i].intent.Valid() && SameRequest(s.senders[k].job, s.docs[i].intent)
            && s.docs[i].intent.providerKey == s.senders[k].job.subject.providerKey
            && s.docs[i].intent.Key() == s.senders[k].job.Scope()
  {
    hide CallInv, NonBlank, FingerprintOf, Serialization.Serialize, Serialization.Deserialize;
    JobsAreOk(s, k);
    var i := Where(s.docs, s.senders[k].job).value;
    StoredIsValid(s, i);
    AllOriginated(s);
    A.StoredRequest(s.docs, i, s.senders[k].job);
  }

  /** The answer to a claim or a rejection that came too late. */
  lemma Resolves(s: System, k: nat, inputs: nat -> Input, a: nat) returns (t: System, b: nat, at: Steps)
    requires Inv(s) && k < |s.senders| && s.senders[k].phase.Resolving? && AllReliable(inputs)
    ensures Ends(s, t, k, inputs, a, b, at) && Counted(s, k, inputs, a, b, at, OnRace)
    ensures forall eligible: Result<bool, ServiceError>, world, times :: eligible.Ok? ==>
              FinishedAs(s, t, k, Decide(s.docs, s.senders[k].job, eligible, world, times))
  {
    hide Counts, Counted, Inv, JobOk, NonBlank, FingerprintOf, StoreInv, WorldOf;
    PhaseFacts(s, k);
    var job := s.senders[k].job;
    var w;
    t, b, w := CallEnds(s, k, inputs, a);
    at := Steps(a, a, a, a, a, a);
    A.GetsAlone(s.docs, job, inputs(w).now);
    NothingSent(s, k, job);
    CallCounts(s, t, k, inputs, a, b, b, w, at, OnRace, at, OnRace);
  }

  /** The rejection by policy, to its answer; `w` is the step whose clock reading counts. */
  lemma DenialAnswered(s: System, k: nat, inputs: nat -> Input, a: nat) returns (u: System, c: nat, w: nat)
    requires Inv(s) && k < |s.senders| && s.senders[k].phase.Denying? && AllReliable(inputs)
    ensures Where(s.docs, s.senders[k].job).Some? && Reaches(s, u, k, inputs, a, c) && inputs(w).now >= 0 && a <= w < c
    ensures forall at :: Wrote(s.senders[k].phase, at, w) ==> Counts(s, k, inputs, a, c, at)
    ensures var i := Where(s.docs, s.senders[k].job).value;
            var result := DeniedResult(s.docs[i].intent);
            if s.docs[i].intent.state.Pending? then
              Moved(s, u, k, s.docs[i := CompletedDoc(s.docs[i], None, result, inputs(w).now)], s.calls,
                    Finished(Result(result)))
            else Moved(s, u, k, s.docs, s.calls, StartResolving(s.senders[k].phase.intent))
  {
    hide Counts, Inv, JobOk, NonBlank, FingerprintOf, StoreInv, CompletedDoc, DeniedResult, Solo, Linearization.Alone;
    PhaseFacts(s, k);
    var (intent, i) := (s.senders[k].phase.intent, Where(s.docs, s.senders[k].job).value);
    LocalResultsAreValid(intent);
    SameDenial(intent, s.docs[i].intent);
    u, c, w := CallEnds(s, k, inputs, a);
    assert Reliable(inputs(w));
    CompletionEnds(s.docs, s.senders[k].phase.pc, i, Pending, DeniedResult(intent), inputs(w).now);
  }

  lemma Denies(s: System, k: nat, inputs: nat -> Input, a: nat) returns (t: System, b: nat, at: Steps)
    requires Inv(s) && k < |s.senders| && s.senders[k].phase.Denying? && AllReliable(inputs)
    ensures Ends(s, t, k, inputs, a, b, at) && Counted(s, k, inputs, a, b, at, OnCompletion)
  {
    hide Counts, Counted, Inv, JobOk, NonBlank, FingerprintOf, StoreInv, WorldOf, CompletedDoc, DeniedResult, Solo,
      PhaseInv, OnDoc, A.SendEffect, Close;
    PhaseFacts(s, k);
    var u, c, w := DenialAnswered(s, k, inputs, a);
    var (job, intent, i) := (s.senders[k].job, s.senders[k].phase.intent, Where(s.docs, s.senders[k].job).value);
    NothingSent(s, k, job);
    if s.docs[i].intent.state.Pending? {
      t, b, at := u, c, Steps(a, a, a, a, a, w);
      CallCounts(s, u, k, inputs, a, c, c, w, at, OnRace, at, OnCompletion);
    } else {
      t, b, at := Resolves(u, k, inputs, c);
      ReachesTransitive(s, u, t, k, inputs, a, c, b);
      CallCounts(s, u, k, inputs, a, c, b, w, at, OnRace, at.(completed := w), OnCompletion);
      at := at.(completed := w);
      Continued(s, u, t, k, StartResolving(intent),
                Decide(s.docs, job, Ok(false), WorldOf(job, inputs, at), TimesOf(inputs, at)));
    }
  }

  lemma SameDenial(earlier: MessageIntent, later: MessageIntent)
    requires IntentEvolves(earlier, later)
    ensures DeniedResult(earlier) == DeniedResult(later)
            && (forall r: DispatchResult :: earlier.Matches(r) == later.Matches(r))
  {
  }

  lemma Completes(s: System, k: nat, inputs: nat -> Input, a: nat) returns (t: System, b: nat, at: Steps)
    requires Inv(s) && k < |s.senders| && s.senders[k].phase.Completing? && AllReliable(inputs)
    ensures Ends(s, t, k, inputs, a, b, at) && Counted(s, k, inputs, a, b, at, OnCompletion)
  {
    hide Counts, Counted, Inv, JobOk, NonBlank, FingerprintOf, StoreInv, WorldOf, CompletedDoc, Solo, Rest,
      Linearization.Alone;
    L.OvertakenByRecovery(s, k);
    StoredIsValid(s, Where(s.docs, s.senders[k].job).value);
    var (job, phase, i) := (s.senders[k].job, s.senders[k].phase, Where(s.docs, s.senders[k].job).value);
    var w;
    t, b, w := CallEnds(s, k, inputs, a);
    assert Reliable(inputs(w));
    at := Steps(a, a, a, a, a, w);
    CompletionEnds(s.docs, phase.pc, i, Dispatching, phase.result, inputs(w).now);
    NothingSent(s, k, job);
    RestOfDispatch(s.docs, job, phase, inputs(a), WorldOf(job, inputs, at), TimesOf(inputs, at));
    CallCounts(s, t, k, inputs, a, b, b, w, at, OnRace, at, OnCompletion);
  }

  lemma AllOriginated(s: System)
    requires Inv(s)
    ensures A.Originated(s.docs)
  {
    hide SenderInv, OriginInv, CloserInv, CreatorInv, WellFormed;
    forall i | 0 <= i < |s.docs| ensures A.OriginatedAt(s.docs, i) {
      assert DocInv(s.docs, s.tags, s.senders, i);
      assert OriginInv(s.docs[i], s.tags[i].job);
    }
  }

  lemma StartsCompleting(intent: MessageIntent, result: DispatchResult, invoked: bool)
    requires Expected(intent, result).Valid()
    ensures StartCompleting(intent, result, invoked) ==
            Completing(intent, result, invoked, Start(Complete(intent.intentId, Dispatching, result)))
  {
  }

  lemma Awaits(s: System, k: nat, inputs: nat -> Input, a: nat) returns (t: System, b: nat, at: Steps)
    requires Inv(s) && k < |s.senders| && s.senders[k].phase.Awaiting? && AllReliable(inputs)
    ensures Ends(s, t, k, inputs, a, b, at) && Counted(s, k, inputs, a, b, at, OnCompletion)
  {
    hide Counts, Counted, Inv, JobOk, NonBlank, FingerprintOf, StoreInv, Solo, GatewayResult, UnknownResult,
      MoveSender, StartCompleting, Expected, Rest, WorldOf, TimesOf, Close;
    HolderFacts(s, k);
    var (job, phase) := (s.senders[k].job, s.senders[k].phase);
    var result := GatewayResult(phase.intent, phase.request, inputs(a).provider);
    ExpectedIsValid(phase.intent, phase.request, inputs(a).provider);
    StartsCompleting(phase.intent, result, true);
    var u := OutsideStep(s, k, inputs, a);
    t, b, at := Completes(u, k, inputs, a + 1);
    Chains(s, u, t, k, inputs, a, a + 1, b, s.docs, StartCompleting(phase.intent, result, true), at);
    RestOfDispatch(s.docs, job, phase, inputs(a), WorldOf(job, inputs, at), TimesOf(inputs, at));
    RestOfDispatch(s.docs, job, u.senders[k].phase, inputs(a + 1), WorldOf(job, inputs, at), TimesOf(inputs, at));
    AwaitingCounts(s, u, k, inputs, a, b, at);
  }

  lemma HolderFacts(s: System, k: nat)
    requires Inv(s) && k < |s.senders| && (s.senders[k].phase.Sending? || s.senders[k].phase.Awaiting?)
    ensures JobOk(s.senders[k].job) && Where(s.docs, s.senders[k].job).Some?
    ensures s.senders[k].phase.intent.Valid()
            && s.senders[k].phase.request.correlationId == s.senders[k].phase.intent.correlationId
    ensures s.senders[k].phase.intent.Key() == s.senders[k].job.Scope()
    ensures s.senders[k].phase.intent.providerKey == s.senders[k].job.subject.providerKey
  {
    hide Inv, CallInv, NonBlank, FingerprintOf, DocInv, StoreInv, WellFormed;
    JobsAreOk(s, k);
    PhaseFacts(s, k);
  }

  lemma Sends(s: System, k: nat, inputs: nat -> Input, a: nat) returns (t: System, b: nat, at: Steps)
    requires Inv(s) && k < |s.senders| && s.senders[k].phase.Sending? && AllReliable(inputs)
    ensures Ends(s, t, k, inputs, a, b, at) && Counted(s, k, inputs, a, b, at, OnProvider) && at.sending == a
  {
    hide Counts, Counted, Inv, JobOk, NonBlank, FingerprintOf, StoreInv, Solo, GatewayResult, UnknownResult,
      UnregisteredResult, MoveSender, StartCompleting, Expected, Rest, WorldOf, TimesOf, Close, FinishedAs, Moved;
    var (job, phase) := (s.senders[k].job, s.senders[k].phase);
    var u;
    if inputs(a).registered {
      u, t, b, at := Calls(s, k, inputs, a);
    } else {
      u, t, b, at := FindsNone(s, k, inputs, a);
    }
    HolderFacts(s, k);
    SendingCounts(s, u, k, inputs, a, b, at);
    ResentTimes(inputs, at, a);
    at := at.(sending := a);
    RestOfSending(s.docs, job, phase.intent, phase.request, inputs(a), inputs, at, TimesOf(inputs, at));
  }

  lemma ResentTimes(inputs: nat -> Input, at: Steps, a: nat)
    requires AllReliable(inputs)
    ensures TimesOf(inputs, at.(sending := a)) == TimesOf(inputs, at)
  {
  }

  /** The provider is called, and answers. */
  lemma Calls(s: System, k: nat, inputs: nat -> Input, a: nat) returns (u: System, t: System, b: nat, at: Steps)
    requires Inv(s) && k < |s.senders| && s.senders[k].phase.Sending? && AllReliable(inputs) && inputs(a).registered
    ensures Reaches(s, u, k, inputs, a, a + 1) && Reaches(s, t, k, inputs, a, b) && Within(at, a, b) && b > a
    ensures Counted(u, k, inputs, a + 1, b, at, OnCompletion)
    ensures var (job, phase) := (s.senders[k].job, s.senders[k].phase);
            var result := GatewayResult(phase.intent, phase.request, inputs(a + 1).provider);
            FinishedAs(s, t, k, Close(s.docs, job, result, true, [phase.request], TimesOf(inputs, at)))
  {
    hide Counts, Counted, Inv, JobOk, NonBlank, FingerprintOf, StoreInv, CompletedDoc, Solo, GatewayResult,
      UnknownResult, MoveSender, StartCompleting, Expected, Rest, WorldOf, TimesOf;
    HolderFacts(s, k);
    var (job, phase) := (s.senders[k].job, s.senders[k].phase);
    u := OutsideStep(s, k, inputs, a);
    t, b, at := Awaits(u, k, inputs, a + 1);
    NothingSent(u, k, job);
    RestOfDispatch(s.docs, job, u.senders[k].phase, inputs(a + 1), WorldOf(job, inputs, at), TimesOf(inputs, at));
    ReachesTransitive(s, u, t, k, inputs, a, a + 1, b);
  }

  /** No provider is registered. */
  lemma FindsNone(s: System, k: nat, inputs: nat -> Input, a: nat) returns (u: System, t: System, b: nat, at: Steps)
    requires Inv(s) && k < |s.senders| && s.senders[k].phase.Sending? && AllReliable(inputs) && !inputs(a).registered
    ensures Reaches(s, u, k, inputs, a, a + 1) && Reaches(s, t, k, inputs, a, b) && Within(at, a, b) && b > a
    ensures Counted(u, k, inputs, a + 1, b, at, OnCompletion)
    ensures var (job, phase) := (s.senders[k].job, s.senders[k].phase);
            FinishedAs(s, t, k, Close(s.docs, job, UnregisteredResult(phase.intent), false, [], TimesOf(inputs, at)))
  {
    hide Counts, Counted, Inv, JobOk, NonBlank, FingerprintOf, StoreInv, Solo, UnregisteredResult, MoveSender,
      StartCompleting, Expected, Rest, WorldOf, TimesOf, Close;
    HolderFacts(s, k);
    var (job, phase) := (s.senders[k].job, s.senders[k].phase);
    var result := UnregisteredResult(phase.intent);
    ExpectedIsValid(phase.intent, phase.request, Raises);
    StartsCompleting(phase.intent, result, false);
    u := OutsideStep(s, k, inputs, a);
    t, b, at := Completes(u, k, inputs, a + 1);
    Chains(s, u, t, k, inputs, a, a + 1, b, s.docs, StartCompleting(phase.intent, result, false), at);
    RestOfDispatch(s.docs, job, u.senders[k].phase, inputs(a + 1), WorldOf(job, inputs, at), TimesOf(inputs, at));
  }

  lemma ClaimingFacts(s: System, k: nat)
    requires Inv(s) && k < |s.senders| && s.senders[k].phase.Claiming?
    ensures var (job, phase) := (s.senders[k].job, s.senders[k].phase);
            && Where(s.docs, job).Some? && JobOk(job) && PcInv(s.docs, phase.pc)
            && var stored := s.docs[Where(s.docs, job).value].intent;
               && (phase.pc == ClaimRead(stored.intentId) || phase.pc == ClaimWrite(stored.intentId, 0))
               && (stored.state.Pending? ==>
                     stored == phase.intent && phase.request == RequestFor(job, stored.correlationId))
  {
    hide CallInv, NonBlank, FingerprintOf, DocInv, StoreInv;
    JobsAreOk(s, k);
  }

  /** The claim, to its answer; `w` is the step whose clock reading counts. */
  lemma ClaimAnswered(s: System, k: nat, inputs: nat -> Input, a: nat) returns (u: System, c: nat, w: nat)
    requires Inv(s) && k < |s.senders| && s.senders[k].phase.Claiming? && AllReliable(inputs)
    ensures Where(s.docs, s.senders[k].job).Some? && Reaches(s, u, k, inputs, a, c) && inputs(w).now >= 0 && a <= w < c
    ensures forall at :: Wrote(s.senders[k].phase, at, w) ==> Counts(s, k, inputs, a, c, at)
    ensures var (phase, i) := (s.senders[k].phase, Where(s.docs, s.senders[k].job).value);
            if s.docs[i].intent.state.Pending? then
              Moved(s, u, k, s.docs[i := ClaimedDoc(s.docs[i], 0, inputs(w).now)], s.calls,
                    Sending(A.Claimed(phase.intent), phase.request))
            else Moved(s, u, k, s.docs, s.calls, StartResolving(phase.intent))
  {
    hide Counts, Inv, OnDoc, JobOk, NonBlank, StoreInv, Solo, SameRequest, PhaseInv, PcInv, ClaimedDoc,
      Linearization.Alone;
    PhaseFacts(s, k);
    ClaimingFacts(s, k);
    u, c, w := CallEnds(s, k, inputs, a);
    assert Reliable(inputs(w));
    ClaimEnds(s.docs, s.senders[k].phase.pc, Where(s.docs, s.senders[k].job).value, inputs(w).now);
  }

  lemma Claims(s: System, k: nat, inputs: nat -> Input, a: nat) returns (t: System, b: nat, at: Steps)
    requires Inv(s) && k < |s.senders| && s.senders[k].phase.Claiming? && AllReliable(inputs)
    ensures Ends(s, t, k, inputs, a, b, at) && Counted(s, k, inputs, a, b, at, OnClaim)
  {
    hide Counts, Counted, Inv, Ends, PhaseInv, PcInv, JobOk;
    ClaimingFacts(s, k);
    if s.docs[Where(s.docs, s.senders[k].job).value].intent.state.Pending? {
      t, b, at := ClaimWins(s, k, inputs, a);
    } else {
      t, b, at := ClaimLoses(s, k, inputs, a);
    }
  }

  lemma ClaimWins(s: System, k: nat, inputs: nat -> Input, a: nat) returns (t: System, b: nat, at: Steps)
    requires Inv(s) && k < |s.senders| && s.senders[k].phase.Claiming? && AllReliable(inputs)
    requires Where(s.docs, s.senders[k].job).Some?
             && s.docs[Where(s.docs, s.senders[k].job).value].intent.state.Pending?
    ensures Ends(s, t, k, inputs, a, b, at) && Counted(s, k, inputs, a, b, at, OnClaim)
  {
    hide Counts, Counted, Inv, JobOk, NonBlank, FingerprintOf, StoreInv, Solo, CompletedDoc, ClaimedDoc, SameRequest,
      OnDoc, PhaseInv, PcInv, Rest, WorldOf, TimesOf, Decide, Close;
    PhaseFacts(s, k);
    ClaimingFacts(s, k);
    var (job, phase, i) := (s.senders[k].job, s.senders[k].phase, Where(s.docs, s.senders[k].job).value);
    var u, c, w := ClaimAnswered(s, k, inputs, a);
    t, b, at := Sends(u, k, inputs, c);
    Chains(s, u, t, k, inputs, a, c, b, s.docs[i := ClaimedDoc(s.docs[i], 0, inputs(w).now)],
           Sending(A.Claimed(phase.intent), phase.request), at);
    ClaimedIsFound(s, u, k, i, inputs(w).now);
    Recounted(job, inputs, at, 0, 0, w);
    ClosesTheClaim(s.docs, i, job, phase, inputs(a), inputs(c), WorldOf(job, inputs, at),
                   TimesOf(inputs, at.(claimed := w)), TimesOf(inputs, at));
    CallCounts(s, u, k, inputs, a, c, b, w, at, OnProvider, at.(claimed := w), OnClaim);
    at := at.(claimed := w);
  }

  lemma ClaimLoses(s: System, k: nat, inputs: nat -> Input, a: nat) returns (t: System, b: nat, at: Steps)
    requires Inv(s) && k < |s.senders| && s.senders[k].phase.Claiming? && AllReliable(inputs)
    requires Where(s.docs, s.senders[k].job).Some?
             && !s.docs[Where(s.docs, s.senders[k].job).value].intent.state.Pending?
    ensures Ends(s, t, k, inputs, a, b, at) && Counted(s, k, inputs, a, b, at, OnClaim)
  {
    hide Counts, Counted, Inv, JobOk, NonBlank, FingerprintOf, StoreInv, Solo, CompletedDoc, ClaimedDoc, SameRequest,
      OnDoc, PhaseInv, PcInv, Rest, WorldOf, TimesOf, Decide, Close;
    PhaseFacts(s, k);
    var (job, phase) := (s.senders[k].job, s.senders[k].phase);
    var u, c, w := ClaimAnswered(s, k, inputs, a);
    t, b, at := Resolves(u, k, inputs, c);
    ReachesTransitive(s, u, t, k, inputs, a, c, b);
    CallCounts(s, u, k, inputs, a, c, b, w, at, OnRace, at.(claimed := w), OnClaim);
    at := at.(claimed := w);
    Continued(s, u, t, k, StartResolving(phase.intent),
              Decide(s.docs, job, Ok(true), WorldOf(job, inputs, at), TimesOf(inputs, at)));
    RestOfDecision(s.docs, job, phase, inputs(a), WorldOf(job, inputs, at), TimesOf(inputs, at));
  }

  lemma ClaimedIsFound(s: System, u: System, k: nat, i: nat, now: int)
    requires Inv(u) && k < |s.senders| && i < |s.docs| && u.docs == s.docs[i := ClaimedDoc(s.docs[i], 0, now)]
    requires s.docs[i].intent.Key() == s.senders[k].job.Scope()
    ensures Where(u.docs, s.senders[k].job) == Some(i)
  {
    StoredIsValid(u, i);
    FindUnique(u.docs, ByScope(s.senders[k].job.Scope()), i);
  }

  /** A claim followed by the completion of the claimed document is the atomic dispatch. */
  lemma ClosesTheClaim(
    docs: Store, i: nat, job: Job, phase: Phase, first: Input, next: Input, world: A.World, times: A.Times,
    rest: A.Times)
    requires JobOk(job) && Where(docs, job) == Some(i) && i < |docs| && SameRequest(job, docs[i].intent)
    requires docs[i].intent.state.Pending? && phase.Claiming? && phase.intent == docs[i].intent
    requires phase.request == RequestFor(job, docs[i].intent.correlationId)
    requires Where(docs[i := ClaimedDoc(docs[i], 0, times.claimed)], job) == Some(i)
             && rest.completed == times.completed
    ensures Rest(docs, job, phase, first, world, times) ==
            Rest(docs[i := ClaimedDoc(docs[i], 0, times.claimed)], job,
                 Sending(A.Claimed(phase.intent), phase.request), next, world, rest)
  {
    hide JobOk, FingerprintOf, CompletedDoc, GatewayResult, UnregisteredResult;
    var claimed := docs[i := ClaimedDoc(docs[i], 0, times.claimed)];
    var closed := CompletedDoc(claimed[i], Some(0), A.ResultOf(A.Claimed(docs[i].intent), phase.request, world),
                               times.completed);
    assert claimed[i := closed] == docs[i := closed];
  }

  /** Which inputs count changes what the send finds, and when, accordingly. */
  lemma Recounted(job: Job, inputs: nat -> Input, at: Steps, policy: nat, session: nat, claimed: nat)
    requires AllReliable(inputs)
    ensures WorldOf(job, inputs, at.(claimed := claimed)) == WorldOf(job, inputs, at)
    ensures TimesOf(inputs, at.(claimed := claimed)).claimed == inputs(claimed).now
    ensures TimesOf(inputs, at.(claimed := claimed)).completed == TimesOf(inputs, at).completed
    ensures WorldOf(job, inputs, at.(policy := policy, session := session)) ==
            WorldOf(job, inputs, at).(eligible := Eligible(job.purpose, inputs(policy).policy, inputs(session).session))
    ensures TimesOf(inputs, at.(policy := policy, session := session)) == TimesOf(inputs, at)
  {
    hide Eligible;
    assert Reliable(inputs(claimed));
  }

  /** A policy answers, and the send goes on, or fails with it. */
  lemma Asks(s: System, k: nat, inputs: nat -> Input, a: nat)
    returns (u: System, t: System, b: nat, at: Steps, later: Stage)
    requires Inv(s) && k < |s.senders| && s.senders[k].phase.Session? && AllReliable(inputs)
    ensures Reaches(s, u, k, inputs, a, a + 1) && Reaches(s, t, k, inputs, a, b) && Within(at, a, b) && b > a
    ensures b == a + 1 || (Counted(u, k, inputs, a + 1, b, at, later) && (later == OnClaim || later == OnCompletion))
    ensures JobOk(s.senders[k].job)
    ensures FinishedAs(s, t, k, Decide(s.docs, s.senders[k].job, SessionAllows(inputs(a).session),
                                       WorldOf(s.senders[k].job, inputs, at), TimesOf(inputs, at)))
  {
    hide Counts, Counted, Inv, JobOk, NonBlank, FingerprintOf, StoreInv, Solo, MoveSender, Rest, WorldOf, TimesOf,
      Decide, DeniedResult;
    var (job, phase) := (s.senders[k].job, s.senders[k].phase);
    u := OutsideStep(s, k, inputs, a);
    t, b, at, later := u, a + 1, Steps(a, a, a, a, a, a), OnRace;
    match inputs(a).session {
    case SessionFails =>
      NothingSent(s, k, job);
    case Active(true) =>
      later := OnClaim;
      t, b, at := Claims(u, k, inputs, a + 1);
      Chains(s, u, t, k, inputs, a, a + 1, b, s.docs, StartClaiming(phase.intent, phase.request), at);
    case Active(false) =>
      later := OnCompletion;
      t, b, at := Denies(u, k, inputs, a + 1);
      Chains(s, u, t, k, inputs, a, a + 1, b, s.docs, StartDenying(phase.intent), at);
    }
    var (world, times) := (WorldOf(job, inputs, at), TimesOf(inputs, at));
    SameDecision(s.docs, job, SessionAllows(inputs(a).session), world, world, times);
    if !u.senders[k].phase.Finished? {
      RestOfDecision(s.docs, job, u.senders[k].phase, inputs(a + 1), world, times);
    }
  }

  lemma AsksSession(s: System, k: nat, inputs: nat -> Input, a: nat) returns (t: System, b: nat, at: Steps)
    requires Inv(s) && k < |s.senders| && s.senders[k].phase.Session? && AllReliable(inputs)
    ensures Ends(s, t, k, inputs, a, b, at) && Counted(s, k, inputs, a, b, at, OnSession) && at.session == a
  {
    hide Counts, Counted, Inv, JobOk, NonBlank, FingerprintOf, StoreInv, Solo, Reaches, Rest, WorldOf, TimesOf, Decide,
      Eligible, SessionAllows, FinishedAs;
    var (job, phase) := (s.senders[k].job, s.senders[k].phase);
    var u, later;
    u, t, b, at, later := Asks(s, k, inputs, a);
    SessionCounts(s, u, k, inputs, a, b, at, later);
    var was := at;
    Recounted(job, inputs, at, at.policy, a, a);
    assert at.(session := a) == at.(policy := at.policy, session := a);
    at := at.(session := a);
    SameDecision(s.docs, job, SessionAllows(inputs(a).session), WorldOf(job, inputs, was), WorldOf(job, inputs, at),
                 TimesOf(inputs, at));
    RestOfDecision(s.docs, job, phase, inputs(a), WorldOf(job, inputs, at), TimesOf(inputs, at));
  }

  /** The recipient policy answers, and the send goes on, or fails with it. */
  lemma AsksFirst(s: System, k: nat, inputs: nat -> Input, a: nat)
    returns (u: System, t: System, b: nat, at: Steps, later: Stage)
    requires Inv(s) && k < |s.senders| && s.senders[k].phase.Policy? && AllReliable(inputs)
    ensures Reaches(s, u, k, inputs, a, a + 1) && Reaches(s, t, k, inputs, a, b) && Within(at, a, b) && b > a
    ensures b == a + 1 || (Counted(u, k, inputs, a + 1, b, at, later)
                           && (later == OnClaim || later == OnCompletion
                               || (later == OnSession && at.session == a + 1)))
    ensures JobOk(s.senders[k].job)
    ensures var job := s.senders[k].job;
            FinishedAs(s, t, k, Decide(s.docs, job, Eligible(job.purpose, inputs(a).policy, inputs(a + 1).session),
                                       WorldOf(job, inputs, at), TimesOf(inputs, at)))
  {
    hide Counts, Counted, Inv, JobOk, NonBlank, FingerprintOf, StoreInv, Solo, Rest, WorldOf, TimesOf, Decide,
      MoveSender, DeniedResult, SessionAllows;
    var (job, phase) := (s.senders[k].job, s.senders[k].phase);
    u := OutsideStep(s, k, inputs, a);
    later := OnRace;
    t, b, at := u, a + 1, Steps(a, a, a, a, a, a);
    if u.senders[k].phase.Finished? {
      NothingSent(s, k, job);
      SameDecision(s.docs, job, Err(Dependency), WorldOf(job, inputs, at), WorldOf(job, inputs, at),
                   TimesOf(inputs, at));
    } else {
      if u.senders[k].phase.Session? {
        later := OnSession;
        t, b, at := AsksSession(u, k, inputs, a + 1);
      } else if u.senders[k].phase.Claiming? {
        later := OnClaim;
        t, b, at := Claims(u, k, inputs, a + 1);
      } else {
        later := OnCompletion;
        t, b, at := Denies(u, k, inputs, a + 1);
      }
      Chains(s, u, t, k, inputs, a, a + 1, b, s.docs, u.senders[k].phase, at);
      RestOfDecision(s.docs, job, u.senders[k].phase, inputs(a + 1), WorldOf(job, inputs, at), TimesOf(inputs, at));
    }
  }

  lemma AsksPolicy(s: System, k: nat, inputs: nat -> Input, a: nat) returns (t: System, b: nat, at: Steps)
    requires Inv(s) && k < |s.senders| && s.senders[k].phase.Policy? && AllReliable(inputs)
    ensures Ends(s, t, k, inputs, a, b, at) && Counted(s, k, inputs, a, b, at, OnPolicy)
  {
    hide Counts, Counted, Inv, JobOk, NonBlank, FingerprintOf, StoreInv, Solo, Reaches, Rest, WorldOf, TimesOf, Decide,
      Eligible, FinishedAs;
    var (job, phase) := (s.senders[k].job, s.senders[k].phase);
    var u, later;
    u, t, b, at, later := AsksFirst(s, k, inputs, a);
    PolicyCounts(s, u, k, inputs, a, b, at, later);
    Recounted(job, inputs, at, a, a + 1, a);
    var was := at;
    at := at.(policy := a, session := a + 1);
    var eligible := Eligible(job.purpose, inputs(a).policy, inputs(a + 1).session);
    SameDecision(s.docs, job, eligible, WorldOf(job, inputs, was), WorldOf(job, inputs, at), TimesOf(inputs, at));
    RestOfDecision(s.docs, job, phase, inputs(a), WorldOf(job, inputs, at), TimesOf(inputs, at));
  }

  /** From a stored intent to the end. */
  lemma GoesOn(
    s: System, k: nat, i: nat, created: bool, transient: Option<MessageRequest>, inputs: nat -> Input, a: nat)
    returns (t: System, b: nat, at: Steps)
    requires Inv(s) && k < |s.senders| && i < |s.docs| && Where(s.docs, s.senders[k].job) == Some(i)
             && AllReliable(inputs)
    requires JobOk(s.senders[k].job)
             && s.senders[k].phase == ContinueIntent(s.senders[k].job, s.docs[i].intent, transient)
    requires transient == if created && IsSensitive(s.senders[k].job)
                          then Some(RequestFor(s.senders[k].job, s.docs[i].intent.correlationId)) else None
    ensures Reaches(s, t, k, inputs, a, b) && Within(at, a, b) && Counted(s, k, inputs, a, b, at, OnPolicy)
    ensures var job := s.senders[k].job;
            FinishedAs(s, t, k, A.Continue(s.docs, i, job, created, WorldOf(job, inputs, at), TimesOf(inputs, at)))
  {
    hide Inv, JobOk, NonBlank, FingerprintOf, IsSensitive, CompletedDoc, ClaimedDoc, A.ResultOf, DeniedResult,
      RequestFor, Serialization.Deserialize, StoreInv, WorldOf, Solo;
    var job := s.senders[k].job;
    StoredIsValid(s, i);
    NothingSent(s, k, job);
    AllOriginated(s);
    if s.senders[k].phase.Policy? {
      A.StoredRequest(s.docs, i, job);
      t, b, at := AsksPolicy(s, k, inputs, a);
    } else {
      NoStep(s, k, inputs, a);
      t, b, at := s, a, Steps(a, a, a, a, a, a);
      if SameRequest(job, s.docs[i].intent) {
        A.StoredRequest(s.docs, i, job);
      }
    }
  }

  lemma CreatingFacts(s: System, k: nat)
    requires Inv(s) && k < |s.senders| && s.senders[k].phase.Creating?
    ensures var (job, phase) := (s.senders[k].job, s.senders[k].phase);
            && JobOk(job) && StoreInv(s.docs) && CreatingPc(s.docs, job, phase.request, phase.pc)
            && phase.pc.intent.Valid() && phase.pc.intent.state.Pending? && phase.pc.intent.Key() == job.Scope()
            && phase.pc.intent.correlationId == phase.request.correlationId
            && (phase.pc.CreateConfirm? ==>
                  && Where(s.docs, job).Some?
                  && (phase.pc.created ==>
                        s.docs[Where(s.docs, job).value].intent.correlationId == phase.request.correlationId))
  {
    hide CallInv, NonBlank, FingerprintOf, DocInv, StoreInv, Serialization.Serialize;
    JobsAreOk(s, k);
    L.StoreIsSound(s);
  }

  /** A creation whose insertion has been decided: the intent is read back. */
  lemma ReadsBack(s: System, k: nat, inputs: nat -> Input, a: nat) returns (t: System, b: nat, at: Steps)
    requires Inv(s) && k < |s.senders| && s.senders[k].phase.Creating? && AllReliable(inputs)
    requires !s.senders[k].phase.pc.CreateUpsert?
    ensures Ends(s, t, k, inputs, a, b, at) && Counted(s, k, inputs, a, b, at, OnCreation)
  {
    hide Counts, Counted, Inv, JobOk, NonBlank, FingerprintOf, IsSensitive, IntentFor, RequestFor, ContinueIntent,
      A.Continue, StoreInv, WorldOf, TimesOf, Solo, Rest, Linearization.Alone;
    CreatingFacts(s, k);
    var (job, pc) := (s.senders[k].job, s.senders[k].phase.pc);
    var u, c, w := CallEnds(s, k, inputs, a);
    if Where(s.docs, job) == None {
      NothingSent(s, k, job);
      Linearization.AloneStep(s.docs, pc, inputs(w).now);
      t, b, at := u, c, Steps(w, a, a, a, a, a);
      CallCounts(s, u, k, inputs, a, c, c, w, at, OnPolicy, at, OnCreation);
    } else {
      var created := pc.CreateConfirm? && pc.created;
      CreatedReads(s.docs, pc, Where(s.docs, job).value, inputs(w).now);
      t, b, at := FindsStored(s, u, k, inputs, a, c, w, created);
    }
    RestOfCreation(s.docs, job, s.senders[k].phase, inputs(a), WorldOf(job, inputs, at), TimesOf(inputs, at));
  }

  /** A creation that has read the stored intent, its own or another's. */
  lemma FindsStored(s: System, u: System, k: nat, inputs: nat -> Input, a: nat, c: nat, w: nat, created: bool)
    returns (t: System, b: nat, at: Steps)
    requires Inv(s) && k < |s.senders| && s.senders[k].phase.Creating? && AllReliable(inputs) && JobOk(s.senders[k].job)
    requires Where(s.docs, s.senders[k].job).Some? && Reaches(s, u, k, inputs, a, c) && a <= w < c
    requires forall other :: Wrote(s.senders[k].phase, other, w) ==> Counts(s, k, inputs, a, c, other)
    requires var (job, i) := (s.senders[k].job, Where(s.docs, s.senders[k].job).value);
             && (created ==> s.docs[i].intent.correlationId == s.senders[k].phase.request.correlationId)
             && s.senders[k].phase.request == RequestFor(job, s.senders[k].phase.request.correlationId)
             && Moved(s, u, k, s.docs, s.calls,
                      AfterCreation(job, s.senders[k].phase.request, Created(s.docs[i].intent, created)))
    ensures Reaches(s, t, k, inputs, a, b) && Within(at, a, b)
    ensures Counted(s, k, inputs, a, b, at, OnCreation) && Counts(s, k, inputs, a, b, at)
    ensures var (job, i) := (s.senders[k].job, Where(s.docs, s.senders[k].job).value);
            FinishedAs(s, t, k, A.Continue(s.docs, i, job, created, WorldOf(job, inputs, at), TimesOf(inputs, at)))
  {
    hide Counts, Counted, Inv, JobOk, NonBlank, FingerprintOf, IsSensitive, RequestFor, ContinueIntent, A.Continue,
      StoreInv, WorldOf, TimesOf, Solo, Rest;
    var (job, i) := (s.senders[k].job, Where(s.docs, s.senders[k].job).value);
    var transient := if created && IsSensitive(job) then Some(s.senders[k].phase.request) else None;
    t, b, at := GoesOn(u, k, i, created, transient, inputs, c);
    ReachesTransitive(s, u, t, k, inputs, a, c, b);
    CallCounts(s, u, k, inputs, a, c, b, w, at, OnPolicy, at.(created := w), OnCreation);
    CreatedIsPast(s.docs, i, job, created, inputs, at, w);
    at := at.(created := w);
  }

  lemma Creates(s: System, k: nat, inputs: nat -> Input, a: nat) returns (t: System, b: nat, at: Steps)
    requires Inv(s) && k < |s.senders| && s.senders[k].phase.Creating? && AllReliable(inputs)
    requires s.senders[k].phase.pc.CreateUpsert?
    ensures Ends(s, t, k, inputs, a, b, at) && Counted(s, k, inputs, a, b, at, OnCreation)
  {
    hide Counts, Counted, Inv, JobOk, NonBlank, FingerprintOf, IsSensitive, RequestFor, ContinueIntent, A.Continue,
      StoreInv, IntentFor, WorldOf, TimesOf, Solo, Rest, Linearization.Alone, AfterCreation;
    CreatingFacts(s, k);
    var (job, intent) := (s.senders[k].job, s.senders[k].phase.pc.intent);
    if Where(s.docs, job) == None {
      t, b, at := CreatesFresh(s, k, inputs, a);
    } else {
      var u, c, w := CallEnds(s, k, inputs, a);
      assert Reliable(inputs(w));
      UpsertMatches(s.docs, intent, Where(s.docs, job).value, inputs(w).now);
      t, b, at := FindsStored(s, u, k, inputs, a, c, w, false);
    }
    RestOfCreation(s.docs, job, s.senders[k].phase, inputs(a), WorldOf(job, inputs, at), TimesOf(inputs, at));
  }

  lemma CreatesFresh(s: System, k: nat, inputs: nat -> Input, a: nat) returns (t: System, b: nat, at: Steps)
    requires Inv(s) && k < |s.senders| && s.senders[k].phase.Creating? && AllReliable(inputs)
    requires s.senders[k].phase.pc.CreateUpsert? && Where(s.docs, s.senders[k].job) == None
    ensures JobOk(s.senders[k].job) && Reaches(s, t, k, inputs, a, b) && Within(at, a, b)
    ensures Counted(s, k, inputs, a, b, at, OnCreation) && Counts(s, k, inputs, a, b, at)
    ensures var (job, intent) := (s.senders[k].job, s.senders[k].phase.pc.intent);
            FinishedAs(s, t, k, A.SendEffect(s.docs, job, intent.intentId, intent.correlationId,
                                             WorldOf(job, inputs, at), TimesOf(inputs, at)))
  {
    hide Counts, Counted, Inv, JobOk, NonBlank, FingerprintOf, IsSensitive, RequestFor, ContinueIntent, A.Continue,
      StoreInv, NewDoc, WorldOf, TimesOf, Solo, Rest, Linearization.Alone;
    CreatingFacts(s, k);
    var (job, intent) := (s.senders[k].job, s.senders[k].phase.pc.intent);
    var u, c, w := CallEnds(s, k, inputs, a);
    assert Reliable(inputs(w));
    NothingSent(s, k, job);
    M.CreatesAlone(s.docs, intent, inputs(w).now);
    if IdentityTaken(s.docs, intent) {
      t, b, at := u, c, Steps(w, w, w, w, w, w);
      CallCounts(s, u, k, inputs, a, c, c, w, at, OnPolicy, at, OnCreation);
    } else {
      L.StoreIsSound(u);
      NewDocKeeps(intent, inputs(w).now);
      FindUnique(u.docs, ByScope(job.Scope()), |s.docs|);
      var transient := if IsSensitive(job) then Some(s.senders[k].phase.request) else None;
      t, b, at := GoesOn(u, k, |s.docs|, true, transient, inputs, c);
      CreatedIsPast(u.docs, |s.docs|, job, true, inputs, at, w);
      CallCounts(s, u, k, inputs, a, c, b, w, at, OnPolicy, at.(created := w), OnCreation);
      at := at.(created := w);
      ReachesTransitive(s, u, t, k, inputs, a, c, b);
    }
  }

  lemma NewDocKeeps(intent: MessageIntent, now: int)
    ensures NewDoc(intent, now).intent == intent
  {
  }

  /** What follows a creation does not depend on when it was. */
  lemma CreatedIsPast(docs: Store, i: nat, job: Job, created: bool, inputs: nat -> Input, at: Steps, w: nat)
    requires i < |docs| && JobOk(job) && AllReliable(inputs)
    ensures WorldOf(job, inputs, at.(created := w)) == WorldOf(job, inputs, at)
    ensures TimesOf(inputs, at.(created := w)).created == inputs(w).now
    ensures A.Continue(docs, i, job, created, WorldOf(job, inputs, at.(created := w)),
                       TimesOf(inputs, at.(created := w))) ==
            A.Continue(docs, i, job, created, WorldOf(job, inputs, at), TimesOf(inputs, at))
  {
    assert Reliable(inputs(w));
  }

  lemma Looks(s: System, k: nat, inputs: nat -> Input, a: nat) returns (t: System, b: nat, at: Steps)
    requires Inv(s) && k < |s.senders| && s.senders[k].phase.Looking? && AllReliable(inputs)
    ensures Ends(s, t, k, inputs, a, b, at)
  {
    hide Counts, Counted, Inv, JobOk, NonBlank, FingerprintOf, IsSensitive, IntentFor, RequestFor, ContinueIntent,
      A.Continue, StoreInv, NewDoc, WorldOf, TimesOf, Solo, Decide, Close;
    JobsAreOk(s, k);
    var job := s.senders[k].job;
    var u, c, w := LookupAnswered(s, k, inputs, a);
    NothingSent(s, k, job);
    match Where(s.docs, job) {
    case Some(i) =>
      t, b, at := GoesOn(u, k, i, false, None, inputs, c);
      ReachesTransitive(s, u, t, k, inputs, a, c, b);
      CallCounts(s, u, k, inputs, a, c, b, w, at, OnPolicy, at, OnCreation);
    case None =>
      if !NonBlank(inputs(a).correlationId) || !NonBlank(inputs(a).intentId) {
        t, b, at := u, c, Steps(a, a, a, a, a, a);
        CallCounts(s, u, k, inputs, a, c, c, w, at, OnPolicy, at, OnCreation);
      } else {
        t, b, at := LooksInVain(s, u, k, inputs, a, c, w);
      }
    }
  }

  lemma LookupAnswered(s: System, k: nat, inputs: nat -> Input, a: nat) returns (u: System, c: nat, w: nat)
    requires Inv(s) && k < |s.senders| && s.senders[k].phase.Looking? && AllReliable(inputs)
    ensures JobOk(s.senders[k].job) && Reaches(s, u, k, inputs, a, c) && c == a + 1
    ensures forall at :: Wrote(s.senders[k].phase, at, w) ==> Counts(s, k, inputs, a, c, at)
    ensures var (job, found) := (s.senders[k].job, Where(s.docs, s.senders[k].job));
            Moved(s, u, k, s.docs, s.calls,
                  AfterLookup(job, Found(if found == None then None else Some(s.docs[found.value].intent)), inputs(a)))
  {
    hide Counts, Inv, JobOk, StoreInv, Solo, Linearization.Alone, AfterLookup;
    LookingReads(s, k);
    L.StoreIsSound(s);
    u, c, w := CallEnds(s, k, inputs, a);
    A.GetsAlone(s.docs, s.senders[k].job, inputs(w).now);
    LooksWhere(s, k);
  }

  lemma LooksWhere(s: System, k: nat)
    requires Inv(s) && k < |s.senders| && s.senders[k].phase.Looking?
    ensures s.senders[k].phase.pc == GetRead(s.senders[k].job.Scope())
  {
    JobsAreOk(s, k);
  }

  lemma LooksInVain(s: System, u: System, k: nat, inputs: nat -> Input, a: nat, c: nat, w: nat)
    returns (t: System, b: nat, at: Steps)
    requires Inv(s) && k < |s.senders| && s.senders[k].phase.Looking? && AllReliable(inputs) && JobOk(s.senders[k].job)
    requires Reaches(s, u, k, inputs, a, c) && c == a + 1 && Where(s.docs, s.senders[k].job) == None
    requires forall at :: Wrote(s.senders[k].phase, at, w) ==> Counts(s, k, inputs, a, c, at)
    requires NonBlank(inputs(a).correlationId) && NonBlank(inputs(a).intentId)
    requires Moved(s, u, k, s.docs, s.calls, AfterLookup(s.senders[k].job, Found(None), inputs(a)))
    ensures Ends(s, t, k, inputs, a, b, at)
  {
    hide Counts, Counted, Inv, JobOk, NonBlank, IntentFor, RequestFor, A.SendEffect, WorldOf, TimesOf, Solo, Decide,
      Close;
    var job := s.senders[k].job;
    IntentForNames(job, inputs(a).intentId, inputs(a).correlationId);
    t, b, at := Creates(u, k, inputs, c);
    Chains(s, u, t, k, inputs, a, c, b, s.docs, u.senders[k].phase, at);
    CallCounts(s, u, k, inputs, a, c, b, w, at, OnCreation, at, OnCreation);
    RestOfCreation(s.docs, job, u.senders[k].phase, inputs(c), WorldOf(job, inputs, at), TimesOf(inputs, at));
  }

  lemma IntentForNames(job: Job, intentId: string, correlationId: string)
    requires JobOk(job)
    ensures var intent := IntentFor(job, intentId, correlationId);
            && intent.Key() == job.Scope() && intent.state.Pending?
            && intent.intentId == intentId && intent.correlationId == correlationId
  {
  }

  /**
   * From any reachable state, a sender in any phase but a crash that then runs without interruption,
   * with a database and a clock that do not fail but may answer differently at every step, ends in the
   * collection, with the outcome and with the provider calls of what is left of the atomic send: for
   * the policies and the provider as they answered it, and the clock as it read, at its own steps in
   * the phases that ask them.
   */
  lemma SoloSendIsAtomic(s: System, k: nat, inputs: nat -> Input) returns (t: System, n: nat, at: Steps)
    requires Inv(s) && k < |s.senders| && !s.senders[k].phase.Crashed? && AllReliable(inputs)
    ensures Ends(s, t, k, inputs, 0, n, at)
  {
    hide Inv, JobOk, Rest, WorldOf, Solo;
    match s.senders[k].phase
    case Looking(_) => t, n, at := Looks(s, k, inputs, 0);
    case Creating(_, pc) =>
      if pc.CreateUpsert? {
        t, n, at := Creates(s, k, inputs, 0);
      } else {
        t, n, at := ReadsBack(s, k, inputs, 0);
      }
    case Policy(_, _) => t, n, at := AsksPolicy(s, k, inputs, 0);
    case Session(_, _) => t, n, at := AsksSession(s, k, inputs, 0);
    case Denying(_, _) => t, n, at := Denies(s, k, inputs, 0);
    case Claiming(_, _, _) => t, n, at := Claims(s, k, inputs, 0);
    case Resolving(_, _) => t, n, at := Resolves(s, k, inputs, 0);
    case Sending(_, _) => t, n, at := Sends(s, k, inputs, 0);
    case Awaiting(_, _) => t, n, at := Awaits(s, k, inputs, 0);
    case Completing(_, _, _, _) => t, n, at := Completes(s, k, inputs, 0);
    case Finished(_) => t, n, at := Rests(s, k, inputs);
  }

  lemma Rests(s: System, k: nat, inputs: nat -> Input) returns (t: System, n: nat, at: Steps)
    requires Inv(s) && k < |s.senders| && s.senders[k].phase.Finished? && AllReliable(inputs)
    ensures Ends(s, t, k, inputs, 0, n, at)
  {
    hide Inv, JobOk, WorldOf;
    JobsAreOk(s, k);
    NothingSent(s, k, s.senders[k].job);
    NoStep(s, k, inputs, 0);
    t, n, at := s, 0, Steps(0, 0, 0, 0, 0, 0);
  }

  // ---- As runs ----

  /** The run that goes on from `r` with `n` steps of one sender. */
  function Extended(r: Run, k: nat, inputs: nat -> Input, n: nat): Run
    requires IsRun(r)
    decreases n
  {
    if n == 0 then r
    else
      var before := Extended(r, k, inputs, n - 1);
      if before.states == [] then before
      else
        Run(before.states + [MoveSender(before.states[|before.states| - 1], k, inputs(n - 1))],
            before.events + [Move(k, inputs(n - 1))])
  }

  lemma SoloLast(s: System, k: nat, inputs: nat -> Input, n: nat)
    ensures Solo(s, k, inputs, 0, n + 1) == MoveSender(Solo(s, k, inputs, 0, n), k, inputs(n))
  {
    hide MoveSender;
    var t := Solo(s, k, inputs, 0, n);
    SoloAdds(s, k, inputs, 0, n, 1);
    assert Solo(MoveSender(t, k, inputs(n)), k, inputs, n + 1, 0) == MoveSender(t, k, inputs(n));
    assert Solo(t, k, inputs, n, 1) == Solo(MoveSender(t, k, inputs(n)), k, inputs, n + 1, 0);
  }

  lemma RunExtended(r: Run, e: Event, s: System)
    requires IsRun(r) && s == Next(r.states[|r.events|], e)
    ensures IsRun(Run(r.states + [s], r.events + [e]))
  {
    hide Next;
    var longer := Run(r.states + [s], r.events + [e]);
    forall n | 0 <= n < |longer.events| ensures StepsAt(longer, n) {
      assert n < |r.events| ==> StepsAt(r, n);
    }
  }

  function Last(r: Run): System
    requires IsRun(r)
  {
    r.states[|r.events|]
  }

  function Then(r: Run, e: Event): Run
    requires IsRun(r)
  {
    Run(r.states + [Next(Last(r), e)], r.events + [e])
  }

  lemma ThenIsRun(r: Run, e: Event)
    requires IsRun(r)
    ensures IsRun(Then(r, e)) && Last(Then(r, e)) == Next(Last(r), e)
    ensures Then(r, e).events == r.events + [e] && Then(r, e).states == r.states + [Next(Last(r), e)]
    ensures |r.states| == |r.events| + 1 && Then(r, e).states[|r.events|] == Last(r)
  {
    hide Next;
    RunExtended(r, e, Next(Last(r), e));
  }

  lemma {:induction false} SoloAsRun(r: Run, k: nat, inputs: nat -> Input, n: nat)
    requires IsRun(r)
    ensures var longer := Extended(r, k, inputs, n);
            && IsRun(longer) && |longer.events| == |r.events| + n && r.events <= longer.events
            && r.states <= longer.states
            && longer.states[|longer.events|] == Solo(r.states[|r.events|], k, inputs, 0, n)
    decreases n
  {
    hide MoveSender, IsRun;
    if n > 0 {
      SoloAsRun(r, k, inputs, n - 1);
      var before := Extended(r, k, inputs, n - 1);
      RunShape(before);
      RunShape(r);
      SoloLast(r.states[|r.events|], k, inputs, n - 1);
      RunExtended(before, Move(k, inputs(n - 1)), MoveSender(before.states[|before.events|], k, inputs(n - 1)));
    }
  }

  lemma RunShape(r: Run)
    requires IsRun(r)
    ensures |r.states| == |r.events| + 1
  {
  }

  /**
   * Whatever has happened before, crashes and failures included, any caller that has not crashed can
   * be served: some run goes on with its steps only, and ends as what is left of its atomic send does.
   */
  lemma CallerIsServed(r: Run, k: nat, inputs: nat -> Input) returns (longer: Run, at: Steps)
    requires IsRun(r) && k < |r.states[|r.events|].senders| && !r.states[|r.events|].senders[k].phase.Crashed?
    requires AllReliable(inputs)
    ensures IsRun(longer) && r.events <= longer.events && r.states <= longer.states
    ensures forall m :: |r.events| <= m < |longer.events| ==> longer.events[m] == Move(k, inputs(m - |r.events|))
    ensures Ends(r.states[|r.events|], longer.states[|longer.events|], k, inputs, 0, |longer.events| - |r.events|, at)
  {
    hide Inv, MoveSender, FinishedAs, JobOk, WorldOf, Rest;
    RunKeeps(r, |r.events|);
    var t, n;
    t, n, at := SoloSendIsAtomic(r.states[|r.events|], k, inputs);
    SoloAsRun(r, k, inputs, n);
    longer := Extended(r, k, inputs, n);
    forall m | |r.events| <= m < |longer.events| ensures longer.events[m] == Move(k, inputs(m - |r.events|)) {
      ExtendedMoves(r, k, inputs, n, m);
    }
  }

  /** In particular a new caller is served, as the atomic send. */
  lemma NewCallerIsServed(r: Run, config: Config, call: SendCall, inputs: nat -> Input) returns (longer: Run, at: Steps)
    requires IsRun(r) && Typed(config, call) && Prepare(config, call).Ok? && AllReliable(inputs)
    ensures IsRun(longer) && r.events + [Begin(config, call)] <= longer.events && r.states <= longer.states
    ensures forall m :: |r.events| < m < |longer.events| ==>
              longer.events[m] == Move(|r.states[|r.events|].senders|, inputs(m - |r.events| - 1))
    ensures var (s, job, k) := (r.states[|r.events|], Prepare(config, call).value, |r.states[|r.events|].senders|);
            var (begun, after) := (longer.states[|r.events| + 1], longer.states[|longer.events|]);
            && k < |begun.senders| && begun.senders[k].job == job && JobOk(job) && begun.docs == s.docs
            && begun.calls == s.calls
            && Within(at, 0, |longer.events| - |r.events| - 1)
            && Counts(begun, k, inputs, 0, |longer.events| - |r.events| - 1, at)
            && FinishedAs(begun, after, k,
                 A.SendEffect(s.docs, job, inputs(0).intentId, inputs(0).correlationId, WorldOf(job, inputs, at),
                              TimesOf(inputs, at)))
  {
    hide Inv, Counts, MoveSender, FinishedAs, Prepare, JobOk, Typed, A.SendEffect, WorldOf, Asked;
    var s := r.states[|r.events|];
    var t := Next(s, Begin(config, call));
    var begun := Run(r.states + [t], r.events + [Begin(config, call)]);
    RunExtended(r, Begin(config, call), t);
    PreparedJobIsOk(config, call);
    longer, at := CallerIsServed(begun, |s.senders|, inputs);
  }

  lemma {:induction false} ExtendedMoves(r: Run, k: nat, inputs: nat -> Input, n: nat, m: nat)
    requires IsRun(r) && |r.events| <= m < |Extended(r, k, inputs, n).events|
    ensures Extended(r, k, inputs, n).events[m] == Move(k, inputs(m - |r.events|))
    decreases n
  {
    hide MoveSender, IsRun;
    if n > 0 {
      SoloAsRun(r, k, inputs, n - 1);
      if m < |Extended(r, k, inputs, n - 1).events| {
        ExtendedMoves(r, k, inputs, n - 1, m);
      }
    }
  }
}
