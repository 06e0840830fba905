// service.py: the dispatch protocol. Any number of senders and recovery callers share one intent
// collection. Every collection operation, policy evaluation and provider call is one step; callers
// may crash between any two steps, and the database may fail before or after any operation.
module Dispatch {
  import opened Wrappers
  import opened Text
  import opened Contracts
  import opened IntentRecords
  import opened IntentStore
  import opened Service
  import Recovery
  import Serialization

  // ---- Senders ----

  datatype Outcome = Result(result: DispatchResult) | Failed(error: ServiceError)

  /** Where a sender stands in `_send`. */
  datatype Phase =
    | Looking(pc: Pc)                                              // _get_intent
    | Creating(request: MessageRequest, pc: Pc)                    // _create_intent
    | Policy(intent: MessageIntent, request: MessageRequest)       // about to evaluate the recipient policy
    | Session(intent: MessageIntent, request: MessageRequest)      // about to evaluate the session policy
    | Denying(intent: MessageIntent, pc: Pc)                       // _complete_local_rejection
    | Claiming(intent: MessageIntent, request: MessageRequest, pc: Pc)
    | Resolving(intent: MessageIntent, pc: Pc)                     // _resolve_claim_race
    | Sending(intent: MessageIntent, request: MessageRequest)      // about to select and call the provider
    | Awaiting(intent: MessageIntent, request: MessageRequest)     // the provider has been called
    | Completing(intent: MessageIntent, result: DispatchResult, invoked: bool, pc: Pc)
    | Finished(outcome: Outcome)
    | Crashed

  datatype PolicyAnswer = PolicyFails | Eligibility(consented: bool, suppressed: bool)

  datatype SessionAnswer = SessionFails | Active(active: bool)

  function SessionAllows(session: SessionAnswer): Result<bool, ServiceError> {
    match session
    case SessionFails => Err(Dependency)
    case Active(active) => Ok(active)
  }

  /** `_is_policy_eligible`; the session policy is asked second, and for texts only. */
  function Eligible(purpose: Option<string>, policy: PolicyAnswer, session: SessionAnswer): Result<bool, ServiceError> {
    match policy
    case PolicyFails => Err(Dependency)
    case Eligibility(consented, suppressed) =>
      if !consented || suppressed then Ok(false)
      else if purpose == None then Ok(true)
      else SessionAllows(session)
  }

  /** The recipient has consented and is not suppressed and, for a text, has an active session. */
  predicate PoliciesAllow(purpose: Option<string>, policy: PolicyAnswer, session: SessionAnswer) {
    policy == Eligibility(true, false) && (purpose.Some? ==> session == Active(true))
  }

  /** One of the policies that were asked has answered, and does not allow the send. */
  predicate PoliciesRefuse(purpose: Option<string>, policy: PolicyAnswer, session: SessionAnswer) {
    || policy in {Eligibility(false, false), Eligibility(false, true), Eligibility(true, true)}
    || (policy == Eligibility(true, false) && purpose.Some? && session == Active(false))
  }

  /** The policy whose answer was needed has failed. */
  predicate PoliciesFail(purpose: Option<string>, policy: PolicyAnswer, session: SessionAnswer) {
    policy == PolicyFails || (policy == Eligibility(true, false) && purpose.Some? && session == SessionFails)
  }

  lemma EligibleIff(purpose: Option<string>, policy: PolicyAnswer, session: SessionAnswer)
    ensures Eligible(purpose, policy, session) == Ok(true) <==> PoliciesAllow(purpose, policy, session)
    ensures Eligible(purpose, policy, session) == Ok(false) <==> PoliciesRefuse(purpose, policy, session)
    ensures Eligible(purpose, policy, session) == Err(Dependency) <==> PoliciesFail(purpose, policy, session)
    ensures Eligible(purpose, policy, session).Err? ==> Eligible(purpose, policy, session).error == Dependency
  {
    match policy
    case PolicyFails =>
    case Eligibility(consented, suppressed) =>
      assert policy == Eligibility(consented, suppressed);
  }

  /** Everything a step does not decide by itself. */
  datatype Input = Input(
    now: int,
    fault: Fault,
    correlationId: string,
    intentId: string,
    policy: PolicyAnswer,
    session: SessionAnswer,
    registered: bool,
    provider: ProviderAnswer)

  /** What the run has established about its recipient so far. */
  datatype Evidence = Evidence(recipient: Option<string>, session: Option<(string, string)>)

  datatype Sender = Sender(job: Job, phase: Phase, evidence: Evidence, callAt: Option<nat>)

  function Replay(intent: MessageIntent): Phase {
    match intent.result
    case None => Finished(Failed(BadIntentState))
    case Some(r) => Finished(Result(r.(idempotentReplay := true)))
  }

  function SameRequest(job: Job, intent: MessageIntent): bool
    requires JobOk(job)
  {
    intent.requestFingerprint == FingerprintOf(job)
  }

  /** `_continue_intent` up to the policy evaluation. */
  function ContinueIntent(job: Job, intent: MessageIntent, transient: Option<MessageRequest>): Phase
    requires JobOk(job)
  {
    if !SameRequest(job, intent) then Finished(Failed(IdempotencyConflict))
    else if intent.state.IsTerminal() then Replay(intent)
    else if intent.state.Dispatching? then Finished(Failed(InProgress))
    else
      match transient
      case Some(request) => Policy(intent, request)
      case None =>
        match Serialization.Deserialize(intent.serializedRequest)
        case Err(_) => Finished(Failed(Dependency))
        case Ok(request) => Policy(intent, request)
  }

  function AfterLookup(job: Job, response: Response, input: Input): Phase
    requires JobOk(job)
  {
    match response
    case Raised(_) => Finished(Failed(Dependency))
    case Created(_, _) => Finished(Failed(Dependency))
    case Found(Some(intent)) => ContinueIntent(job, intent, None)
    case Found(None) =>
      if !NonBlank(input.correlationId) || !NonBlank(input.intentId) then Finished(Failed(InvalidArgument))
      else
        Creating(RequestFor(job, input.correlationId),
                 Start(Create(IntentFor(job, input.intentId, input.correlationId))))
  }

  function AfterCreation(job: Job, request: MessageRequest, response: Response): Phase
    requires JobOk(job)
  {
    match response
    case Created(intent, created) =>
      ContinueIntent(job, intent, if created && IsSensitive(job) then Some(request) else None)
    case _ => Finished(Failed(Dependency))
  }

  function StartDenying(intent: MessageIntent): Phase {
    Denying(intent, Start(Complete(intent.intentId, Pending, DeniedResult(intent))))
  }

  function StartClaiming(intent: MessageIntent, request: MessageRequest): Phase {
    Claiming(intent, request, Start(Claim(intent.intentId)))
  }

  function StartResolving(intent: MessageIntent): Phase {
    Resolving(intent, Start(Get(intent.Key())))
  }

  /** `_complete_claimed_intent` up to the repository call. */
  function StartCompleting(intent: MessageIntent, result: DispatchResult, invoked: bool): Phase {
    if !Expected(intent, result).Valid() then Finished(Failed(BrokenContract))
    else Completing(intent, result, invoked, Start(Complete(intent.intentId, Dispatching, result)))
  }

  function AfterPolicy(job: Job, intent: MessageIntent, request: MessageRequest, answer: PolicyAnswer): Phase {
    match answer
    case PolicyFails => Finished(Failed(Dependency))
    case Eligibility(consented, suppressed) =>
      if !consented || suppressed then StartDenying(intent)
      else if job.purpose == None then StartClaiming(intent, request)
      else Session(intent, request)
  }

  function AfterSession(intent: MessageIntent, request: MessageRequest, answer: SessionAnswer): Phase {
    match answer
    case SessionFails => Finished(Failed(Dependency))
    case Active(active) => if active then StartClaiming(intent, request) else StartDenying(intent)
  }

  function AfterDenial(intent: MessageIntent, response: Response): Phase {
    match response
    case Found(None) => StartResolving(intent)
    case Found(Some(completed)) =>
      if completed.result.Some? then Finished(Result(completed.result.value)) else Finished(Failed(Dependency))
    case _ => Finished(Failed(Dependency))
  }

  function AfterClaim(intent: MessageIntent, request: MessageRequest, response: Response): Phase {
    match response
    case Found(None) => StartResolving(intent)
    case Found(Some(claimed)) => Sending(claimed, request)
    case _ => Finished(Failed(Dependency))
  }

  function AfterRace(intent: MessageIntent, response: Response): Phase {
    match response
    case Found(None) => Finished(Failed(BadIntentState))
    case Found(Some(current)) =>
      if current.requestFingerprint != intent.requestFingerprint then Finished(Failed(IdempotencyConflict))
      else if current.state.IsTerminal() then Replay(current)
      else Finished(Failed(InProgress))
    case _ => Finished(Failed(Dependency))
  }

  function AfterCompletion(intent: MessageIntent, result: DispatchResult, invoked: bool, response: Response): Phase {
    if response == Found(Some(Expected(intent, result))) then Finished(Result(result))
    else Finished(Failed(if invoked then PostDispatchPersistence else Dependency))
  }

  // ---- Recovery callers ----

  datatype Recoverer =
    | Scanning(before: int, limit: nat)
    | Working(before: int, todo: seq<Doc>, pc: Pc, recovered: nat)
    | Done(recovered: nat)
    | Broken(recovered: nat)     // the call raised or crashed after recovering some intents

  function Pick(before: int, todo: seq<Doc>, recovered: nat): Recoverer {
    if todo == [] then Done(recovered)
    else
      match Decode(todo[0])
      case Err(_) => Broken(recovered)
      case Ok(intent) =>
        Working(before, todo, Start(Complete(intent.intentId, Dispatching, RecoveredResult(intent))), recovered)
  }

  function AfterRecovery(before: int, todo: seq<Doc>, recovered: nat, response: Response): Recoverer
    requires todo != []
  {
    match response
    case Found(None) => Pick(before, todo[1..], recovered)
    case Found(Some(_)) => Pick(before, todo[1..], recovered + 1)
    case _ => Broken(recovered)
  }

  // ---- History ----

  /** A call of the provider. */
  datatype ProviderCall = ProviderCall(sender: nat, scope: Scope, providerKey: string, request: MessageRequest)

  datatype Closer = Open | ByPolicy(sender: nat) | ByDispatcher(sender: nat) | ByRecovery(recoverer: nat, before: int)

  /**
   * For each document: the job of the run that created it, that run, who claimed it, and who closed
   * it; a recovery call together with its threshold.
   */
  datatype Tag = Tag(job: Job, creator: nat, winner: Option<nat>, closer: Closer)

  datatype System = System(
    docs: Store,
    tags: seq<Tag>,
    calls: seq<ProviderCall>,
    senders: seq<Sender>,
    recoverers: seq<Recoverer>,
    lost: nat)                   // recoveries that took effect while their caller was told of a failure

  datatype Event =
    | Begin(config: Config, call: SendCall)
    | Move(sender: nat, input: Input)
    | Crash(sender: nat)
    | BeginRecovery(before: int, limit: nat)
    | MoveRecovery(recoverer: nat, now: int, fault: Fault)
    | CrashRecovery(recoverer: nat)

  const MAX_RECOVERY_LIMIT := 1000

  /** Tags after a sender's step: a new document, a claim, or a completion. */
  function Retag(tags: seq<Tag>, docs: Store, docs': Store, k: nat, sender: Sender): seq<Tag>
    requires |tags| == |docs|
  {
    if |docs'| > |docs| then tags + [Tag(sender.job, k, None, Open)]
    else
      match Find(docs, ByScope(sender.job.Scope()))
      case None => tags
      case Some(i) =>
        if i >= |docs'| || docs'[i].intent.state == docs[i].intent.state then tags
        else if docs'[i].intent.state.Dispatching? then tags[i := tags[i].(winner := Some(k))]
        else tags[i := tags[i].(closer := if sender.phase.Denying? then ByPolicy(k) else ByDispatcher(k))]
  }

  /** Tags after a recovery step: at most one completion. */
  function RetagRecovered(tags: seq<Tag>, docs: Store, docs': Store, r: nat, before: int, id: string): seq<Tag>
    requires |tags| == |docs|
  {
    match Find(docs, ById(id))
    case None => tags
    case Some(i) =>
      if i >= |docs'| || docs'[i].intent.state == docs[i].intent.state then tags
      else tags[i := tags[i].(closer := ByRecovery(r, before))]
  }

  // ---- Steps ----

  /** The call in progress at the repository, if any. */
  function PcOf(phase: Phase): Option<Pc> {
    match phase
    case Looking(pc) => Some(pc)
    case Creating(_, pc) => Some(pc)
    case Denying(_, pc) => Some(pc)
    case Claiming(_, _, pc) => Some(pc)
    case Resolving(_, pc) => Some(pc)
    case Completing(_, _, _, pc) => Some(pc)
    case _ => None
  }

  /** The phase after a step at the repository. */
  function AfterStep(job: Job, phase: Phase, pc: Pc, input: Input): Phase
    requires JobOk(job) && PcOf(phase).Some?
  {
    match phase
    case Looking(_) => if pc.Returned? then AfterLookup(job, pc.response, input) else Looking(pc)
    case Creating(request, _) =>
      if pc.Returned? then AfterCreation(job, request, pc.response) else Creating(request, pc)
    case Denying(intent, _) => if pc.Returned? then AfterDenial(intent, pc.response) else Denying(intent, pc)
    case Claiming(intent, request, _) =>
      if pc.Returned? then AfterClaim(intent, request, pc.response) else Claiming(intent, request, pc)
    case Resolving(intent, _) => if pc.Returned? then AfterRace(intent, pc.response) else Resolving(intent, pc)
    case Completing(intent, result, invoked, _) =>
      if pc.Returned? then AfterCompletion(intent, result, invoked, pc.response)
      else Completing(intent, result, invoked, pc)
  }

  /** The system after a sender's step at the repository. */
  function Apply(s: System, k: nat, step: Step, input: Input): System
    requires k < |s.senders| && JobOk(s.senders[k].job) && PcOf(s.senders[k].phase).Some? && |s.tags| == |s.docs|
  {
    var sender := s.senders[k];
    s.(docs := step.docs,
       tags := Retag(s.tags, s.docs, step.docs, k, sender),
       senders := s.senders[k := sender.(phase := AfterStep(sender.job, sender.phase, step.pc, input))])
  }

  function MoveAtRepository(s: System, k: nat, input: Input): System
    requires k < |s.senders| && JobOk(s.senders[k].job) && PcOf(s.senders[k].phase).Some? && |s.tags| == |s.docs|
  {
    Apply(s, k, Advance(s.docs, PcOf(s.senders[k].phase).value, input.now, input.fault), input)
  }

  /** A step outside the repository: a policy evaluation, the provider call, or its answer. */
  function MoveOutside(s: System, k: nat, input: Input): System
    requires k < |s.senders|
  {
    var sender := s.senders[k];
    var job := sender.job;
    match sender.phase
    case Policy(intent, request) =>
      var eligible := input.policy.Eligibility? && input.policy.consented && !input.policy.suppressed;
      s.(senders := s.senders[k := sender.(
           phase := AfterPolicy(job, intent, request, input.policy),
           evidence := if eligible then sender.evidence.(recipient := Some(job.subject.recipient))
                       else sender.evidence)])
    case Session(intent, request) =>
      s.(senders := s.senders[k := sender.(
           phase := AfterSession(intent, request, input.session),
           evidence := if input.session == Active(true) then sender.evidence.(session := job.SessionKey())
                       else sender.evidence)])
    case Sending(intent, request) =>
      if !input.registered then
        s.(senders := s.senders[k := sender.(phase := StartCompleting(intent, UnregisteredResult(intent), false))])
      else
        s.(calls := s.calls + [ProviderCall(k, intent.Key(), intent.providerKey, request)],
           senders := s.senders[k := sender.(phase := Awaiting(intent, request), callAt := Some(|s.calls|))])
    case Awaiting(intent, request) =>
      var result := GatewayResult(intent, request, input.provider);
      s.(senders := s.senders[k := sender.(phase := StartCompleting(intent, result, true))])
    case _ => s
  }

  function MoveSender(s: System, k: nat, input: Input): System {
    if k >= |s.senders| || !JobOk(s.senders[k].job) || |s.tags| != |s.docs| then s
    else if PcOf(s.senders[k].phase).Some? then MoveAtRepository(s, k, input)
    else MoveOutside(s, k, input)
  }

  function StepRecovery(s: System, r: nat, now: int, fault: Fault): System {
    if r >= |s.recoverers| || |s.tags| != |s.docs| then s
    else
      match s.recoverers[r]
      case Scanning(before, limit) =>
        var next := if fault.NoFault? then Pick(before, Recovery.Candidates(s.docs, before, limit), 0) else Broken(0);
        s.(recoverers := s.recoverers[r := next])
      case Working(before, todo, pc, recovered) =>
        if todo == [] then s
        else
          var step := Advance(s.docs, pc, now, fault);
          var next := if step.pc.Returned? then AfterRecovery(before, todo, recovered, step.pc.response)
                      else Working(before, todo, step.pc, recovered);
          s.(docs := step.docs,
             tags := RetagRecovered(s.tags, s.docs, step.docs, r, before, todo[0].intent.intentId),
             recoverers := s.recoverers[r := next],
             lost := if step.docs != s.docs && fault.FailAfter? then s.lost + 1 else s.lost)
      case _ => s
  }

  function Next(s: System, e: Event): System {
    match e
    case Begin(config, call) =>
      if !Typed(config, call) then s
      else
        (match Prepare(config, call)
         case Err(_) => s
         case Ok(job) =>
           s.(senders := s.senders + [Sender(job, Looking(Start(Get(job.Scope()))), Evidence(None, None), None)]))
    case Move(k, input) => MoveSender(s, k, input)
    case Crash(k) =>
      if k < |s.senders| && !s.senders[k].phase.Finished? then
        s.(senders := s.senders[k := s.senders[k].(phase := Crashed)])
      else s
    case BeginRecovery(before, limit) =>
      if before >= 0 && 1 <= limit <= MAX_RECOVERY_LIMIT then
        s.(recoverers := s.recoverers + [Scanning(before, limit)])
      else s
    case MoveRecovery(r, now, fault) => StepRecovery(s, r, now, fault)
    case CrashRecovery(r) =>
      if r < |s.recoverers| && s.recoverers[r].Working? then
        s.(recoverers := s.recoverers[r := Broken(s.recoverers[r].recovered)])
      else s
  }

  // ---- Runs ----

  function Initial(): System {
    System([], [], [], [], [], 0)
  }

  /** The states that a run passes through, and the events between them. */
  datatype Run = Run(states: seq<System>, events: seq<Event>)

  predicate StepsAt(r: Run, n: nat)
    requires |r.states| == |r.events| + 1 && n < |r.events|
  {
    r.states[n + 1] == Next(r.states[n], r.events[n])
  }

  predicate IsRun(r: Run) {
    && |r.states| == |r.events| + 1 && r.states[0] == Initial()
    && forall n :: 0 <= n < |r.events| ==> StepsAt(r, n)
  }

  /** A point of a run. */
  predicate At(r: Run, p: nat) {
    IsRun(r) && p < |r.states|
  }
}
