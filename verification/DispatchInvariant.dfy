// The invariant of the dispatch protocol, and its preservation by every step of every caller.
module DispatchInvariant {
  import opened Wrappers
  import opened Text
  import opened Contracts
  import opened IntentRecords
  import opened IntentStore
  import opened Service
  import opened Dispatch
  import opened DispatchSteps
  import Fingerprint
  import Recovery
  import Serialization

  // ---- Senders ----

  function Where(docs: Store, job: Job): Option<nat> {
    Find(docs, ByScope(job.Scope()))
  }

  /** The sender's snapshot of the intent is an earlier state of the stored one, for the same request. */
  predicate OnDoc(docs: Store, job: Job, intent: MessageIntent)
    requires JobOk(job)
  {
    && Where(docs, job).Some?
    && IntentEvolves(intent, docs[Where(docs, job).value].intent)
    && SameRequest(job, intent)
  }

  predicate CreatedBy(docs: Store, tags: seq<Tag>, k: nat, job: Job)
    requires |tags| == |docs|
  {
    Where(docs, job).Some? && tags[Where(docs, job).value].creator == k
  }

  /** Only the run that created an intent has its sensitive parameters. */
  predicate MayHold(docs: Store, tags: seq<Tag>, k: nat, job: Job)
    requires |tags| == |docs|
  {
    IsSensitive(job) ==> CreatedBy(docs, tags, k, job)
  }

  predicate Ready(docs: Store, tags: seq<Tag>, k: nat, job: Job, intent: MessageIntent, request: MessageRequest)
    requires JobOk(job) && |tags| == |docs|
  {
    && OnDoc(docs, job, intent) && intent.state.Pending? && request == RequestFor(job, intent.correlationId)
    && MayHold(docs, tags, k, job)
  }

  /** The policies were asked about exactly this job's recipient and session. */
  predicate Cleared(sender: Sender) {
    && sender.evidence.recipient == Some(sender.job.subject.recipient)
    && (sender.job.purpose.Some? ==> sender.evidence.session == sender.job.SessionKey())
  }

  predicate WonBy(docs: Store, tags: seq<Tag>, k: nat, job: Job)
    requires |tags| == |docs|
  {
    Where(docs, job).Some? && tags[Where(docs, job).value].winner == Some(k)
  }

  predicate Holding(docs: Store, tags: seq<Tag>, k: nat, job: Job, intent: MessageIntent)
    requires |tags| == |docs| && JobOk(job)
  {
    OnDoc(docs, job, intent) && intent.Valid() && intent.state.Dispatching? && WonBy(docs, tags, k, job)
  }

  predicate CreatingPc(docs: Store, job: Job, request: MessageRequest, pc: Pc)
    requires JobOk(job)
  {
    && (pc.CreateUpsert? || pc.CreateConfirm? || pc.CreateDuplicate?)
    && request == RequestFor(job, request.correlationId)
    && pc.intent == IntentFor(job, pc.intent.intentId, request.correlationId)
    && NonBlank(pc.intent.intentId) && NonBlank(request.correlationId)
    && (pc.CreateConfirm? && pc.created ==> OnDoc(docs, job, pc.intent))
  }

  /** What a run that has returned a result relies on. */
  predicate Settled(docs: Store, tags: seq<Tag>, k: nat, job: Job, r: DispatchResult)
    requires |tags| == |docs|
  {
    && Where(docs, job).Some?
    && docs[Where(docs, job).value].intent.result == Some(r.(idempotentReplay := false))
    && (!r.idempotentReplay ==>
          var closer := tags[Where(docs, job).value].closer; closer == ByPolicy(k) || closer == ByDispatcher(k))
  }

  predicate PhaseInv(docs: Store, tags: seq<Tag>, k: nat, sender: Sender)
    requires |tags| == |docs| && JobOk(sender.job)
  {
    var (job, called) := (sender.job, sender.callAt.Some?);
    match sender.phase
    case Looking(pc) => !called && pc == GetRead(job.Scope())
    case Creating(request, pc) =>
      && !called && PcInv(docs, pc) && CreatingPc(docs, job, request, pc)
      && (pc.CreateConfirm? && pc.created ==> CreatedBy(docs, tags, k, job))
    case Policy(intent, request) => !called && Ready(docs, tags, k, job, intent, request)
    case Session(intent, request) =>
      !called && Ready(docs, tags, k, job, intent, request) && sender.evidence.recipient == Some(job.subject.recipient)
    case Denying(intent, pc) =>
      && !called && OnDoc(docs, job, intent) && PcInv(docs, pc) && MayHold(docs, tags, k, job)
      && CompletionPc(pc, intent.intentId, Pending, DeniedResult(intent))
    case Claiming(intent, request, pc) =>
      && !called && Ready(docs, tags, k, job, intent, request) && PcInv(docs, pc) && Cleared(sender)
      && (pc == ClaimRead(intent.intentId) || pc == ClaimWrite(intent.intentId, 0))
    case Resolving(intent, pc) =>
      && !called && OnDoc(docs, job, intent) && pc == GetRead(job.Scope())
      && !docs[Where(docs, job).value].intent.state.Pending?
    case Sending(intent, request) =>
      && !called && Holding(docs, tags, k, job, intent) && Cleared(sender) && MayHold(docs, tags, k, job)
      && request == RequestFor(job, intent.correlationId)
    case Awaiting(intent, request) =>
      called && Holding(docs, tags, k, job, intent) && request == RequestFor(job, intent.correlationId)
    case Completing(intent, result, invoked, pc) =>
      && (invoked <==> called) && Holding(docs, tags, k, job, intent) && PcInv(docs, pc)
      && CompletionPc(pc, intent.intentId, Dispatching, result)
      && Expected(intent, result).Valid() && !result.idempotentReplay
      && (!invoked ==> result == UnregisteredResult(intent))
    case Finished(Result(r)) => Settled(docs, tags, k, job, r)
    case Finished(Failed(e)) => e != BrokenContract && (e.PostDispatchPersistence? <==> called)
    case Crashed => true
  }

  /** A sender's provider call, if it made one. */
  predicate CallInv(docs: Store, tags: seq<Tag>, calls: seq<ProviderCall>, k: nat, sender: Sender)
    requires |tags| == |docs| && JobOk(sender.job)
  {
    sender.callAt.Some? ==>
      && sender.callAt.value < |calls| && WonBy(docs, tags, k, sender.job) && Cleared(sender)
      && var intent := docs[Where(docs, sender.job).value].intent;
         && SameRequest(sender.job, intent) && MayHold(docs, tags, k, sender.job)
         && calls[sender.callAt.value] ==
           ProviderCall(k, sender.job.Scope(), sender.job.subject.providerKey,
                        RequestFor(sender.job, intent.correlationId))
  }

  predicate SenderInv(docs: Store, tags: seq<Tag>, calls: seq<ProviderCall>, k: nat, sender: Sender)
    requires |tags| == |docs|
  {
    JobOk(sender.job) && PhaseInv(docs, tags, k, sender) && CallInv(docs, tags, calls, k, sender)
  }

  predicate PastClaim(phase: Phase) {
    phase.Sending? || phase.Awaiting? || phase.Completing? || phase.Finished? || phase.Crashed?
  }

  /** The sender is past the insertion of its intent. */
  predicate PastInsert(phase: Phase) {
    !phase.Looking? && (phase.Creating? ==> phase.pc.CreateConfirm? && phase.pc.created)
  }

  predicate Over(phase: Phase) {
    phase.Finished? || phase.Crashed?
  }

  // ---- Documents ----

  /** The document was created for the tag's job. */
  predicate OriginInv(d: Doc, job: Job) {
    && JobOk(job) && NonBlank(d.intent.correlationId)
    && d.intent.(state := Pending, result := None) == IntentFor(job, d.intent.intentId, d.intent.correlationId)
  }

  predicate CloserInv(senders: seq<Sender>, d: Doc, t: Tag) {
    match t.closer
    case Open => !d.intent.state.IsTerminal()
    case ByPolicy(_) =>
      d.intent.state.Rejected? && t.winner == None && d.intent.result == Some(DeniedResult(d.intent))
    case ByDispatcher(k) =>
      && d.intent.state.IsTerminal() && t.winner == Some(k) && k < |senders| && Over(senders[k].phase)
      && (senders[k].callAt == None ==> d.intent.result == Some(UnregisteredResult(d.intent)))
    case ByRecovery(_, before) =>
      && d.intent.state.Unknown? && t.winner.Some? && d.dispatchStartedAt.Some? && d.dispatchStartedAt.value < before
      && d.intent.result == Some(RecoveredResult(d.intent))
  }

  /** The run that created the document asked for the tag's job. */
  predicate CreatorInv(docs: Store, senders: seq<Sender>, i: nat, t: Tag) {
    && t.creator < |senders| && senders[t.creator].job == t.job
    && Where(docs, t.job) == Some(i) && PastInsert(senders[t.creator].phase)
  }

  predicate DocInv(docs: Store, tags: seq<Tag>, senders: seq<Sender>, i: nat)
    requires i < |docs| == |tags|
  {
    var (d, t) := (docs[i], tags[i]);
    && OriginInv(d, t.job) && CreatorInv(docs, senders, i, t)
    && (t.winner == None <==> d.attempts == [])
    && (t.winner.Some? ==>
          var k := t.winner.value;
          k < |senders| && Where(docs, senders[k].job) == Some(i) && PastClaim(senders[k].phase))
    && CloserInv(senders, d, t)
    && (d.intent.result.Some? ==> !d.intent.result.value.idempotentReplay)
  }

  predicate LogInv(senders: seq<Sender>, calls: seq<ProviderCall>, e: nat)
    requires e < |calls|
  {
    calls[e].sender < |senders| && senders[calls[e].sender].callAt == Some(e)
  }

  // ---- Recovery callers ----

  /** A document as the recovery query read it, stale then, and stored still, if perhaps closed since. */
  predicate Listed(docs: Store, before: int, d: Doc) {
    && WellFormed(d) && Recovery.Stale(d, before) && Holds(docs, d.intent.intentId)
    && DocEvolves(d, docs[Find(docs, ById(d.intent.intentId)).value])
  }

  predicate RecovererInv(docs: Store, r: Recoverer) {
    r.Working? ==>
      && r.todo != [] && (forall d <- r.todo :: Listed(docs, r.before, d))
      && PcInv(docs, r.pc)
      && CompletionPc(r.pc, r.todo[0].intent.intentId, Dispatching, RecoveredResult(r.todo[0].intent))
  }

  function Count(r: Recoverer): nat {
    match r
    case Scanning(_, _) => 0
    case Working(_, _, _, n) => n
    case Done(n) => n
    case Broken(n) => n
  }

  function TotalRecovered(rs: seq<Recoverer>): nat {
    if rs == [] then 0 else Count(rs[0]) + TotalRecovered(rs[1..])
  }

  function CountRecovered(tags: seq<Tag>): nat {
    if tags == [] then 0 else (if tags[0].closer.ByRecovery? then 1 else 0) + CountRecovered(tags[1..])
  }

  // ---- The invariant ----

  predicate Inv(s: System) {
    && StoreInv(s.docs) && |s.tags| == |s.docs|
    && (forall k :: 0 <= k < |s.senders| ==> SenderInv(s.docs, s.tags, s.calls, k, s.senders[k]))
    && (forall i :: 0 <= i < |s.docs| ==> DocInv(s.docs, s.tags, s.senders, i))
    && (forall e :: 0 <= e < |s.calls| ==> LogInv(s.senders, s.calls, e))
    && (forall r :: 0 <= r < |s.recoverers| ==> RecovererInv(s.docs, s.recoverers[r]))
    && TotalRecovered(s.recoverers) + s.lost == CountRecovered(s.tags)
  }

  // ---- What other callers see of a step ----

  predicate TagEvolves(a: Tag, b: Tag) {
    && b.job == a.job && b.creator == a.creator
    && (a.winner.Some? ==> b.winner == a.winner)
    && (!a.closer.Open? ==> b.closer == a.closer)
  }

  predicate TagsEvolve(tags: seq<Tag>, tags': seq<Tag>) {
    |tags| <= |tags'| && forall i :: 0 <= i < |tags| ==> TagEvolves(tags[i], tags'[i])
  }

  predicate SenderEvolves(a: Sender, b: Sender) {
    && b.job == a.job
    && (PastClaim(a.phase) ==> PastClaim(b.phase))
    && (PastInsert(a.phase) ==> PastInsert(b.phase))
    && (Over(a.phase) ==> Over(b.phase) && b.callAt == a.callAt)
  }

  lemma WhereStable(docs: Store, docs': Store, job: Job)
    requires StoreInv(docs) && StoreInv(docs') && Evolves(docs, docs') && Where(docs, job).Some?
    ensures Where(docs', job) == Where(docs, job)
    ensures DocEvolves(docs[Where(docs, job).value], docs'[Where(docs, job).value])
  {
    FindStable(docs, docs', ByScope(job.Scope()));
  }

  lemma OnDocStable(docs: Store, docs': Store, job: Job, intent: MessageIntent)
    requires StoreInv(docs) && StoreInv(docs') && Evolves(docs, docs') && JobOk(job) && OnDoc(docs, job, intent)
    ensures OnDoc(docs', job, intent)
  {
    WhereStable(docs, docs', job);
  }

  /** A sender that does not move keeps its invariant while others do. */
  lemma SenderStable(s: System, t: System, k: nat, sender: Sender)
    requires StoreInv(s.docs) && StoreInv(t.docs) && Evolves(s.docs, t.docs)
    requires |s.tags| == |s.docs| && |t.tags| == |t.docs| && TagsEvolve(s.tags, t.tags)
    requires |s.calls| <= |t.calls| && forall e :: 0 <= e < |s.calls| ==> t.calls[e] == s.calls[e]
    requires SenderInv(s.docs, s.tags, s.calls, k, sender)
    ensures SenderInv(t.docs, t.tags, t.calls, k, sender)
  {
    if Where(s.docs, sender.job).Some? {
      WhereStable(s.docs, t.docs, sender.job);
      assert TagEvolves(s.tags[Where(s.docs, sender.job).value], t.tags[Where(s.docs, sender.job).value]);
    }
    if PcOf(sender.phase).Some? {
      PcInvStable(s.docs, t.docs, PcOf(sender.phase).value);
    }
    PhaseStable(s, t, k, sender);
  }

  lemma ResultIsTerminal(docs: Store, i: nat)
    requires StoreInv(docs) && i < |docs| && docs[i].intent.result.Some?
    ensures docs[i].intent.state.IsTerminal()
  {
    hide NonBlank;
    assert WellFormed(docs[i]);
  }

  lemma PhaseStable(s: System, t: System, k: nat, sender: Sender)
    requires StoreInv(s.docs) && StoreInv(t.docs) && Evolves(s.docs, t.docs)
    requires |s.tags| == |s.docs| && |t.tags| == |t.docs| && TagsEvolve(s.tags, t.tags)
    requires JobOk(sender.job) && PhaseInv(s.docs, s.tags, k, sender)
    requires PcOf(sender.phase).Some? ==> PcInv(t.docs, PcOf(sender.phase).value)
    ensures PhaseInv(t.docs, t.tags, k, sender)
  {
    hide NonBlank, FingerprintOf, PcInv, StoreInv, Evolves, JobOk, IsSensitive, CompletionPc, Serialization.Serialize,
      UnregisteredResult, DeniedResult, IntentFor, RequestFor;
    var job := sender.job;
    if Where(s.docs, job).Some? {
      WhereStable(s.docs, t.docs, job);
      assert TagEvolves(s.tags[Where(s.docs, job).value], t.tags[Where(s.docs, job).value]);
    }
    match sender.phase
    case Creating(_, pc) =>
      if pc.CreateConfirm? && pc.created {
        OnDocStable(s.docs, t.docs, job, pc.intent);
      }
    case Policy(intent, _) => OnDocStable(s.docs, t.docs, job, intent);
    case Session(intent, _) => OnDocStable(s.docs, t.docs, job, intent);
    case Denying(intent, _) => OnDocStable(s.docs, t.docs, job, intent);
    case Claiming(intent, _, _) => OnDocStable(s.docs, t.docs, job, intent);
    case Resolving(intent, _) => OnDocStable(s.docs, t.docs, job, intent);
    case Sending(intent, _) => OnDocStable(s.docs, t.docs, job, intent);
    case Awaiting(intent, _) => OnDocStable(s.docs, t.docs, job, intent);
    case Completing(intent, _, _, _) => OnDocStable(s.docs, t.docs, job, intent);
    case Finished(Result(_)) => ResultIsTerminal(s.docs, Where(s.docs, job).value);
    case _ =>
  }

  lemma CreatorStable(s: System, t: System, i: nat)
    requires StoreInv(s.docs) && StoreInv(t.docs) && Evolves(s.docs, t.docs)
    requires i < |s.docs| == |s.tags| && |t.docs| == |t.tags| && TagEvolves(s.tags[i], t.tags[i])
    requires |s.senders| <= |t.senders| && forall k :: 0 <= k < |s.senders| ==>
             SenderEvolves(s.senders[k], t.senders[k])
    requires CreatorInv(s.docs, s.senders, i, s.tags[i])
    ensures CreatorInv(t.docs, t.senders, i, t.tags[i])
  {
    assert SenderEvolves(s.senders[s.tags[i].creator], t.senders[s.tags[i].creator]);
    WhereStable(s.docs, t.docs, s.tags[i].job);
  }

  /** A document that a step leaves alone keeps its invariant. */
  lemma DocStable(s: System, t: System, i: nat)
    requires StoreInv(s.docs) && StoreInv(t.docs) && Evolves(s.docs, t.docs)
    requires i < |s.docs| == |s.tags| && |t.docs| == |t.tags| && t.docs[i] == s.docs[i] && t.tags[i] == s.tags[i]
    requires |s.senders| <= |t.senders| && forall k :: 0 <= k < |s.senders| ==>
             SenderEvolves(s.senders[k], t.senders[k])
    requires DocInv(s.docs, s.tags, s.senders, i)
    ensures DocInv(t.docs, t.tags, t.senders, i)
  {
    var tag := s.tags[i];
    assert SenderEvolves(s.senders[tag.creator], t.senders[tag.creator]);
    WhereStable(s.docs, t.docs, tag.job);
    if tag.winner.Some? {
      var k := tag.winner.value;
      assert SenderEvolves(s.senders[k], t.senders[k]);
      WhereStable(s.docs, t.docs, s.senders[k].job);
    }
  }

  lemma ListedStable(docs: Store, docs': Store, before: int, d: Doc)
    requires StoreInv(docs) && StoreInv(docs') && Evolves(docs, docs') && Listed(docs, before, d)
    ensures Listed(docs', before, d)
  {
    hide NonBlank, WellFormed;
    var i := Find(docs, ById(d.intent.intentId)).value;
    FindStable(docs, docs', ById(d.intent.intentId));
    assert DocEvolves(d, docs[i]) && DocEvolves(docs[i], docs'[i]);
  }

  lemma RecovererStable(docs: Store, docs': Store, r: Recoverer)
    requires StoreInv(docs) && StoreInv(docs') && Evolves(docs, docs') && RecovererInv(docs, r)
    ensures RecovererInv(docs', r)
  {
    if r.Working? {
      PcInvStable(docs, docs', r.pc);
      forall d <- r.todo ensures Listed(docs', r.before, d) {
        ListedStable(docs, docs', r.before, d);
      }
    }
  }

  // ---- Counting recoveries ----

  lemma {:induction false} CountRetagged(tags: seq<Tag>, i: nat, t: Tag)
    requires i < |tags|
    ensures CountRecovered(tags[i := t]) + (if tags[i].closer.ByRecovery? then 1 else 0) ==
            CountRecovered(tags) + (if t.closer.ByRecovery? then 1 else 0)
  {
    if i > 0 {
      CountRetagged(tags[1..], i - 1, t);
      assert tags[i := t][1..] == tags[1..][i - 1 := t];
    } else {
      assert tags[i := t][1..] == tags[1..];
    }
  }

  lemma {:induction false} CountAppended(tags: seq<Tag>, t: Tag)
    ensures CountRecovered(tags + [t]) == CountRecovered(tags) + (if t.closer.ByRecovery? then 1 else 0)
  {
    if tags == [] {
      assert tags + [t] == [t];
    } else {
      CountAppended(tags[1..], t);
      assert (tags + [t])[1..] == tags[1..] + [t];
    }
  }

  lemma {:induction false} TotalUpdated(rs: seq<Recoverer>, i: nat, r: Recoverer)
    requires i < |rs|
    ensures TotalRecovered(rs[i := r]) + Count(rs[i]) == TotalRecovered(rs) + Count(r)
  {
    if i > 0 {
      TotalUpdated(rs[1..], i - 1, r);
      assert rs[i := r][1..] == rs[1..][i - 1 := r];
    } else {
      assert rs[i := r][1..] == rs[1..];
    }
  }

  lemma {:induction false} TotalAppended(rs: seq<Recoverer>, r: Recoverer)
    ensures TotalRecovered(rs + [r]) == TotalRecovered(rs) + Count(r)
  {
    if rs == [] {
      assert rs + [r] == [r];
    } else {
      TotalAppended(rs[1..], r);
      assert (rs + [r])[1..] == rs[1..] + [r];
    }
  }
}
