// The Mongo repository against the in-memory one: any number of callers, their collection
// operations interleaved in any order, with database failures before or after any operation.
module Linearization {
  import opened Wrappers
  import opened Text
  import opened Contracts
  import opened IntentRecords
  import opened IntentStore
  import opened MemoryRepository

  // ---- The abstract state of a collection ----

  function Scopes(docs: Store): set<Scope> {
    set i | 0 <= i < |docs| :: docs[i].intent.Key()
  }

  function Ids(docs: Store): set<string> {
    set i | 0 <= i < |docs| :: docs[i].intent.intentId
  }

  /** The intent of the document that a query finds. */
  function IntentBy(docs: Store, q: Query): MessageIntent
    requires Find(docs, q).Some?
  {
    docs[Find(docs, q).value].intent
  }

  function ByScopes(docs: Store): map<Scope, MessageIntent> {
    map s | s in Scopes(docs) :: IntentBy(docs, ByScope(s))
  }

  function ByIds(docs: Store): map<string, Scope> {
    map id | id in Ids(docs) :: IntentBy(docs, ById(id)).Key()
  }

  /** The in-memory state that a collection stands for. */
  function Abs(docs: Store): Memory {
    Memory(ByScopes(docs), ByIds(docs))
  }

  lemma ScopeFound(docs: Store, s: Scope)
    ensures s in ByScopes(docs) <==> Find(docs, ByScope(s)).Some?
    ensures s in ByScopes(docs) ==> ByScopes(docs)[s] == IntentBy(docs, ByScope(s))
  {
  }

  lemma IdFound(docs: Store, id: string)
    ensures id in ByIds(docs) <==> Find(docs, ById(id)).Some?
    ensures id in ByIds(docs) ==> ByIds(docs)[id] == IntentBy(docs, ById(id)).Key()
  {
  }

  lemma {:induction false} FindSame(docs: Store, docs': Store, q: Query, from: nat)
    requires from <= |docs| == |docs'| && forall j :: 0 <= j < |docs| ==> Matches(docs[j], q) == Matches(docs'[j], q)
    ensures FindFrom(docs, q, from) == FindFrom(docs', q, from)
    decreases |docs| - from
  {
    if from < |docs| {
      FindSame(docs, docs', q, from + 1);
    }
  }

  lemma ScopeReplaced(docs: Store, i: nat, d: Doc, s: Scope)
    requires StoreInv(docs) && i < |docs| && DocEvolves(docs[i], d)
    ensures s in ByScopes(docs[i := d]) <==> s in ByScopes(docs)[d.intent.Key() := d.intent]
    ensures s in ByScopes(docs[i := d]) ==> ByScopes(docs[i := d])[s] == ByScopes(docs)[d.intent.Key() := d.intent][s]
  {
    FindUnique(docs, ByScope(d.intent.Key()), i);
    FindSame(docs, docs[i := d], ByScope(s), 0);
    ScopeFound(docs, s);
    ScopeFound(docs[i := d], s);
  }

  lemma IdReplaced(docs: Store, i: nat, d: Doc, id: string)
    requires StoreInv(docs) && i < |docs| && DocEvolves(docs[i], d)
    ensures id in ByIds(docs[i := d]) <==> id in ByIds(docs)
    ensures id in ByIds(docs) ==> ByIds(docs[i := d])[id] == ByIds(docs)[id]
  {
    FindSame(docs, docs[i := d], ById(id), 0);
    IdFound(docs, id);
    IdFound(docs[i := d], id);
  }

  lemma MapsAgree<K(!new), V>(m: map<K, V>, n: map<K, V>)
    requires forall k :: k in m <==> k in n
    requires forall k :: k in m && k in n ==> m[k] == n[k]
    ensures m == n
  {
  }

  lemma ScopesReplaced(docs: Store, i: nat, d: Doc)
    requires StoreInv(docs) && i < |docs| && DocEvolves(docs[i], d)
    ensures ByScopes(docs[i := d]) == ByScopes(docs)[d.intent.Key() := d.intent]
  {
    var scopes, scopes' := ByScopes(docs)[d.intent.Key() := d.intent], ByScopes(docs[i := d]);
    forall s: Scope ensures (s in scopes' <==> s in scopes) && (s in scopes' ==> scopes'[s] == scopes[s]) {
      ScopeReplaced(docs, i, d, s);
    }
    MapsAgree(scopes', scopes);
  }

  lemma IdsReplaced(docs: Store, i: nat, d: Doc)
    requires StoreInv(docs) && i < |docs| && DocEvolves(docs[i], d)
    ensures ByIds(docs[i := d]) == ByIds(docs)
  {
    var ids, ids' := ByIds(docs), ByIds(docs[i := d]);
    forall id: string ensures (id in ids' <==> id in ids) && (id in ids ==> ids'[id] == ids[id]) {
      IdReplaced(docs, i, d, id);
    }
    MapsAgree(ids', ids);
  }

  /** Replacing one document replaces one intent. */
  lemma AbsReplace(docs: Store, i: nat, d: Doc)
    requires StoreInv(docs) && i < |docs| && DocEvolves(docs[i], d)
    ensures Abs(docs[i := d]) == Abs(docs).(byScope := Abs(docs).byScope[d.intent.Key() := d.intent])
  {
    ScopesReplaced(docs, i, d);
    IdsReplaced(docs, i, d);
  }

  lemma {:induction false} FindAppended(docs: Store, d: Doc, q: Query, from: nat)
    requires from <= |docs|
    ensures FindFrom(docs + [d], q, from) ==
            if FindFrom(docs, q, from).Some? then FindFrom(docs, q, from)
            else if Matches(d, q) then Some(|docs|) else None
    decreases |docs| - from
  {
    if from < |docs| {
      assert (docs + [d])[from] == docs[from];
      FindAppended(docs, d, q, from + 1);
    } else {
      assert (docs + [d])[|docs|] == d;
    }
  }

  lemma ScopeInserted(docs: Store, d: Doc, s: Scope)
    requires Find(docs, ByScope(d.intent.Key())) == None
    ensures s in ByScopes(docs + [d]) <==> s in ByScopes(docs)[d.intent.Key() := d.intent]
    ensures s in ByScopes(docs + [d]) ==> ByScopes(docs + [d])[s] == ByScopes(docs)[d.intent.Key() := d.intent][s]
  {
    FindAppended(docs, d, ByScope(s), 0);
    ScopeFound(docs, s);
    ScopeFound(docs + [d], s);
  }

  lemma IdInserted(docs: Store, d: Doc, id: string)
    requires Find(docs, ById(d.intent.intentId)) == None
    ensures id in ByIds(docs + [d]) <==> id in ByIds(docs)[d.intent.intentId := d.intent.Key()]
    ensures id in ByIds(docs + [d]) ==> ByIds(docs + [d])[id] == ByIds(docs)[d.intent.intentId := d.intent.Key()][id]
  {
    FindAppended(docs, d, ById(id), 0);
    IdFound(docs, id);
    IdFound(docs + [d], id);
  }

  /** Inserting a document with a free scope and identifier adds one intent. */
  lemma AbsInsert(docs: Store, d: Doc)
    requires Find(docs, ByScope(d.intent.Key())) == None && Find(docs, ById(d.intent.intentId)) == None
    ensures Abs(docs + [d]) == Memory(
              Abs(docs).byScope[d.intent.Key() := d.intent],
              Abs(docs).scopeById[d.intent.intentId := d.intent.Key()])
  {
    var scopes, scopes' := ByScopes(docs)[d.intent.Key() := d.intent], ByScopes(docs + [d]);
    forall s: Scope ensures (s in scopes' <==> s in scopes) && (s in scopes' ==> scopes'[s] == scopes[s]) {
      ScopeInserted(docs, d, s);
    }
    var ids, ids' := ByIds(docs)[d.intent.intentId := d.intent.Key()], ByIds(docs + [d]);
    forall id: string ensures (id in ids' <==> id in ids) && (id in ids ==> ids'[id] == ids[id]) {
      IdInserted(docs, d, id);
    }
    MapsAgree(scopes', scopes);
    MapsAgree(ids', ids);
  }

  // ---- Concurrent callers ----

  /**
   * A caller's operation. `committed` is the answer of the atomic operation performed on its behalf,
   * once it has been.
   */
  datatype Client = Client(call: Call, pc: Pc, committed: Option<Response>)

  /** The collection, the in-memory repository that shadows it, and the callers. */
  datatype System = System(docs: Store, memory: Memory, clients: seq<Client>)

  datatype Event =
    | Invoke(call: Call)
    | Move(client: nat, now: int, fault: Fault)

  /** The step of a call at which it takes effect, if the database performs the operation. */
  predicate Commits(docs: Store, pc: Pc, now: int) {
    var next := Op(docs, pc, now).pc;
    match pc
    case GetRead(_) => true
    case CreateUpsert(_) => next.CreateConfirm?
    case CreateDuplicate(intent) => !next.response.Raised? || Holds(docs, intent.intentId)
    case ClaimRead(_) => next.Returned?
    case ClaimWrite(_, _) => now >= 0
    case CompleteRead(_, _, _) => next.Returned?
    case CompleteWrite(_, _, _, _) => now >= 0
    case _ => false
  }

  /** The repository's callers complete from PENDING or DISPATCHING, and create pending intents. */
  predicate CallAllowed(call: Call) {
    && CallTyped(call)
    && (call.Create? ==> call.intent.state.Pending?)
    && (call.Complete? ==> !call.expected.IsTerminal())
  }

  predicate EventAllowed(e: Event) {
    e.Invoke? ==> CallAllowed(e.call)
  }

  function NextSystem(s: System, e: Event): System {
    match e
    case Invoke(call) => s.(clients := s.clients + [Client(call, Start(call), None)])
    case Move(k, now, fault) =>
      if k >= |s.clients| || s.clients[k].pc.Returned? then s
      else
        var pc := s.clients[k].pc;
        Record(s, k, Advance(s.docs, pc, now, fault), !fault.FailBefore? && Commits(s.docs, pc, now))
  }

  /** The system after a step of a client, at which its call took effect or not. */
  function Record(s: System, k: nat, step: Step, commits: bool): System
    requires k < |s.clients|
  {
    var c := s.clients[k];
    var effect := MemoryCall(s.memory, c.call);
    System(
      step.docs,
      if commits then effect.memory else s.memory,
      s.clients[k := Client(c.call, step.pc, if commits then Some(effect.response) else c.committed)])
  }

  function Initial(): System {
    System([], Memory(map[], map[]), [])
  }

  /** The states that a run passes through, and the events between them. */
  datatype Run = Run(states: seq<System>, events: seq<Event>)

  predicate StepsAt(r: Run, n: nat)
    requires |r.states| == |r.events| + 1 && n < |r.events|
  {
    EventAllowed(r.events[n]) && r.states[n + 1] == NextSystem(r.states[n], r.events[n])
  }

  predicate IsRun(r: Run) {
    && |r.states| == |r.events| + 1 && r.states[0] == Initial()
    && forall n :: 0 <= n < |r.events| ==> StepsAt(r, n)
  }

  /** The answer given agrees with the atomic one; a created intent may have advanced since. */
  predicate Agrees(given: Response, atomic: Response) {
    given == atomic ||
    (given.Created? && atomic.Created? && given.created == atomic.created && IntentEvolves(atomic.intent, given.intent))
  }

  predicate PcOf(call: Call, pc: Pc) {
    match pc
    case GetRead(scope) => call == Get(scope)
    case CreateUpsert(intent) => call == Create(intent)
    case CreateConfirm(intent, _) => call == Create(intent)
    case CreateDuplicate(intent) => call == Create(intent)
    case ClaimRead(id) => call == Claim(id)
    case ClaimWrite(id, _) => call == Claim(id)
    case CompleteRead(id, expected, result) => call == Complete(id, expected, result)
    case CompleteWrite(id, expected, result, _) => call == Complete(id, expected, result)
    case Returned(_) => true
  }

  predicate ClientInv(docs: Store, c: Client) {
    && CallAllowed(c.call)
    && PcOf(c.call, c.pc)
    && PcInv(docs, c.pc)
    && match c.pc
       case Returned(r) =>
         if c.committed == None then r.Raised?
         else r == Raised(Unavailable) || Agrees(r, c.committed.value)
       case CreateConfirm(intent, created) =>
         && c.committed.Some? && c.committed.value.Created? && c.committed.value.created == created
         && IntentEvolves(c.committed.value.intent, IntentBy(docs, ByScope(intent.Key())))
       case _ => c.committed == None
  }

  predicate SystemInv(s: System) {
    && StoreInv(s.docs)
    && s.memory == Abs(s.docs)
    && forall k :: 0 <= k < |s.clients| ==> ClientInv(s.docs, s.clients[k])
  }

  lemma ClientStable(docs: Store, docs': Store, c: Client)
    requires StoreInv(docs) && StoreInv(docs') && Evolves(docs, docs') && ClientInv(docs, c)
    ensures ClientInv(docs', c)
  {
    PcInvStable(docs, docs', c.pc);
    if c.pc.CreateConfirm? {
      var q := ByScope(c.pc.intent.Key());
      FindStable(docs, docs', q);
      assert DocEvolves(docs[Find(docs, q).value], docs'[Find(docs, q).value]);
    }
  }

  lemma CommitUpsert(docs: Store, intent: MessageIntent, now: int)
    requires StoreInv(docs) && CallAllowed(Create(intent))
    ensures var (step, effect) := (Upsert(docs, intent, now), MemoryCreate(Abs(docs), intent));
            if Commits(docs, CreateUpsert(intent), now) then
              && effect.memory == Abs(step.docs)
              && effect.response.Created? && effect.response.created == step.pc.created
              && Find(step.docs, ByScope(intent.Key())).Some?
              && effect.response.intent == IntentBy(step.docs, ByScope(intent.Key()))
            else
              step.docs == docs && (step.pc == CreateDuplicate(intent)
                                    || (step.pc.Returned? && step.pc.response.Raised?))
  {
    ScopeFound(docs, intent.Key());
    IdFound(docs, intent.intentId);
    if Find(docs, ByScope(intent.Key())) == None && !IdentityTaken(docs, intent) && now >= 0 {
      var d := NewDoc(intent, now);
      InsertKeepsStore(docs, intent, now);
      FindUnique(docs + [d], ByScope(intent.Key()), |docs|);
      AbsInsert(docs, d);
    }
  }

  lemma CommitDuplicate(docs: Store, intent: MessageIntent, now: int)
    requires StoreInv(docs)
    ensures var (step, effect) := (Op(docs, CreateDuplicate(intent), now), MemoryCreate(Abs(docs), intent));
            && step.docs == docs && step.pc.Returned?
            && (if Commits(docs, CreateDuplicate(intent), now) then
                  effect == Effect(Abs(docs), step.pc.response)
                else step.pc.response.Raised?)
  {
    IdFound(docs, intent.intentId);
    ScopeFound(docs, intent.Key());
  }

  lemma CommitGet(docs: Store, scope: Scope, now: int)
    requires StoreInv(docs)
    ensures var step := Op(docs, GetRead(scope), now);
            && step.docs == docs && step.pc.Returned?
            && MemoryGet(Abs(docs), scope) == Effect(Abs(docs), step.pc.response)
  {
    ScopeFound(docs, scope);
  }

  lemma IdGivesIntent(docs: Store, id: string)
    requires StoreInv(docs)
    ensures id in Abs(docs).scopeById <==> Holds(docs, id)
    ensures Holds(docs, id) ==>
              && Abs(docs).scopeById[id] == IntentOf(docs, id).Key()
              && Abs(docs).scopeById[id] in Abs(docs).byScope
              && Abs(docs).byScope[Abs(docs).scopeById[id]] == IntentOf(docs, id)
  {
    IdFound(docs, id);
    if Holds(docs, id) {
      var i := Find(docs, ById(id)).value;
      FindUnique(docs, ByScope(docs[i].intent.Key()), i);
      ScopeFound(docs, docs[i].intent.Key());
    }
  }

  lemma CommitClaimRead(docs: Store, id: string)
    requires StoreInv(docs)
    ensures var step := ReadForClaim(docs, id);
            && step.docs == docs
            && (step.pc.Returned? ==> MemoryClaim(Abs(docs), id) == Effect(Abs(docs), step.pc.response))
  {
    IdGivesIntent(docs, id);
  }

  lemma CommitClaimWrite(docs: Store, id: string, n: int, now: int)
    requires StoreInv(docs) && PcInv(docs, ClaimWrite(id, n))
    ensures var step := WriteClaim(docs, id, n, now);
            if now >= 0 then
              step.pc.Returned? && MemoryClaim(Abs(docs), id) == Effect(Abs(step.docs), step.pc.response)
            else
              step == Raise(docs, BadClock)
  {
    IdGivesIntent(docs, id);
    ClaimKeepsStore(docs, id, n, now);
    var i := Find(docs, ById(id)).value;
    if now >= 0 && docs[i].intent.state.Pending? {
      AbsReplace(docs, i, ClaimedDoc(docs[i], 0, now));
    }
  }

  lemma CompleteReadCases(docs: Store, id: string, expected: IntentState, result: DispatchResult, now: int)
    requires StoreInv(docs) && !expected.IsTerminal()
    ensures var step := ReadForCompletion(docs, id, expected, result, now);
            if !Holds(docs, id) || IntentOf(docs, id).state != expected then step == Nothing(docs)
            else if !IntentOf(docs, id).Matches(result) then step == Raise(docs, IdentityConflict)
            else
              && step.docs == docs && step.pc.CompleteWrite?
              && step.pc == CompleteWrite(id, expected, result, step.pc.active)
  {
    var found := Find(docs, ByIdInState(id, expected));
    if found.Some? {
      FindUnique(docs, ById(id), found.value);
    } else if Holds(docs, id) {
      assert !Matches(docs[Find(docs, ById(id)).value], ByIdInState(id, expected));
    }
  }

  lemma CommitCompleteRead(docs: Store, id: string, expected: IntentState, result: DispatchResult, now: int)
    requires StoreInv(docs) && !expected.IsTerminal()
    ensures var step := ReadForCompletion(docs, id, expected, result, now);
            && step.docs == docs
            && (step.pc.Returned? ==>
                  MemoryComplete(Abs(docs), id, expected, result) == Effect(Abs(docs), step.pc.response))
  {
    IdGivesIntent(docs, id);
    CompleteReadCases(docs, id, expected, result, now);
  }

  lemma MemoryCompletes(docs: Store, id: string, expected: IntentState, result: DispatchResult)
    requires StoreInv(docs) && Holds(docs, id) && IntentOf(docs, id).Matches(result)
    ensures MemoryComplete(Abs(docs), id, expected, result) ==
            if IntentOf(docs, id).state != expected then Effect(Abs(docs), Found(None))
            else
              var intent := IntentOf(docs, id).(state := TerminalState(result.disposition), result := Some(result));
              Effect(Abs(docs).(byScope := Abs(docs).byScope[intent.Key() := intent]), Found(Some(intent)))
  {
    IdGivesIntent(docs, id);
  }

  lemma CommitCompleteWrite(
    docs: Store, id: string, expected: IntentState, result: DispatchResult, active: Option<nat>, now: int)
    requires StoreInv(docs) && PcInv(docs, CompleteWrite(id, expected, result, active))
    ensures var step := WriteCompletion(docs, id, expected, result, active, now);
            if now >= 0 then
              && step.pc.Returned?
              && MemoryComplete(Abs(docs), id, expected, result) == Effect(Abs(step.docs), step.pc.response)
            else
              step == Raise(docs, BadClock)
  {
    MemoryCompletes(docs, id, expected, result);
    CompletionKeepsStore(docs, id, expected, result, active, now);
    var i := Find(docs, ById(id)).value;
    if now >= 0 && docs[i].intent.state == expected {
      CompletedEvolves(docs[i], result, active, now);
      AbsReplace(docs, i, CompletedDoc(docs[i], active, result, now));
    }
  }

  lemma CompletedEvolves(d: Doc, result: DispatchResult, active: Option<nat>, now: int)
    requires !d.intent.state.IsTerminal()
    ensures DocEvolves(d, CompletedDoc(d, active, result, now))
  {
  }

  /** A step at which the call takes effect is the atomic operation; any other step has no effect. */
  predicate Refines(docs: Store, c: Client, now: int) {
    var (step, effect) := (Op(docs, c.pc, now), MemoryCall(Abs(docs), c.call));
    if Commits(docs, c.pc, now) then
      effect.memory == Abs(step.docs) && ClientInv(step.docs, Client(c.call, step.pc, Some(effect.response)))
    else
      step.docs == docs && ClientInv(docs, Client(c.call, step.pc, c.committed))
  }

  lemma GetReadRefines(docs: Store, c: Client, now: int)
    requires StoreInv(docs) && ClientInv(docs, c) && c.pc.GetRead?
    ensures Refines(docs, c, now)
  {
    OpKeepsStore(docs, c.pc, now);
    CommitGet(docs, c.pc.scope, now);
  }

  lemma CreateUpsertRefines(docs: Store, c: Client, now: int)
    requires StoreInv(docs) && ClientInv(docs, c) && c.pc.CreateUpsert?
    ensures Refines(docs, c, now)
  {
    hide NonBlank, WellFormed, Abs, IdentityTaken, NewDoc;
    OpKeepsStore(docs, c.pc, now);
    CommitUpsert(docs, c.pc.intent, now);
  }

  lemma CreateConfirmRefines(docs: Store, c: Client, now: int)
    requires StoreInv(docs) && ClientInv(docs, c) && c.pc.CreateConfirm?
    ensures Refines(docs, c, now)
  {
    OpKeepsStore(docs, c.pc, now);
    WellFormedDecodes(docs[Find(docs, ByScope(c.pc.intent.Key())).value]);
  }

  lemma CreateDuplicateRefines(docs: Store, c: Client, now: int)
    requires StoreInv(docs) && ClientInv(docs, c) && c.pc.CreateDuplicate?
    ensures Refines(docs, c, now)
  {
    OpKeepsStore(docs, c.pc, now);
    CommitDuplicate(docs, c.pc.intent, now);
  }

  lemma ClaimReadRefines(docs: Store, c: Client, now: int)
    requires StoreInv(docs) && ClientInv(docs, c) && c.pc.ClaimRead?
    ensures Refines(docs, c, now)
  {
    OpKeepsStore(docs, c.pc, now);
    CommitClaimRead(docs, c.pc.id);
  }

  lemma ClaimWriteRefines(docs: Store, c: Client, now: int)
    requires StoreInv(docs) && ClientInv(docs, c) && c.pc.ClaimWrite?
    ensures Refines(docs, c, now)
  {
    OpKeepsStore(docs, c.pc, now);
    CommitClaimWrite(docs, c.pc.id, c.pc.attemptCount, now);
  }

  lemma CompleteReadRefines(docs: Store, c: Client, now: int)
    requires StoreInv(docs) && ClientInv(docs, c) && c.pc.CompleteRead?
    ensures Refines(docs, c, now)
  {
    OpKeepsStore(docs, c.pc, now);
    CommitCompleteRead(docs, c.pc.id, c.pc.expected, c.pc.result, now);
  }

  lemma CompleteWriteRefines(docs: Store, c: Client, now: int)
    requires StoreInv(docs) && ClientInv(docs, c) && c.pc.CompleteWrite?
    ensures Refines(docs, c, now)
  {
    hide NonBlank, WellFormed, CompletedDoc, Abs, OptionalText;
    OpKeepsStore(docs, c.pc, now);
    CommitCompleteWrite(docs, c.pc.id, c.pc.expected, c.pc.result, c.pc.active, now);
  }

  lemma OpRefines(docs: Store, c: Client, now: int)
    requires StoreInv(docs) && ClientInv(docs, c) && !c.pc.Returned?
    ensures Refines(docs, c, now)
  {
    match c.pc
    case GetRead(_) => GetReadRefines(docs, c, now);
    case CreateUpsert(_) => CreateUpsertRefines(docs, c, now);
    case CreateConfirm(_, _) => CreateConfirmRefines(docs, c, now);
    case CreateDuplicate(_) => CreateDuplicateRefines(docs, c, now);
    case ClaimRead(_) => ClaimReadRefines(docs, c, now);
    case ClaimWrite(_, _) => ClaimWriteRefines(docs, c, now);
    case CompleteRead(_, _, _) => CompleteReadRefines(docs, c, now);
    case CompleteWrite(_, _, _, _) => CompleteWriteRefines(docs, c, now);
  }

  lemma LostAnswer(docs: Store, call: Call, committed: Option<Response>)
    requires CallAllowed(call)
    ensures ClientInv(docs, Client(call, Returned(Raised(Unavailable)), committed))
  {
  }

  predicate RecordKeeps(s: System, k: nat, step: Step, commits: bool)
    requires k < |s.clients|
  {
    var t := Record(s, k, step, commits);
    t.memory == Abs(t.docs) && ClientInv(t.docs, t.clients[k])
  }

  lemma FailureKeeps(s: System, k: nat, step: Step, commits: bool)
    requires SystemInv(s) && k < |s.clients| && step.pc == Returned(Raised(Unavailable))
    requires (if commits then MemoryCall(s.memory, s.clients[k].call).memory else s.memory) == Abs(step.docs)
    ensures RecordKeeps(s, k, step, commits)
  {
    var t := Record(s, k, step, commits);
    LostAnswer(step.docs, s.clients[k].call, t.clients[k].committed);
  }

  /** One step of a client: the shadow follows the collection, and the answers agree. */
  lemma MoveKeepsClient(s: System, k: nat, now: int, fault: Fault)
    requires SystemInv(s) && k < |s.clients| && !s.clients[k].pc.Returned?
    ensures var (docs, pc) := (s.docs, s.clients[k].pc);
            RecordKeeps(s, k, Advance(docs, pc, now, fault), !fault.FailBefore? && Commits(docs, pc, now))
  {
    var c := s.clients[k];
    OpRefines(s.docs, c, now);
    match fault
    case NoFault =>
    case FailBefore => FailureKeeps(s, k, Raise(s.docs, Unavailable), false);
    case FailAfter =>
      FailureKeeps(s, k, Raise(Op(s.docs, c.pc, now).docs, Unavailable), Commits(s.docs, c.pc, now));
  }

  lemma NextKeepsSystem(s: System, e: Event)
    requires SystemInv(s) && EventAllowed(e)
    ensures SystemInv(NextSystem(s, e))
    ensures Evolves(s.docs, NextSystem(s, e).docs)
  {
    EvolvesReflexive(s.docs);
    if e.Move? && e.client < |s.clients| && !s.clients[e.client].pc.Returned? {
      MoveKeepsClient(s, e.client, e.now, e.fault);
      AdvanceKeepsStore(s.docs, s.clients[e.client].pc, e.now, e.fault);
      var t := NextSystem(s, e);
      forall j | 0 <= j < |t.clients| && j != e.client ensures ClientInv(t.docs, t.clients[j]) {
        ClientStable(s.docs, t.docs, s.clients[j]);
      }
    }
  }

  /**
   * Over every interleaving of the collection operations of any number of callers, with failures
   * anywhere, the collection always stands for the state of the in-memory repository, to which the
   * atomic operation of a call was applied at one step of that call or, if the call refused, not at
   * all; and every answer that was not lost to a failure is the atomic answer.
   */
  lemma {:induction false} Linearizable(r: Run, p: nat)
    requires IsRun(r) && p < |r.states|
    ensures SystemInv(r.states[p])
  {
    hide NextSystem, Abs;
    if p == 0 {
      InitiallyEmpty();
    } else {
      Linearizable(r, p - 1);
      assert StepsAt(r, p - 1);
      NextKeepsSystem(r.states[p - 1], r.events[p - 1]);
    }
  }

  lemma InitiallyEmpty()
    ensures Abs([]) == Memory(map[], map[])
  {
  }

  /** The same for one caller: what it was told, and what happened. */
  lemma AnswersAreAtomic(r: Run, p: nat, k: nat)
    requires IsRun(r) && p < |r.states|
    requires k < |r.states[p].clients| && r.states[p].clients[k].pc.Returned?
    ensures var c := r.states[p].clients[k];
            || (c.committed == None && c.pc.response.Raised?)
            || (c.committed.Some? && (c.pc.response == Raised(Unavailable) || Agrees(c.pc.response, c.committed.value)))
  {
    Linearizable(r, p);
    assert ClientInv(r.states[p].docs, r.states[p].clients[k]);
  }

  // ---- Callers whose own steps meet no failure ----

  /** The database performs every operation of this caller, and its clock is in order; others may fail. */
  predicate Dependable(r: Run, p: nat, k: nat)
    requires IsRun(r)
  {
    forall n :: 0 <= n < p && n < |r.events| && r.events[n].Move? && r.events[n].client == k ==>
      r.events[n].fault.NoFault? && r.events[n].now >= 0
  }

  /** The intent of another scope has the correlation identifier. */
  predicate CorrelationTaken(docs: Store, intent: MessageIntent) {
    exists j :: 0 <= j < |docs| && docs[j].intent.correlationId == intent.correlationId
      && docs[j].intent.intentId != intent.intentId && docs[j].intent.Key() != intent.Key()
  }

  /** A caller that has met no failure was answered by the atomic operation, or by the extra index. */
  predicate Answered(docs: Store, c: Client) {
    match c.pc
    case CreateDuplicate(intent) => IdentityTaken(docs, intent)
    case Returned(response) =>
      && response != Raised(Unavailable) && (response.Created? ==> c.call.Create?)
      && (c.committed == None ==>
            c.call.Create? && response == Raised(IdentityConflict) && CorrelationTaken(docs, c.call.intent))
    case _ => true
  }

  lemma AnsweredStable(docs: Store, docs': Store, c: Client)
    requires Evolves(docs, docs') && Answered(docs, c)
    ensures Answered(docs', c)
  {
    forall j | 0 <= j < |docs|
      ensures docs'[j].intent.(state := docs[j].intent.state, result := docs[j].intent.result) == docs[j].intent
    {
      assert DocEvolves(docs[j], docs'[j]);
    }
  }

  /** The client after a step of the database. */
  function Stepped(docs: Store, c: Client, now: int): Client {
    Client(c.call, Op(docs, c.pc, now).pc,
           if Commits(docs, c.pc, now) then Some(MemoryCall(Abs(docs), c.call).response) else c.committed)
  }

  lemma CreationAnswers(docs: Store, c: Client, now: int)
    requires StoreInv(docs) && ClientInv(docs, c) && Answered(docs, c) && now >= 0
    requires c.pc.CreateUpsert? || c.pc.CreateConfirm? || c.pc.CreateDuplicate?
    ensures Answered(Op(docs, c.pc, now).docs, Stepped(docs, c, now))
  {
    hide NonBlank, Abs, NewDoc;
    var intent := c.pc.intent;
    if c.pc.CreateDuplicate? {
      if Find(docs, ByScope(intent.Key())) == None && !Holds(docs, intent.intentId) {
        var j :| 0 <= j < |docs| && (docs[j].intent.intentId == intent.intentId
                                     || docs[j].intent.correlationId == intent.correlationId);
        assert !Matches(docs[j], ById(intent.intentId)) && !Matches(docs[j], ByScope(intent.Key()));
      }
    }
  }

  lemma ClaimAnswers(docs: Store, c: Client, now: int)
    requires StoreInv(docs) && ClientInv(docs, c) && now >= 0 && (c.pc.ClaimRead? || c.pc.ClaimWrite? || c.pc.GetRead?)
    ensures Answered(Op(docs, c.pc, now).docs, Stepped(docs, c, now))
  {
    hide NonBlank, Abs, ClaimedDoc;
    if c.pc.ClaimWrite? {
      ClaimKeepsStore(docs, c.pc.id, c.pc.attemptCount, now);
    }
  }

  lemma CompletionAnswers(docs: Store, c: Client, now: int)
    requires StoreInv(docs) && ClientInv(docs, c) && now >= 0 && (c.pc.CompleteRead? || c.pc.CompleteWrite?)
    ensures Answered(Op(docs, c.pc, now).docs, Stepped(docs, c, now))
  {
    hide NonBlank, Abs, CompletedDoc;
    if c.pc.CompleteWrite? {
      CompletionKeepsStore(docs, c.pc.id, c.pc.expected, c.pc.result, c.pc.active, now);
    } else {
      CompleteReadCases(docs, c.pc.id, c.pc.expected, c.pc.result, now);
    }
  }

  lemma OpAnswers(docs: Store, c: Client, now: int)
    requires StoreInv(docs) && ClientInv(docs, c) && Answered(docs, c) && now >= 0 && !c.pc.Returned?
    ensures Answered(Op(docs, c.pc, now).docs, Stepped(docs, c, now))
  {
    hide Op, Stepped, Answered, ClientInv, StoreInv;
    if c.pc.CreateUpsert? || c.pc.CreateConfirm? || c.pc.CreateDuplicate? {
      CreationAnswers(docs, c, now);
    } else if c.pc.ClaimRead? || c.pc.ClaimWrite? || c.pc.GetRead? {
      ClaimAnswers(docs, c, now);
    } else {
      CompletionAnswers(docs, c, now);
    }
  }

  /** A step of any caller, for the caller at `k`. */
  lemma NextAnswers(s: System, e: Event, k: nat)
    requires SystemInv(s) && EventAllowed(e) && k < |NextSystem(s, e).clients|
    requires k < |s.clients| ==> Answered(s.docs, s.clients[k])
    requires e.Move? && e.client == k ==> e.fault.NoFault? && e.now >= 0
    ensures Answered(NextSystem(s, e).docs, NextSystem(s, e).clients[k])
  {
    hide Op, Answered, Commits, MemoryCall, Abs;
    NextKeepsSystem(s, e);
    if k < |s.clients| {
      assert ClientInv(s.docs, s.clients[k]);
      if e.Move? && e.client == k && !s.clients[k].pc.Returned? {
        OpAnswers(s.docs, s.clients[k], e.now);
      } else {
        AnsweredStable(s.docs, NextSystem(s, e).docs, s.clients[k]);
      }
    } else {
      FreshIsAnswered(s.docs, e.call);
    }
  }

  lemma FreshIsAnswered(docs: Store, call: Call)
    ensures Answered(docs, Client(call, Start(call), None))
  {
  }

  lemma {:induction false} DependableIsAnswered(r: Run, p: nat, k: nat)
    requires IsRun(r) && p < |r.states| && Dependable(r, p, k) && k < |r.states[p].clients|
    ensures Answered(r.states[p].docs, r.states[p].clients[k])
  {
    hide NextSystem, Answered;
    if p > 0 {
      assert StepsAt(r, p - 1);
      Linearizable(r, p - 1);
      if k < |r.states[p - 1].clients| {
        DependableIsAnswered(r, p - 1, k);
      }
      NextAnswers(r.states[p - 1], r.events[p - 1], k);
    }
  }

  /**
   * A caller whose own operations do not fail is answered by the atomic operation, performed at one of
   * its steps, whatever the others do: the same intent, or the same refusal, a created intent having
   * perhaps advanced. The one exception is a creation that is refused because the intent of another
   * scope has its correlation identifier.
   */
  lemma DependableAnswersAreAtomic(r: Run, p: nat, k: nat)
    requires IsRun(r) && p < |r.states| && Dependable(r, p, k)
    requires k < |r.states[p].clients| && r.states[p].clients[k].pc.Returned?
    ensures var (docs, c) := (r.states[p].docs, r.states[p].clients[k]);
            || (c.committed.Some? && c.pc.response == c.committed.value)
            || (c.committed.Some? && c.call.Create? && Agrees(c.pc.response, c.committed.value))
            || (c.committed == None && c.call.Create? && c.pc.response == Raised(IdentityConflict)
                && CorrelationTaken(docs, c.call.intent))
  {
    hide CorrelationTaken;
    DependableIsAnswered(r, p, k);
    Linearizable(r, p);
    assert ClientInv(r.states[p].docs, r.states[p].clients[k]);
  }

  // ---- A call that nobody interrupts ----

  /** How many steps a call still has. */
  function StepsLeft(pc: Pc): nat {
    match pc
    case Returned(_) => 0
    case GetRead(_) => 1
    case CreateUpsert(_) => 2
    case CreateConfirm(_, _) => 1
    case CreateDuplicate(_) => 1
    case ClaimRead(_) => 2
    case ClaimWrite(_, _) => 1
    case CompleteRead(_, _, _) => 2
    case CompleteWrite(_, _, _, _) => 1
  }

  lemma StepsDecrease(docs: Store, pc: Pc, now: int)
    requires !pc.Returned?
    ensures StepsLeft(Op(docs, pc, now).pc) < StepsLeft(pc)
  {
  }

  /** The state and answer of a call run to its end at one time. */
  function Alone(docs: Store, pc: Pc, now: int): (r: Step)
    ensures r.pc.Returned?
    decreases StepsLeft(pc)
  {
    if pc.Returned? then Step(docs, pc)
    else
      var step := Op(docs, pc, now);
      StepsDecrease(docs, pc, now);
      Alone(step.docs, step.pc, now)
  }

  lemma AloneStep(docs: Store, pc: Pc, now: int)
    requires !pc.Returned?
    ensures Alone(docs, pc, now) == Alone(Op(docs, pc, now).docs, Op(docs, pc, now).pc, now)
    ensures Op(docs, pc, now).pc.Returned? ==> Alone(docs, pc, now) == Op(docs, pc, now)
  {
  }

  lemma TwoSteps(docs: Store, pc: Pc, now: int, first: Step)
    requires !pc.Returned? && Op(docs, pc, now) == first
    requires StepsLeft(first.pc) == 1 || first.pc.Returned?
    ensures Alone(docs, pc, now) == if first.pc.Returned? then first else Op(first.docs, first.pc, now)
  {
    AloneStep(docs, pc, now);
    if !first.pc.Returned? {
      StepsDecrease(first.docs, first.pc, now);
      AloneStep(first.docs, first.pc, now);
    }
  }

  lemma ClaimAlone(docs: Store, id: string, now: int)
    requires StoreInv(docs) && now >= 0
    ensures var (step, effect) := (Alone(docs, ClaimRead(id), now), MemoryClaim(Abs(docs), id));
            StoreInv(step.docs) && Effect(Abs(step.docs), step.pc.response) == effect
  {
    hide NonBlank, WellFormed, Alone, Abs, MemoryClaim, ClaimedDoc;
    var first := ReadForClaim(docs, id);
    ClaimReadKeepsStore(docs, id);
    CommitClaimRead(docs, id);
    TwoSteps(docs, ClaimRead(id), now, first);
    if !first.pc.Returned? {
      ClaimKeepsStore(docs, id, first.pc.attemptCount, now);
      CommitClaimWrite(docs, id, first.pc.attemptCount, now);
    }
  }

  lemma CompleteAlone(docs: Store, id: string, expected: IntentState, result: DispatchResult, now: int)
    requires StoreInv(docs) && now >= 0 && !expected.IsTerminal() && result.Valid()
    ensures var (step, effect) := (Alone(docs, CompleteRead(id, expected, result), now),
                                   MemoryComplete(Abs(docs), id, expected, result));
            StoreInv(step.docs) && Effect(Abs(step.docs), step.pc.response) == effect
  {
    var first := ReadForCompletion(docs, id, expected, result, now);
    CompletionReadKeepsStore(docs, id, expected, result, now);
    CommitCompleteRead(docs, id, expected, result, now);
    CompleteReadCases(docs, id, expected, result, now);
    TwoSteps(docs, CompleteRead(id, expected, result), now, first);
    if !first.pc.Returned? {
      CompletionKeepsStore(docs, id, expected, result, first.pc.active, now);
      CommitCompleteWrite(docs, id, expected, result, first.pc.active, now);
    }
  }

  lemma CreateAlone(docs: Store, intent: MessageIntent, now: int)
    requires StoreInv(docs) && CallAllowed(Create(intent)) && now >= 0
    requires Find(docs, ByScope(intent.Key())) == None && IdentityTaken(docs, intent) ==> Holds(docs, intent.intentId)
    ensures var (step, effect) := (Alone(docs, CreateUpsert(intent), now), MemoryCreate(Abs(docs), intent));
            StoreInv(step.docs) && Effect(Abs(step.docs), step.pc.response) == effect
  {
    var step := Upsert(docs, intent, now);
    UpsertKeepsStore(docs, intent, now);
    CommitUpsert(docs, intent, now);
    AloneStep(docs, CreateUpsert(intent), now);
    AloneStep(step.docs, step.pc, now);
    if step.pc.CreateConfirm? {
      WellFormedDecodes(step.docs[Find(step.docs, ByScope(intent.Key())).value]);
    } else {
      ScopeFound(docs, intent.Key());
      IdFound(docs, intent.intentId);
    }
  }

  /**
   * Run alone, a claim or completion is the atomic operation. A creation is too unless its
   * correlation identifier alone is taken, which only the collection's unique index refuses.
   */
  lemma AloneIsAtomic(docs: Store, call: Call, now: int)
    requires StoreInv(docs) && CallAllowed(call) && now >= 0
    requires call.Create? && Find(docs, ByScope(call.intent.Key())) == None && IdentityTaken(docs, call.intent) ==>
               Holds(docs, call.intent.intentId)
    ensures var (step, effect) := (Alone(docs, Start(call), now), MemoryCall(Abs(docs), call));
            StoreInv(step.docs) && Effect(Abs(step.docs), step.pc.response) == effect
  {
    match call
    case Get(scope) =>
      CommitGet(docs, scope, now);
      AloneStep(docs, GetRead(scope), now);
    case Create(intent) => CreateAlone(docs, intent, now);
    case Claim(id) => ClaimAlone(docs, id, now);
    case Complete(id, expected, result) => CompleteAlone(docs, id, expected, result, now);
  }

  // ---- Where the two repositories differ ----

  /**
   * A completion whose expected state is terminal never writes to the collection, while the in-memory
   * repository overwrites a stored result in that state. They agree exactly when no stored intent in
   * that state has the result's identity.
   */
  lemma TerminalCompletionsDiffer(docs: Store, id: string, expected: IntentState, result: DispatchResult, now: int)
    requires StoreInv(docs) && expected.IsTerminal() && now >= 0
    ensures var (step, effect) := (Alone(docs, CompleteRead(id, expected, result), now),
                                   MemoryComplete(Abs(docs), id, expected, result));
            && step.docs == docs
            && (step.pc.response == effect.response <==>
                !(Holds(docs, id) && IntentOf(docs, id).state == expected && IntentOf(docs, id).Matches(result)))
  {
    hide NonBlank, Abs;
    IdGivesIntent(docs, id);
    AloneStep(docs, CompleteRead(id, expected, result), now);
    var found := Find(docs, ByIdInState(id, expected));
    if found.Some? {
      FindUnique(docs, ById(id), found.value);
    } else if Holds(docs, id) {
      assert !Matches(docs[Find(docs, ById(id)).value], ByIdInState(id, expected));
    }
  }

  /**
   * For an intent with a free scope and intent identifier, the collection refuses exactly when the
   * correlation identifier is taken; the in-memory repository never does.
   */
  lemma CorrelationIdsDiffer(docs: Store, intent: MessageIntent, now: int)
    requires StoreInv(docs) && CallAllowed(Create(intent)) && now >= 0
    requires Find(docs, ByScope(intent.Key())) == None && !Holds(docs, intent.intentId)
    ensures MemoryCreate(Abs(docs), intent).response == Created(intent, true)
    ensures Alone(docs, CreateUpsert(intent), now).pc.response ==
            if exists i :: 0 <= i < |docs| && docs[i].intent.correlationId == intent.correlationId
            then Raised(IdentityConflict) else Created(intent, true)
  {
    ScopeFound(docs, intent.Key());
    IdFound(docs, intent.intentId);
    assert forall i :: 0 <= i < |docs| ==> !Matches(docs[i], ById(intent.intentId));
    AloneStep(docs, CreateUpsert(intent), now);
    if !IdentityTaken(docs, intent) {
      CreateAlone(docs, intent, now);
    } else {
      AloneStep(docs, CreateDuplicate(intent), now);
    }
  }
}
