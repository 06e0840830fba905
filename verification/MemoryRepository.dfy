// testing.py: the in-memory intent repository, whose operations are atomic.
module MemoryRepository {
  import opened Wrappers
  import opened Contracts
  import opened IntentStore

  /** The two dictionaries of the repository. */
  datatype Memory = Memory(byScope: map<Scope, MessageIntent>, scopeById: map<string, Scope>) {
    /** The dictionaries index each other. */
    predicate Valid() {
      && (forall s <- byScope :: byScope[s].Valid() && byScope[s].Key() == s)
      && (forall s <- byScope :: byScope[s].intentId in scopeById && scopeById[byScope[s].intentId] == s)
      && (forall id <- scopeById :: scopeById[id] in byScope && byScope[scopeById[id]].intentId == id)
    }
  }

  /** The state after an operation, and its answer. */
  datatype Effect = Effect(memory: Memory, response: Response)

  function MemoryGet(m: Memory, scope: Scope): Effect {
    Effect(m, Found(if scope in m.byScope then Some(m.byScope[scope]) else None))
  }

  function MemoryCreate(m: Memory, intent: MessageIntent): Effect {
    var scope := intent.Key();
    if scope in m.byScope then Effect(m, Created(m.byScope[scope], false))
    else if intent.intentId in m.scopeById then Effect(m, Raised(IdentityConflict))
    else Effect(Memory(m.byScope[scope := intent], m.scopeById[intent.intentId := scope]), Created(intent, true))
  }

  function MemoryClaim(m: Memory, id: string): Effect {
    if id !in m.scopeById || m.scopeById[id] !in m.byScope then Effect(m, Found(None))
    else
      var scope := m.scopeById[id];
      var intent := m.byScope[scope];
      if !intent.state.Pending? then Effect(m, Found(None))
      else
        var claimed := intent.(state := Dispatching);
        Effect(m.(byScope := m.byScope[scope := claimed]), Found(Some(claimed)))
  }

  /** The checks of the intent's constructor refuse a result with another identity. */
  function MemoryComplete(m: Memory, id: string, expected: IntentState, result: DispatchResult): Effect {
    if id !in m.scopeById || m.scopeById[id] !in m.byScope then Effect(m, Found(None))
    else
      var scope := m.scopeById[id];
      var intent := m.byScope[scope];
      if intent.state != expected then Effect(m, Found(None))
      else if !intent.Matches(result) then Effect(m, Raised(IdentityConflict))
      else
        var completed := intent.(state := TerminalState(result.disposition), result := Some(result));
        Effect(m.(byScope := m.byScope[scope := completed]), Found(Some(completed)))
  }

  /** The sequential specification of the repository. */
  function MemoryCall(m: Memory, call: Call): Effect {
    match call
    case Get(scope) => MemoryGet(m, scope)
    case Create(intent) => MemoryCreate(m, intent)
    case Claim(id) => MemoryClaim(m, id)
    case Complete(id, expected, result) => MemoryComplete(m, id, expected, result)
  }

  /** What the types of the arguments already guarantee. */
  predicate CallTyped(call: Call) {
    match call
    case Create(intent) => intent.Valid()
    case Complete(_, _, result) => result.Valid()
    case _ => true
  }

  lemma UpdateKeepsValid(m: Memory, scope: Scope, intent: MessageIntent)
    requires m.Valid() && scope in m.byScope && intent.Valid() && intent.Key() == scope
    requires intent.intentId == m.byScope[scope].intentId
    ensures m.(byScope := m.byScope[scope := intent]).Valid()
  {
  }

  lemma InsertKeepsValid(m: Memory, intent: MessageIntent)
    requires m.Valid() && intent.Valid()
    ensures MemoryCreate(m, intent).memory.Valid()
  {
  }

  /** Every operation keeps the dictionaries consistent and every stored intent valid. */
  lemma MemoryCallKeepsValid(m: Memory, call: Call)
    requires m.Valid() && CallTyped(call)
    ensures MemoryCall(m, call).memory.Valid()
  {
    hide MemoryCreate;
    match call
    case Get(_) =>
    case Create(intent) => InsertKeepsValid(m, intent);
    case Claim(id) =>
      var next := MemoryClaim(m, id);
      if next.memory != m {
        UpdateKeepsValid(m, m.scopeById[id], next.response.found.value);
      }
    case Complete(id, expected, result) =>
      var next := MemoryComplete(m, id, expected, result);
      if next.response.Found? && next.response.found.Some? {
        UpdateKeepsValid(m, m.scopeById[id], next.response.found.value);
      }
  }

  datatype Recorded = RecordedCreate | RecordedClaim | RecordedComplete

  /** The repository itself; its lock makes each method atomic. */
  class InMemoryIntentRepository {
    var byScope: map<Scope, MessageIntent>
    var scopeById: map<string, Scope>
    var events: seq<Recorded>

    ghost function State(): Memory
      reads this
    {
      Memory(byScope, scopeById)
    }

    constructor ()
      ensures State() == Memory(map[], map[]) && events == [] && State().Valid()
    {
      byScope, scopeById, events := map[], map[], [];
    }

    method GetIntent(scope: Scope) returns (found: Option<MessageIntent>)
      requires State().Valid()
      ensures Found(found) == MemoryGet(State(), scope).response
    {
      if scope in byScope {
        found := Some(byScope[scope]);
      } else {
        found := None;
      }
    }

    method CreateIfAbsent(intent: MessageIntent) returns (response: Response)
      requires State().Valid() && intent.Valid()
      modifies this
      ensures State().Valid()
      ensures Effect(State(), response) == MemoryCreate(old(State()), intent)
      ensures events == old(events) + if State() == old(State()) then [] else [RecordedCreate]
    {
      var scope := intent.Key();
      if scope in byScope {
        return Created(byScope[scope], false);
      }
      if intent.intentId in scopeById {
        return Raised(IdentityConflict);
      }
      byScope := byScope[scope := intent];
      scopeById := scopeById[intent.intentId := scope];
      events := events + [RecordedCreate];
      MemoryCallKeepsValid(old(State()), Create(intent));
      return Created(intent, true);
    }

    method ClaimIntent(id: string) returns (claimed: Option<MessageIntent>)
      requires State().Valid()
      modifies this
      ensures State().Valid()
      ensures Effect(State(), Found(claimed)) == MemoryClaim(old(State()), id)
      ensures events == old(events) + if claimed.Some? then [RecordedClaim] else []
    {
      if id !in scopeById {
        return None;
      }
      var scope := scopeById[id];
      var intent := byScope[scope];
      if !intent.state.Pending? {
        return None;
      }
      var updated := intent.(state := Dispatching);
      byScope := byScope[scope := updated];
      events := events + [RecordedClaim];
      MemoryCallKeepsValid(old(State()), Claim(id));
      return Some(updated);
    }

    method CompleteIntent(id: string, expected: IntentState, result: DispatchResult) returns (response: Response)
      requires State().Valid() && result.Valid()
      modifies this
      ensures State().Valid()
      ensures Effect(State(), response) == MemoryComplete(old(State()), id, expected, result)
      ensures events == old(events) + if response.Found? && response.found.Some? then [RecordedComplete] else []
    {
      if id !in scopeById {
        return Found(None);
      }
      var scope := scopeById[id];
      var intent := byScope[scope];
      if intent.state != expected {
        return Found(None);
      }
      if !intent.Matches(result) {
        return Raised(IdentityConflict);
      }
      var completed := intent.(state := TerminalState(result.disposition), result := Some(result));
      byScope := byScope[scope := completed];
      events := events + [RecordedComplete];
      MemoryCallKeepsValid(old(State()), Complete(id, expected, result));
      return Found(Some(completed));
    }
  }
}
