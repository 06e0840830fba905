// persistence/mongo.py: records whose state is the replay of an append-only event log, under any
// number of racing writers and readers. Recipient policies and text sessions are two such logs.
module EventLog {
  import opened Wrappers

  /** What distinguishes one kind of log from another. */
  datatype Log<!K(==), !E(==), !S(==)> = Log(
    initial: S,
    apply: (S, E) -> S,
    id: E -> string,
    validKey: K -> bool,
    validEvent: E -> bool,
    evaluates: bool)             // an update ends by reading the state back

  datatype Record<K, E, S> = Record(schemaVersion: int, key: K, state: S, events: seq<E>)

  const SCHEMA_VERSION := 1

  datatype LogError = Unavailable | Unconfirmed | BadRecord | Conflict

  /** The state after a log of events. */
  function Replay<K(==), E(==), S(==)>(log: Log<K, E, S>, events: seq<E>): S {
    if events == [] then log.initial
    else log.apply(Replay(log, events[..|events| - 1]), events[|events| - 1])
  }

  predicate UniqueIds<K(==), E(==), S(==)>(log: Log<K, E, S>, events: seq<E>) {
    forall i, j :: 0 <= i < |events| && 0 <= j < |events| && log.id(events[i]) == log.id(events[j]) ==> i == j
  }

  ghost function Ids<K, E, S>(log: Log<K, E, S>, events: seq<E>): set<string> {
    set e | e in events :: log.id(e)
  }

  lemma IdsSnoc<K, E, S>(log: Log<K, E, S>, before: seq<E>, event: E)
    ensures Ids(log, before + [event]) == Ids(log, before) + {log.id(event)}
  {
    assert forall e :: e in before + [event] <==> e in before || e == event;
  }

  lemma UniqueSnoc<K, E, S>(log: Log<K, E, S>, before: seq<E>, event: E)
    ensures UniqueIds(log, before + [event]) <==> UniqueIds(log, before) && log.id(event) !in Ids(log, before)
  {
    var now := before + [event];
    assert forall i :: 0 <= i < |before| ==> now[i] == before[i] && before[i] in before;
    if UniqueIds(log, now) {
      forall i | 0 <= i < |before| ensures log.id(before[i]) != log.id(event) {
        assert now[i] == before[i] && now[|before|] == event;
      }
    }
  }

  lemma UniquePrefix<K, E, S>(log: Log<K, E, S>, events: seq<E>, n: nat)
    requires n <= |events| && UniqueIds(log, events)
    ensures UniqueIds(log, events[..n])
  {
  }

  /** A log extended by one event, for the readers that go over it. */
  lemma IdsExtend<K, E, S>(log: Log<K, E, S>, events: seq<E>, i: nat)
    requires i < |events|
    ensures Ids(log, events[..i + 1]) == Ids(log, events[..i]) + {log.id(events[i])}
    ensures Replay(log, events[..i + 1]) == log.apply(Replay(log, events[..i]), events[i])
    ensures UniqueIds(log, events[..i + 1]) <==>
            UniqueIds(log, events[..i]) && log.id(events[i]) !in Ids(log, events[..i])
    ensures UniqueIds(log, events) ==> UniqueIds(log, events[..i + 1])
  {
    hide UniqueIds, Ids;
    var (before, now) := (events[..i], events[..i + 1]);
    assert now == before + [events[i]] && now[..|now| - 1] == before;
    IdsSnoc(log, before, events[i]);
    UniqueSnoc(log, before, events[i]);
    if UniqueIds(log, events) {
      UniquePrefix(log, events, i + 1);
    }
  }

  /** The checks of the record readers. */
  predicate WellFormed<K(==), E(==), S(==)>(log: Log<K, E, S>, r: Record<K, E, S>, key: K) {
    && r.schemaVersion == SCHEMA_VERSION
    && r.key == key && log.validKey(r.key)
    && (forall e <- r.events :: log.validEvent(e))
    && UniqueIds(log, r.events)
    && r.state == Replay(log, r.events)
  }

  function Read<K(==), E(==), S(==)>(log: Log<K, E, S>, r: Record<K, E, S>, key: K): Result<(S, seq<E>), LogError> {
    if WellFormed(log, r, key) then Ok((r.state, r.events)) else Err(BadRecord)
  }

  /** The event with an identifier: the loop over the existing events. */
  function Lookup<K(==), E(==), S(==)>(log: Log<K, E, S>, events: seq<E>, id: string): (r: Option<E>)
    ensures r.Some? ==> r.value in events && log.id(r.value) == id
    ensures r == None ==> forall e <- events :: log.id(e) != id
  {
    if events == [] then None
    else if log.id(events[0]) == id then Some(events[0])
    else Lookup(log, events[1..], id)
  }

  // ---- Calls, one collection operation at a time ----

  datatype Call<K, E> = Update(key: K, event: E) | Query(key: K)

  datatype Stage = Ensuring | Reading | Pushing | Rereading | Evaluating

  datatype Answer<S> = Done | State(state: S) | Failed(error: LogError)

  datatype Pc<S> = At(stage: Stage) | Returned(answer: Answer<S>)

  datatype Fault = NoFault | FailBefore | FailAfter

  type Records<K, E, S> = map<K, Record<K, E, S>>

  /** The collection after a step, where the call stands, and whether the step added the event. */
  datatype Effect<K, E, S> = Effect(records: Records<K, E, S>, pc: Pc<S>, wrote: bool)

  function Fail<K, E, S>(records: Records<K, E, S>, error: LogError): Effect<K, E, S> {
    Effect(records, Returned(Failed(error)), false)
  }

  function Finish<K(==), E(==), S(==)>(log: Log<K, E, S>, records: Records<K, E, S>, wrote: bool): Effect<K, E, S> {
    Effect(records, if log.evaluates then At(Evaluating) else Returned(Done), wrote)
  }

  function Fresh<K(==), E(==), S(==)>(log: Log<K, E, S>, key: K): Record<K, E, S> {
    Record(SCHEMA_VERSION, key, log.initial, [])
  }

  /** The write of an update: the state moves with the event that is pushed. */
  function Pushed<K(==), E(==), S(==)>(log: Log<K, E, S>, r: Record<K, E, S>, event: E): Record<K, E, S> {
    r.(state := log.apply(r.state, event), events := r.events + [event])
  }

  function Check<K(==), E(==), S(==)>(log: Log<K, E, S>, records: Records<K, E, S>, key: K, event: E): Effect<K, E, S> {
    if key !in records then Fail(records, Unconfirmed)
    else
      match Read(log, records[key], key)
      case Err(e) => Fail(records, e)
      case Ok((_, events)) =>
        match Lookup(log, events, log.id(event))
        case None => Effect(records, At(Pushing), false)
        case Some(existing) => if existing != event then Fail(records, Conflict) else Finish(log, records, false)
  }

  /** Matches the key, the schema, and that no event has the identifier. */
  function Push<K(==), E(==), S(==)>(log: Log<K, E, S>, records: Records<K, E, S>, key: K, event: E): Effect<K, E, S> {
    if key in records && records[key].schemaVersion == SCHEMA_VERSION
      && Lookup(log, records[key].events, log.id(event)) == None
    then Finish(log, records[key := Pushed(log, records[key], event)], true)
    else Effect(records, At(Rereading), false)
  }

  function Recheck<K(==), E(==), S(==)>(log: Log<K, E, S>, records: Records<K, E, S>, key: K, event: E): Effect<K, E, S>
  {
    if key !in records then Fail(records, Conflict)
    else
      match Read(log, records[key], key)
      case Err(e) => Fail(records, e)
      case Ok((_, events)) => if event in events then Finish(log, records, false) else Fail(records, Conflict)
  }

  function Evaluate<K(==), E(==), S(==)>(log: Log<K, E, S>, records: Records<K, E, S>, key: K): Effect<K, E, S> {
    if key !in records then Effect(records, Returned(State(log.initial)), false)
    else
      match Read(log, records[key], key)
      case Err(e) => Fail(records, e)
      case Ok((state, _)) => Effect(records, Returned(State(state)), false)
  }

  function Op<K(==), E(==), S(==)>(
    log: Log<K, E, S>, records: Records<K, E, S>, call: Call<K, E>, stage: Stage): Effect<K, E, S>
  {
    if call.Query? || stage.Evaluating? then Evaluate(log, records, call.key)
    else
      match stage
      case Ensuring =>
        Effect(if call.key in records then records else records[call.key := Fresh(log, call.key)], At(Reading), false)
      case Reading => Check(log, records, call.key, call.event)
      case Pushing => Push(log, records, call.key, call.event)
      case Rereading => Recheck(log, records, call.key, call.event)
  }

  function Advance<K(==), E(==), S(==)>(
    log: Log<K, E, S>, records: Records<K, E, S>, call: Call<K, E>, stage: Stage, fault: Fault): Effect<K, E, S>
  {
    match fault
    case NoFault => Op(log, records, call, stage)
    case FailBefore => Fail(records, Unavailable)
    case FailAfter => Op(log, records, call, stage).(pc := Returned(Failed(Unavailable)))
  }

  // ---- Any number of callers ----

  /** A caller, and whether its event was added by its own write. */
  datatype Client<K, E, S> = Client(call: Call<K, E>, pc: Pc<S>, wrote: bool)

  datatype System<K, E, S> = System(records: Records<K, E, S>, clients: seq<Client<K, E, S>>)

  /** Callers validate their arguments first; a caller that crashes just takes no further step. */
  datatype Event<K, E> = Invoke(call: Call<K, E>) | Move(client: nat, fault: Fault)

  predicate Valid<K(==), E(==), S(==)>(log: Log<K, E, S>, call: Call<K, E>) {
    log.validKey(call.key) && (call.Update? ==> log.validEvent(call.event))
  }

  function Next<K(==), E(==), S(==)>(log: Log<K, E, S>, s: System<K, E, S>, e: Event<K, E>): System<K, E, S> {
    match e
    case Invoke(call) =>
      if Valid(log, call) then
        s.(clients := s.clients + [Client(call, At(if call.Update? then Ensuring else Evaluating), false)])
      else s
    case Move(k, fault) =>
      if k < |s.clients| && s.clients[k].pc.At? then
        var c := s.clients[k];
        var effect := Advance(log, s.records, c.call, c.pc.stage, fault);
        System(effect.records, s.clients[k := Client(c.call, effect.pc, c.wrote || effect.wrote)])
      else s
  }

  /** The states that a run passes through, and the events between them. */
  datatype Run<K, E, S> = Run(states: seq<System<K, E, S>>, events: seq<Event<K, E>>)

  ghost predicate StepsAt<K, E, S>(log: Log<K, E, S>, r: Run<K, E, S>, n: nat)
    requires |r.states| == |r.events| + 1 && n < |r.events|
  {
    r.states[n + 1] == Next(log, r.states[n], r.events[n])
  }

  /** A run from any well-formed records. */
  ghost predicate IsRun<K, E, S>(log: Log<K, E, S>, r: Run<K, E, S>) {
    && |r.states| == |r.events| + 1
    && r.states[0].clients == [] && Sound(log, r.states[0].records)
    && forall n :: 0 <= n < |r.events| ==> StepsAt(log, r, n)
  }

  /** A point of a run. */
  ghost predicate Reached<K, E, S>(log: Log<K, E, S>, r: Run<K, E, S>, p: nat) {
    IsRun(log, r) && p < |r.states|
  }

  /** The records that a run starts from. */
  ghost function StartOf<K, E, S>(log: Log<K, E, S>, r: Run<K, E, S>): Records<K, E, S>
    requires IsRun(log, r)
  {
    r.states[0].records
  }

  // ---- The invariant ----

  ghost predicate Sound<K, E, S>(log: Log<K, E, S>, records: Records<K, E, S>) {
    forall key <- records :: WellFormed(log, records[key], key)
  }

  function EventsOf<K(==), E, S>(records: Records<K, E, S>, key: K): seq<E> {
    if key in records then records[key].events else []
  }

  /** Records stay, and their logs only grow. */
  ghost predicate Grows<K, E, S>(records: Records<K, E, S>, records': Records<K, E, S>) {
    forall key <- records :: key in records' && records[key].events <= records'[key].events
  }

  ghost predicate IdHeldByOther<K, E, S>(log: Log<K, E, S>, events: seq<E>, event: E) {
    exists other :: other in events && other != event && log.id(other) == log.id(event)
  }

  ghost predicate ClientInv<K, E, S>(log: Log<K, E, S>, records: Records<K, E, S>, c: Client<K, E, S>) {
    var events := EventsOf(records, c.call.key);
    && Valid(log, c.call)
    && (c.wrote ==> c.call.Update? && c.call.event in events)
    && match c.pc
       case At(Evaluating) => c.call.Update? ==> c.call.event in events
       case At(Ensuring) => c.call.Update? && !c.wrote
       case At(Reading) => c.call.Update? && !c.wrote && c.call.key in records
       case At(Pushing) => c.call.Update? && !c.wrote && c.call.key in records
       case At(Rereading) =>
         && c.call.Update? && !c.wrote && c.call.key in records
         && exists other :: other in events && log.id(other) == log.id(c.call.event)
       case Returned(Done) => c.call.Update? && c.call.event in events
       case Returned(State(_)) => c.call.Update? ==> c.call.event in events
       case Returned(Failed(Unavailable)) => true
       case Returned(Failed(Conflict)) => c.call.Update? && !c.wrote && IdHeldByOther(log, events, c.call.event)
       case Returned(Failed(_)) => false
  }

  function Written<K(==), E, S>(clients: seq<Client<K, E, S>>, key: K): nat {
    if clients == [] then 0
    else (if clients[0].wrote && clients[0].call.key == key then 1 else 0) + Written(clients[1..], key)
  }

  ghost predicate Balanced<K, E, S>(start: Records<K, E, S>, s: System<K, E, S>, key: K) {
    |EventsOf(s.records, key)| == |EventsOf(start, key)| + Written(s.clients, key)
  }

  ghost predicate Inv<K(!new), E(!new), S(!new)>(log: Log<K, E, S>, start: Records<K, E, S>, s: System<K, E, S>) {
    && Sound(log, s.records) && Grows(start, s.records)
    && (forall c <- s.clients :: ClientInv(log, s.records, c))
    && (forall key :: Balanced(start, s, key))
    && (forall j, k :: 0 <= j < |s.clients| && 0 <= k < |s.clients| && j != k ==>
        WroteDifferent(log, s.clients[j], s.clients[k]))
  }

  /** No two callers wrote the same event, or events with one identifier, to the same log. */
  ghost predicate WroteDifferent<K, E, S>(log: Log<K, E, S>, c: Client<K, E, S>, d: Client<K, E, S>) {
    c.wrote && d.wrote && c.call.key == d.call.key && c.call.Update? && d.call.Update? ==>
      log.id(c.call.event) != log.id(d.call.event)
  }

  ghost predicate IdIsFree<K, E, S>(log: Log<K, E, S>, records: Records<K, E, S>, call: Call<K, E>) {
    call.Update? && forall e <- EventsOf(records, call.key) :: log.id(e) != log.id(call.event)
  }

  // ---- Steps keep it ----

  lemma PushKeepsRecord<K, E, S>(log: Log<K, E, S>, r: Record<K, E, S>, key: K, event: E)
    requires WellFormed(log, r, key) && log.validEvent(event) && Lookup(log, r.events, log.id(event)) == None
    ensures WellFormed(log, Pushed(log, r, event), key)
  {
    var pushed := Pushed(log, r, event);
    assert pushed.events[..|r.events|] == r.events;
    forall i, j | 0 <= i < |pushed.events| && 0 <= j < |pushed.events|
      && log.id(pushed.events[i]) == log.id(pushed.events[j])
      ensures i == j
    {
      assert i < |r.events| ==> pushed.events[i] in r.events;
      assert j < |r.events| ==> pushed.events[j] in r.events;
    }
  }

  lemma ClientStable<K(!new), E(!new), S(!new)>(
    log: Log<K, E, S>, records: Records<K, E, S>, records': Records<K, E, S>, c: Client<K, E, S>)
    requires ClientInv(log, records, c) && Grows(records, records')
    ensures ClientInv(log, records', c)
  {
    var (events, events') := (EventsOf(records, c.call.key), EventsOf(records', c.call.key));
    assert events <= events';
    assert forall e :: e in events ==> e in events';
  }

  /** A step keeps the records well-formed and the caller's own assumptions, and adds at most its event. */
  lemma OpKeeps<K(!new), E(!new), S(!new)>(log: Log<K, E, S>, records: Records<K, E, S>, c: Client<K, E, S>)
    requires Sound(log, records) && ClientInv(log, records, c) && c.pc.At?
    ensures var effect := Op(log, records, c.call, c.pc.stage);
            && Sound(log, effect.records) && Grows(records, effect.records)
            && ClientInv(log, effect.records, Client(c.call, effect.pc, c.wrote || effect.wrote))
            && (effect.wrote ==> !c.wrote && IdIsFree(log, records, c.call))
            && forall key :: |EventsOf(effect.records, key)| ==
                             |EventsOf(records, key)| + if effect.wrote && key == c.call.key then 1 else 0
  {
    if c.pc.stage.Evaluating? || c.call.Query? {
      EvaluationKeeps(log, records, c);
    } else if c.pc.stage.Pushing? {
      PushKeeps(log, records, c);
    } else if c.pc.stage.Reading? {
      CheckKeeps(log, records, c);
    } else if c.pc.stage.Rereading? {
      RecheckKeeps(log, records, c);
    }
  }

  lemma CheckKeeps<K(!new), E(!new), S(!new)>(log: Log<K, E, S>, records: Records<K, E, S>, c: Client<K, E, S>)
    requires Sound(log, records) && ClientInv(log, records, c) && c.pc == At(Reading) && c.call.Update?
    ensures var effect := Check(log, records, c.call.key, c.call.event);
            effect.records == records && !effect.wrote && ClientInv(log, records, c.(pc := effect.pc))
  {
  }

  lemma RecheckKeeps<K(!new), E(!new), S(!new)>(log: Log<K, E, S>, records: Records<K, E, S>, c: Client<K, E, S>)
    requires Sound(log, records) && ClientInv(log, records, c) && c.pc == At(Rereading) && c.call.Update?
    ensures var effect := Recheck(log, records, c.call.key, c.call.event);
            effect.records == records && !effect.wrote && ClientInv(log, records, c.(pc := effect.pc))
  {
  }

  lemma EvaluationKeeps<K(!new), E(!new), S(!new)>(log: Log<K, E, S>, records: Records<K, E, S>, c: Client<K, E, S>)
    requires Sound(log, records) && ClientInv(log, records, c) && c.pc == At(Evaluating)
    ensures var effect := Evaluate(log, records, c.call.key);
            && effect.records == records && !effect.wrote && ClientInv(log, records, c.(pc := effect.pc))
            && effect.pc == Returned(State(Replay(log, EventsOf(records, c.call.key))))
  {
  }

  lemma PushKeeps<K(!new), E(!new), S(!new)>(log: Log<K, E, S>, records: Records<K, E, S>, c: Client<K, E, S>)
    requires Sound(log, records) && ClientInv(log, records, c) && c.pc == At(Pushing) && c.call.Update?
    ensures var effect := Push(log, records, c.call.key, c.call.event);
            && Sound(log, effect.records) && Grows(records, effect.records)
            && ClientInv(log, effect.records, Client(c.call, effect.pc, effect.wrote))
            && (effect.wrote ==> IdIsFree(log, records, c.call))
            && forall key :: |EventsOf(effect.records, key)| ==
                             |EventsOf(records, key)| + if effect.wrote && key == c.call.key then 1 else 0
  {
    var (key, event) := (c.call.key, c.call.event);
    var found := Lookup(log, records[key].events, log.id(event));
    if found == None {
      PushKeepsRecord(log, records[key], key, event);
    } else {
      assert found.value in EventsOf(records, key);
    }
  }

  lemma {:induction false} WrittenUpdated<K, E, S>(clients: seq<Client<K, E, S>>, k: nat, c: Client<K, E, S>, key: K)
    requires k < |clients| && clients[k].call.key == c.call.key && (clients[k].wrote ==> c.wrote)
    ensures Written(clients[k := c], key) ==
            Written(clients, key) + if c.wrote && !clients[k].wrote && c.call.key == key then 1 else 0
  {
    if k > 0 {
      WrittenUpdated(clients[1..], k - 1, c, key);
      assert clients[k := c][1..] == clients[1..][k - 1 := c];
    } else {
      assert clients[k := c][1..] == clients[1..];
    }
  }

  lemma {:induction false} WrittenAppended<K, E, S>(clients: seq<Client<K, E, S>>, c: Client<K, E, S>, key: K)
    requires !c.wrote
    ensures Written(clients + [c], key) == Written(clients, key)
  {
    if clients == [] {
      assert clients + [c] == [c];
    } else {
      WrittenAppended(clients[1..], c, key);
      assert (clients + [c])[1..] == clients[1..] + [c];
    }
  }

  lemma MoveKeeps<K(!new), E(!new), S(!new)>(
    log: Log<K, E, S>, start: Records<K, E, S>, s: System<K, E, S>, k: nat, effect: Effect<K, E, S>)
    requires Inv(log, start, s) && k < |s.clients|
    requires Sound(log, effect.records) && Grows(s.records, effect.records)
    requires effect.wrote ==> !s.clients[k].wrote && IdIsFree(log, s.records, s.clients[k].call)
    requires forall key :: |EventsOf(effect.records, key)| ==
                           |EventsOf(s.records, key)| + if effect.wrote && key == s.clients[k].call.key then 1 else 0
    requires ClientInv(log, effect.records, Client(s.clients[k].call, effect.pc, s.clients[k].wrote || effect.wrote))
    ensures var c := s.clients[k];
            Inv(log, start, System(effect.records, s.clients[k := Client(c.call, effect.pc, c.wrote || effect.wrote)]))
  {
    var c := Client(s.clients[k].call, effect.pc, s.clients[k].wrote || effect.wrote);
    var t := System(effect.records, s.clients[k := c]);
    forall d <- t.clients ensures ClientInv(log, t.records, d) {
      if d != c {
        ClientStable(log, s.records, t.records, d);
      }
    }
    forall key ensures Balanced(start, t, key) {
      assert Balanced(start, s, key);
      WrittenUpdated(s.clients, k, c, key);
    }
    forall i, j | 0 <= i < |t.clients| && 0 <= j < |t.clients| && i != j
      ensures WroteDifferent(log, t.clients[i], t.clients[j])
    {
      assert ClientInv(log, s.records, s.clients[i]) && ClientInv(log, s.records, s.clients[j]);
      assert WroteDifferent(log, s.clients[i], s.clients[j]);
    }
  }

  lemma NextKeeps<K(!new), E(!new), S(!new)>(
    log: Log<K, E, S>, start: Records<K, E, S>, s: System<K, E, S>, e: Event<K, E>)
    requires Inv(log, start, s)
    ensures Inv(log, start, Next(log, s, e)) && Grows(s.records, Next(log, s, e).records)
  {
    match e
    case Invoke(call) =>
      var c := Client(call, At(if call.Update? then Ensuring else Evaluating), false);
      if Valid(log, call) {
        forall key ensures Balanced(start, Next(log, s, e), key) {
          assert Balanced(start, s, key);
          WrittenAppended(s.clients, c, key);
        }
      }
    case Move(k, fault) =>
      if k < |s.clients| && s.clients[k].pc.At? {
        var c := s.clients[k];
        OpKeeps(log, s.records, c);
        FaultKeeps(log, s.records, c, fault);
        MoveKeeps(log, start, s, k, Advance(log, s.records, c.call, c.pc.stage, fault));
      }
  }

  /** A failure of the database hides the outcome of a step, or prevents it. */
  lemma FaultKeeps<K(!new), E(!new), S(!new)>(
    log: Log<K, E, S>, records: Records<K, E, S>, c: Client<K, E, S>, fault: Fault)
    requires Sound(log, records) && ClientInv(log, records, c) && c.pc.At?
    ensures var effect := Advance(log, records, c.call, c.pc.stage, fault);
            && Sound(log, effect.records) && Grows(records, effect.records)
            && ClientInv(log, effect.records, Client(c.call, effect.pc, c.wrote || effect.wrote))
            && (effect.wrote ==> !c.wrote && IdIsFree(log, records, c.call))
            && forall key :: |EventsOf(effect.records, key)| ==
                             |EventsOf(records, key)| + if effect.wrote && key == c.call.key then 1 else 0
  {
    OpKeeps(log, records, c);
    HidingKeeps(log, records, c);
    HidingKeeps(log, Op(log, records, c.call, c.pc.stage).records,
                Client(c.call, c.pc, c.wrote || Op(log, records, c.call, c.pc.stage).wrote));
  }

  lemma HidingKeeps<K(!new), E(!new), S(!new)>(log: Log<K, E, S>, records: Records<K, E, S>, c: Client<K, E, S>)
    requires Valid(log, c.call) && (c.wrote ==> c.call.Update? && c.call.event in EventsOf(records, c.call.key))
    ensures ClientInv(log, records, c.(pc := Returned(Failed(Unavailable))))
  {
  }

  /** The invariant holds at every point of every run. */
  lemma {:induction false} RunKeeps<K(!new), E(!new), S(!new)>(log: Log<K, E, S>, r: Run<K, E, S>, p: nat)
    requires Reached(log, r, p)
    ensures Inv(log, StartOf(log, r), r.states[p])
  {
    if p > 0 {
      RunKeeps(log, r, p - 1);
      assert StepsAt(log, r, p - 1);
      NextKeeps(log, StartOf(log, r), r.states[p - 1], r.events[p - 1]);
    }
  }

  // ---- What every run guarantees ----

  /**
   * At every point of every run, the state of every record is the replay of its log, whose event
   * identifiers are unique: its reader never refuses it.
   */
  lemma StateIsReplay<K(!new), E(!new), S(!new)>(log: Log<K, E, S>, r: Run<K, E, S>, p: nat, key: K)
    requires Reached(log, r, p) && key in r.states[p].records
    ensures var record := r.states[p].records[key];
            && record.schemaVersion == 1 && record.key == key && log.validKey(key)
            && record.state == Replay(log, record.events) && UniqueIds(log, record.events)
            && Read(log, record, key) == Ok((record.state, record.events))
  {
    RunKeeps(log, r, p);
  }

  /** Logs are append-only: at every later point, a log has kept its events in their order. */
  lemma {:induction false} LogsOnlyGrow<K(!new), E(!new), S(!new)>(log: Log<K, E, S>, r: Run<K, E, S>, p: nat, q: nat)
    requires Reached(log, r, q) && p <= q
    ensures Grows(r.states[p].records, r.states[q].records)
    decreases q
  {
    if p < q {
      LogsOnlyGrow(log, r, p, q - 1);
      RunKeeps(log, r, q - 1);
      assert StepsAt(log, r, q - 1);
      NextKeeps(log, StartOf(log, r), r.states[q - 1], r.events[q - 1]);
    }
  }

  function Occurrences<E(==)>(events: seq<E>, event: E): nat {
    multiset(events)[event]
  }

  lemma OccursOnce<K(!new), E(!new), S(!new)>(log: Log<K, E, S>, events: seq<E>, event: E)
    requires UniqueIds(log, events)
    ensures Occurrences(events, event) == if event in events then 1 else 0
  {
    if event in events {
      var i :| 0 <= i < |events| && events[i] == event;
      assert events == events[..i] + [event] + events[i + 1..];
      assert event !in events[..i] && event !in events[i + 1..];
      assert multiset(events) == multiset(events[..i]) + multiset{event} + multiset(events[i + 1..]);
    }
  }

  /** None of the caller's own steps so far met a database failure. */
  ghost predicate Dependable<K, E, S>(log: Log<K, E, S>, r: Run<K, E, S>, p: nat, k: nat)
    requires IsRun(log, r)
  {
    forall n :: 0 <= n < p && n < |r.events| && r.events[n].Move? && r.events[n].client == k ==>
      r.events[n].fault.NoFault?
  }

  lemma AvailableStep<K(!new), E(!new), S(!new)>(
    log: Log<K, E, S>, start: Records<K, E, S>, s: System<K, E, S>, e: Event<K, E>, k: nat)
    requires Inv(log, start, s) && k < |Next(log, s, e).clients|
    requires Next(log, s, e).clients[k].pc == Returned(Failed(Unavailable))
    ensures k < |s.clients|
    ensures s.clients[k].pc == Returned(Failed(Unavailable)) || (e.Move? && e.client == k && !e.fault.NoFault?)
  {
    hide Balanced, WroteDifferent, Grows, ClientInv, Sound;
  }

  /** Whatever failures others meet, a caller that meets none is never told that the database is unavailable. */
  lemma {:induction false} DependableIsAnswered<K(!new), E(!new), S(!new)>(
    log: Log<K, E, S>, r: Run<K, E, S>, p: nat, k: nat)
    requires Reached(log, r, p) && k < |r.states[p].clients| && Dependable(log, r, p, k)
    ensures r.states[p].clients[k].pc != Returned(Failed(Unavailable))
    decreases p
  {
    hide Next, Inv, Sound;
    if p > 0 && r.states[p].clients[k].pc == Returned(Failed(Unavailable)) {
      assert StepsAt(log, r, p - 1);
      RunKeeps(log, r, p - 1);
      AvailableStep(log, StartOf(log, r), r.states[p - 1], r.events[p - 1], k);
      DependableIsAnswered(log, r, p - 1, k);
    }
  }

  /** How the answer of an update relates to the log of its key. */
  ghost predicate AnswerFits<K, E(!new), S>(log: Log<K, E, S>, stored: seq<E>, c: Client<K, E, S>)
    requires c.call.Update? && c.pc.Returned?
  {
    var failed := c.pc.answer == Failed(Unavailable);
    && (!failed ==> (Occurrences(stored, c.call.event) == 1 <==> !c.pc.answer.Failed?))
    && (!failed ==> (IdHeldByOther(log, stored, c.call.event) <==> c.pc.answer == Failed(Conflict)))
    && (c.pc.answer == Failed(Conflict) ==> !c.wrote && Occurrences(stored, c.call.event) == 0)
  }

  lemma AnswersFit<K(!new), E(!new), S(!new)>(log: Log<K, E, S>, records: Records<K, E, S>, c: Client<K, E, S>)
    requires Sound(log, records) && ClientInv(log, records, c) && c.call.Update? && c.pc.Returned?
    ensures AnswerFits(log, EventsOf(records, c.call.key), c)
  {
    var stored := EventsOf(records, c.call.key);
    assert UniqueIds(log, stored);
    OccursOnce(log, stored, c.call.event);
    if c.call.event in stored {
      assert !IdHeldByOther(log, stored, c.call.event);
    }
  }

  /**
   * An update that is told neither of success nor of a conflict met a database failure at one of its
   * own steps. One that succeeds has its event in the log exactly once, whoever wrote it; one that
   * conflicts wrote nothing, its event is not in the log, and another event holds the identifier.
   */
  lemma AnswersAreTrue<K(!new), E(!new), S(!new)>(
    log: Log<K, E, S>, r: Run<K, E, S>, p: nat, k: nat)
    requires Reached(log, r, p) && k < |r.states[p].clients|
    requires r.states[p].clients[k].call.Update? && r.states[p].clients[k].pc.Returned?
    ensures AnswerFits(log, EventsOf(r.states[p].records, r.states[p].clients[k].call.key), r.states[p].clients[k])
    ensures r.states[p].clients[k].pc.answer == Failed(Unavailable) ==> !Dependable(log, r, p, k)
  {
    hide Dependable, AnswerFits, Sound, ClientInv, IsRun;
    RunKeeps(log, r, p);
    AnswersFit(log, r.states[p].records, r.states[p].clients[k]);
    if Dependable(log, r, p, k) {
      DependableIsAnswered(log, r, p, k);
    }
  }

  /** What a caller is told at the end, and an update on its way, depends on whether updates evaluate. */
  predicate AnswersInKind<K, E, S>(log: Log<K, E, S>, c: Client<K, E, S>) {
    && (c.pc == At(Evaluating) && c.call.Update? ==> log.evaluates)
    && (c.pc.Returned? && c.pc.answer.Done? ==> c.call.Update? && !log.evaluates)
    && (c.pc.Returned? && c.pc.answer.State? && c.call.Update? ==> log.evaluates)
  }

  lemma KindStep<K(!new), E(!new), S(!new)>(log: Log<K, E, S>, s: System<K, E, S>, e: Event<K, E>, k: nat)
    requires k < |Next(log, s, e).clients|
    requires k < |s.clients| ==> AnswersInKind(log, s.clients[k])
    ensures AnswersInKind(log, Next(log, s, e).clients[k])
  {
    hide Read, WellFormed, Replay;
  }

  /** An update that succeeds is told so, or told the state, as the kind of log has it; a query is told the state. */
  lemma {:induction false} AnswersAreInKind<K(!new), E(!new), S(!new)>(
    log: Log<K, E, S>, r: Run<K, E, S>, p: nat, k: nat)
    requires Reached(log, r, p) && k < |r.states[p].clients|
    ensures AnswersInKind(log, r.states[p].clients[k])
    decreases p
  {
    hide Next, AnswersInKind, Sound;
    if p > 0 {
      assert StepsAt(log, r, p - 1);
      if k < |r.states[p - 1].clients| {
        AnswersAreInKind(log, r, p - 1, k);
      }
      KindStep(log, r.states[p - 1], r.events[p - 1], k);
    }
  }

  /** A log grows by exactly one event for each caller whose own write took effect; none writes another's. */
  lemma EveryWriteIsLogged<K(!new), E(!new), S(!new)>(
    log: Log<K, E, S>, r: Run<K, E, S>, p: nat, key: K)
    requires Reached(log, r, p)
    ensures var s := r.states[p];
            && |EventsOf(s.records, key)| == |EventsOf(StartOf(log, r), key)| + Written(s.clients, key)
            && EventsOf(StartOf(log, r), key) <= EventsOf(s.records, key)
            && (forall j, k ::
                  0 <= j < |s.clients| && 0 <= k < |s.clients| && j != k && s.clients[j].wrote && s.clients[k].wrote ==>
                    s.clients[j].call != s.clients[k].call)
  {
    RunKeeps(log, r, p);
    EveryWriterUpdates(log, r, p);
    assert Balanced(StartOf(log, r), r.states[p], key);
  }

  lemma EveryWriterUpdates<K(!new), E(!new), S(!new)>(log: Log<K, E, S>, r: Run<K, E, S>, p: nat)
    requires Reached(log, r, p)
    ensures var s := r.states[p];
            forall j, k ::
              0 <= j < |s.clients| && 0 <= k < |s.clients| && j != k && s.clients[j].wrote && s.clients[k].wrote ==>
                s.clients[j].call != s.clients[k].call
  {
    RunKeeps(log, r, p);
    var s := r.states[p];
    forall j, k | 0 <= j < |s.clients| && 0 <= k < |s.clients| && j != k && s.clients[j].wrote && s.clients[k].wrote
      ensures s.clients[j].call != s.clients[k].call
    {
      assert ClientInv(log, s.records, s.clients[j]) && ClientInv(log, s.records, s.clients[k]);
      assert WroteDifferent(log, s.clients[j], s.clients[k]);
    }
  }

  /** Step `m` of the run is the one where caller `k` reads the state that it returns, and meets no failure. */
  ghost predicate EvaluatesAt<K, E, S>(log: Log<K, E, S>, r: Run<K, E, S>, m: nat, k: nat, call: Call<K, E>)
    requires IsRun(log, r)
  {
    && m < |r.events| && r.events[m] == Move(k, NoFault)
    && k < |r.states[m].clients| && r.states[m].clients[k].call == call && r.states[m].clients[k].pc == At(Evaluating)
  }

  /** A step that returns a state has read it from the records as they are. */
  lemma StateStep<K(!new), E(!new), S(!new)>(
    log: Log<K, E, S>, start: Records<K, E, S>, s: System<K, E, S>, e: Event<K, E>, k: nat)
    requires Inv(log, start, s) && k < |Next(log, s, e).clients|
    requires Next(log, s, e).clients[k].pc.Returned? && Next(log, s, e).clients[k].pc.answer.State?
    ensures k < |s.clients| && s.clients[k].call == Next(log, s, e).clients[k].call
    ensures s.clients[k].pc == Next(log, s, e).clients[k].pc
            || (&& e == Move(k, NoFault) && s.clients[k].pc == At(Evaluating)
                && Next(log, s, e).clients[k].pc.answer.state == Replay(log, EventsOf(s.records, s.clients[k].call.key))
                && (s.clients[k].call.Update? ==>
                    s.clients[k].call.event in EventsOf(s.records, s.clients[k].call.key)))
  {
    hide Balanced, WroteDifferent, Grows;
    if e.Move? && e.client == k && k < |s.clients| && s.clients[k].pc.At? {
      assert ClientInv(log, s.records, s.clients[k]);
      if s.clients[k].pc.stage.Evaluating? {
        EvaluationKeeps(log, s.records, s.clients[k]);
      }
    }
  }

  /**
   * A state that is returned is the replay of the log as it is at one step of the call itself, the one
   * that evaluates; for an update, its event is then in the log.
   */
  lemma {:induction false} ReturnedStateWasReal<K(!new), E(!new), S(!new)>(
    log: Log<K, E, S>, r: Run<K, E, S>, p: nat, k: nat) returns (m: nat)
    requires Reached(log, r, p) && k < |r.states[p].clients|
    requires r.states[p].clients[k].pc.Returned? && r.states[p].clients[k].pc.answer.State?
    ensures var c := r.states[p].clients[k];
            && m < p && EvaluatesAt(log, r, m, k, c.call)
            && var read := EventsOf(r.states[m].records, c.call.key);
               c.pc.answer.state == Replay(log, read) && (c.call.Update? ==> c.call.event in read)
    decreases p
  {
    hide Next, Inv, Sound;
    if p > 0 {
      assert StepsAt(log, r, p - 1);
      RunKeeps(log, r, p - 1);
      StateStep(log, StartOf(log, r), r.states[p - 1], r.events[p - 1], k);
      if r.states[p - 1].clients[k].pc == r.states[p].clients[k].pc {
        m := ReturnedStateWasReal(log, r, p - 1, k);
      } else {
        m := p - 1;
      }
    }
  }
}
