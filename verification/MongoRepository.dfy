// persistence/mongo.py: the intent repository as its methods run without interruption, proved against
// the single steps of IntentStore, and its recovery loop.
module MongoRepository {
  import opened Wrappers
  import opened Text
  import opened Contracts
  import opened IntentRecords
  import opened IntentStore
  import opened Linearization
  import opened Service
  import opened Recovery
  import D = Dispatch

  datatype UpsertOutcome = Upserted | Matched | DuplicateKey

  /** The collection, with its unique indexes on the scope, the intent and the correlation identifier. */
  class Collection {
    var docs: Store

    constructor ()
      ensures docs == []
    {
      docs := [];
    }

    method FindOne(query: Query) returns (found: Option<Doc>)
      ensures found == (match Find(docs, query) case None => None case Some(i) => Some(docs[i]))
    {
      var at := Find(docs, query);
      found := if at.Some? then Some(docs[at.value]) else None;
    }

    /** `update_one` with `$setOnInsert`, filtered by the scope of the new document. */
    method Upsert(doc: Doc) returns (outcome: UpsertOutcome)
      modifies this
      ensures outcome ==
              if Find(old(docs), ByScope(doc.intent.Key())).Some? then Matched
              else if IdentityTaken(old(docs), doc.intent) then DuplicateKey
              else Upserted
      ensures docs == if outcome.Upserted? then old(docs) + [doc] else old(docs)
    {
      if Find(docs, ByScope(doc.intent.Key())).Some? {
        return Matched;
      }
      for i := 0 to |docs|
        invariant docs == old(docs)
        invariant forall j :: 0 <= j < i ==>
                    docs[j].intent.intentId != doc.intent.intentId
                      && docs[j].intent.correlationId != doc.intent.correlationId
      {
        if docs[i].intent.intentId == doc.intent.intentId || docs[i].intent.correlationId == doc.intent.correlationId {
          return DuplicateKey;
        }
      }
      docs := docs + [doc];
      return Upserted;
    }

    method FindOneAndUpdate(query: Query, update: Doc -> Doc) returns (after: Option<Doc>)
      modifies this
      ensures match Find(old(docs), query)
              case None => after == None && docs == old(docs)
              case Some(i) => after == Some(update(old(docs)[i])) && docs == old(docs)[i := update(old(docs)[i])]
    {
      var at := Find(docs, query);
      if at == None {
        return None;
      }
      var updated := update(docs[at.value]);
      docs := docs[at.value := updated];
      return Some(updated);
    }

    /** The recovery query: filtered, sorted and limited. */
    method FindStale(before: int, limit: nat) returns (candidates: seq<Doc>)
      ensures candidates == Candidates(docs, before, limit)
    {
      candidates := Candidates(docs, before, limit);
    }
  }

  function AnswerOf(d: Doc): Response {
    match Decode(d)
    case Ok(intent) => Found(Some(intent))
    case Err(_) => Raised(BadRecord)
  }

  /** The picked documents are where they were, or closed. */
  predicate ClosedSoFar(docs: Store, docs': Store, picked: seq<Doc>, done: nat)
    requires done <= |picked|
  {
    StoreInv(docs') && Closed(docs, docs', picked[..done])
  }

  datatype RecoveryAnswer = Refused | Recovered(count: nat) | ClockFailed

  /** How many of the first `n` readings of the clock come before a negative one. */
  function Readings(clock: nat -> int, n: nat): (m: nat)
    ensures m <= n
  {
    if n == 0 then 0
    else
      var m := Readings(clock, n - 1);
      if m == n - 1 && clock(n - 1) >= 0 then n else m
  }

  class MongoIntentRepository {
    const collection: Collection

    constructor (collection: Collection)
      ensures this.collection == collection
    {
      this.collection := collection;
    }

    method Get(scope: Scope, now: int) returns (response: Response)
      ensures Step(collection.docs, Returned(response)) == Alone(collection.docs, GetRead(scope), now)
    {
      AloneStep(collection.docs, GetRead(scope), now);
      var document := collection.FindOne(ByScope(scope));
      response := if document == None then Found(None) else AnswerOf(document.value);
    }

    method CreateIfAbsent(intent: MessageIntent, now: int) returns (response: Response)
      modifies collection
      ensures Step(collection.docs, Returned(response)) == Alone(old(collection.docs), CreateUpsert(intent), now)
    {
      ghost var first := IntentStore.Upsert(collection.docs, intent, now);
      TwoSteps(collection.docs, CreateUpsert(intent), now, first);
      if now < 0 {
        return Raised(BadClock);
      }
      if !intent.state.Pending? || intent.result.Some? {
        return Raised(NotPending);
      }
      var outcome := collection.Upsert(NewDoc(intent, now));
      var stored := collection.FindOne(ByScope(intent.Key()));
      if stored == None {
        return Raised(if outcome.DuplicateKey? then IdentityConflict else Unconfirmed);
      }
      response := match Decode(stored.value)
        case Ok(current) => Created(current, outcome.Upserted?)
        case Err(_) => Raised(BadRecord);
    }

    method ClaimIntent(id: string, now: int) returns (response: Response)
      modifies collection
      ensures Step(collection.docs, Returned(response)) == Alone(old(collection.docs), ClaimRead(id), now)
    {
      TwoSteps(collection.docs, ClaimRead(id), now, ReadForClaim(collection.docs, id));
      var current := collection.FindOne(ById(id));
      if current == None {
        return Found(None);
      }
      if Decode(current.value).Err? {
        return Raised(BadRecord);
      }
      if !current.value.intent.state.Pending? {
        return Found(None);
      }
      if now < 0 {
        return Raised(BadClock);
      }
      var n := current.value.attemptCount;
      var claimed := collection.FindOneAndUpdate(Claimable(id, n), d => ClaimedDoc(d, n, now));
      response := if claimed == None then Found(None) else AnswerOf(claimed.value);
    }

    method CompleteIntent(id: string, expected: IntentState, result: DispatchResult, now: int)
      returns (response: Response)
      modifies collection
      ensures Step(collection.docs, Returned(response)) ==
              Alone(old(collection.docs), CompleteRead(id, expected, result), now)
    {
      ghost var first := ReadForCompletion(collection.docs, id, expected, result, now);
      TwoSteps(collection.docs, CompleteRead(id, expected, result), now, first);
      var current := collection.FindOne(ByIdInState(id, expected));
      if current == None {
        return Found(None);
      }
      var d := current.value;
      if Decode(d).Err? {
        return Raised(BadRecord);
      }
      if !d.intent.Matches(result) {
        return Raised(IdentityConflict);
      }
      var active: Option<nat> := None;
      if expected.Dispatching? {
        if d.attemptCount < 1 || d.attempts[d.attemptCount - 1].completedAt.Some? {
          return Raised(BadRecord);
        }
        active := Some(d.attemptCount - 1);
      } else if expected.Pending? {
        if d.attemptCount != 0 || d.attempts != [] {
          return Raised(BadRecord);
        }
      } else {
        return if now < 0 then Raised(BadClock) else Found(None);
      }
      if now < 0 {
        return Raised(BadClock);
      }
      var completed := collection.FindOneAndUpdate(Completable(id, expected, active), x =>
        CompletedDoc(x, active, result, now));
      response := if completed == None then Found(None) else AnswerOf(completed.value);
    }

    /**
     * Run alone, a recovery call closes exactly the stale intents that come first, as many as the
     * limit allows, and returns their number. `clock(i)` is the clock's reading at completion `i`: at
     * the first negative one the call raises, and what it closed before stays closed.
     */
    method RecoverStaleDispatching(before: int, limit: int, clock: nat -> int) returns (answer: RecoveryAnswer)
      requires StoreInv(collection.docs)
      modifies collection
      ensures answer.Refused? <==> before < 0 || !(1 <= limit <= 1000)
      ensures answer.Refused? ==> collection.docs == old(collection.docs)
      ensures !answer.Refused? ==>
                var picked := Candidates(old(collection.docs), before, limit);
                var n := Readings(clock, |picked|);
                && |picked| == Min(limit, |StaleSet(old(collection.docs), before)|)
                && ClosedSoFar(old(collection.docs), collection.docs, picked, n)
                && answer == if n == |picked| then Recovered(n) else ClockFailed
      ensures answer.Recovered? ==> RecoveryCall(old(collection.docs), collection.docs, before, limit)
    {
      hide StoreInv, Closed, Candidates, StaleSet, Alone, RecoveredResult;
      if before < 0 || !(1 <= limit <= D.MAX_RECOVERY_LIMIT) {
        return Refused;
      }
      var candidates := collection.FindStale(before, limit);
      CandidatesCount(collection.docs, before, limit);
      var count := 0;
      NothingClosedYet(collection.docs, candidates);
      for j := 0 to |candidates|
        invariant count == j == Readings(clock, j)
        invariant ClosedSoFar(old(collection.docs), collection.docs, candidates, j)
      {
        NextIsStored(old(collection.docs), collection.docs, candidates, before, limit, j, clock(j));
        var intent := candidates[j].intent;
        var response := CompleteIntent(intent.intentId, Dispatching, RecoveredResult(intent), clock(j));
        if response.Raised? {
          ReadingsStop(clock, j, |candidates|);
          return ClockFailed;
        }
        if response.Found? && response.found.Some? {
          count := count + 1;
        }
      }
      assert candidates[..|candidates|] == candidates;
      return Recovered(count);
    }
  }

  lemma CandidatesCount(docs: Store, before: int, limit: nat)
    requires StoreInv(docs)
    ensures |Candidates(docs, before, limit)| == Min(limit, |StaleSet(docs, before)|)
  {
    CandidatesAreTheLeast(docs, before, limit);
  }

  lemma {:induction false} ReadingsStop(clock: nat -> int, j: nat, n: nat)
    requires Readings(clock, j) == j < n && clock(j) < 0
    ensures Readings(clock, n) == j
    decreases n
  {
    if n > j + 1 {
      ReadingsStop(clock, j, n - 1);
    }
  }

  lemma NothingClosedYet(docs: Store, picked: seq<Doc>)
    requires StoreInv(docs)
    ensures ClosedSoFar(docs, docs, picked, 0)
  {
    forall i | 0 <= i < |docs| ensures ClosedAt(docs, docs, picked[..0], i) {
    }
  }

  /** A completion from DISPATCHING, run alone. */
  lemma CompletesAlone(docs: Store, i: nat, result: DispatchResult, now: int)
    requires StoreInv(docs) && i < |docs| && docs[i].intent.state.Dispatching? && now >= 0
    requires result.Valid() && docs[i].intent.Matches(result)
    ensures var step := Alone(docs, CompleteRead(docs[i].intent.intentId, Dispatching, result), now);
            && step.docs == docs[i := CompletedDoc(docs[i], Some(0), result, now)] && StoreInv(step.docs)
            && step.pc == Returned(Found(Some(Expected(docs[i].intent, result))))
  {
    var id := docs[i].intent.intentId;
    FindUnique(docs, ById(id), i);
    FindUnique(docs, ByIdInState(id, Dispatching), i);
    var first := ReadForCompletion(docs, id, Dispatching, result, now);
    CompletionReadKeepsStore(docs, id, Dispatching, result, now);
    TwoSteps(docs, CompleteRead(id, Dispatching, result), now, first);
    CompletionKeepsStore(docs, id, Dispatching, result, Some(0), now);
  }

  /** A rejection of a PENDING intent, run alone. */
  lemma RejectsAlone(docs: Store, i: nat, result: DispatchResult, now: int)
    requires StoreInv(docs) && i < |docs| && docs[i].intent.state.Pending? && now >= 0
    requires result.Valid() && docs[i].intent.Matches(result)
    ensures var step := Alone(docs, CompleteRead(docs[i].intent.intentId, Pending, result), now);
            && step.docs == docs[i := CompletedDoc(docs[i], None, result, now)]
            && step.pc == Returned(Found(Some(Expected(docs[i].intent, result))))
  {
    var id := docs[i].intent.intentId;
    FindUnique(docs, ById(id), i);
    FindUnique(docs, ByIdInState(id, Pending), i);
    var first := ReadForCompletion(docs, id, Pending, result, now);
    CompletionReadKeepsStore(docs, id, Pending, result, now);
    TwoSteps(docs, CompleteRead(id, Pending, result), now, first);
    CompletionKeepsStore(docs, id, Pending, result, None, now);
  }

  /** A claim of a PENDING intent, run alone. */
  lemma ClaimsAlone(docs: Store, i: nat, now: int)
    requires StoreInv(docs) && i < |docs| && docs[i].intent.state.Pending? && now >= 0
    ensures var step := Alone(docs, ClaimRead(docs[i].intent.intentId), now);
            && step.docs == docs[i := ClaimedDoc(docs[i], 0, now)]
            && step.pc == Returned(Found(Some(docs[i].intent.(state := Dispatching))))
  {
    var id := docs[i].intent.intentId;
    FindUnique(docs, ById(id), i);
    TwoSteps(docs, ClaimRead(id), now, ReadForClaim(docs, id));
    ClaimKeepsStore(docs, id, 0, now);
  }

  /** A creation in a free scope, run alone. */
  lemma CreatesAlone(docs: Store, intent: MessageIntent, now: int)
    requires StoreInv(docs) && intent.Valid() && intent.state.Pending? && now >= 0
    requires Find(docs, ByScope(intent.Key())) == None
    ensures Alone(docs, CreateUpsert(intent), now) ==
            if IdentityTaken(docs, intent) then Step(docs, Returned(Raised(IdentityConflict)))
            else Step(docs + [NewDoc(intent, now)], Returned(Created(intent, true)))
  {
    var first := IntentStore.Upsert(docs, intent, now);
    TwoSteps(docs, CreateUpsert(intent), now, first);
    if !IdentityTaken(docs, intent) {
      InsertKeepsStore(docs, intent, now);
      FindUnique(first.docs, ByScope(intent.Key()), |docs|);
      NewDocIsWellFormed(intent, now);
    }
  }

  /**
   * The next candidate is still stored as it was read, and its completion closes it and nothing else,
   * or raises for a negative clock reading and changes nothing.
   */
  lemma NextIsStored(docs: Store, cur: Store, picked: seq<Doc>, before: int, limit: nat, j: nat, now: int)
    requires StoreInv(docs) && picked == Candidates(docs, before, limit) && j < |picked|
    requires ClosedSoFar(docs, cur, picked, j)
    ensures var intent := picked[j].intent;
            var step := Alone(cur, CompleteRead(intent.intentId, Dispatching, RecoveredResult(intent)), now);
            if now < 0 then step == Step(cur, Returned(Raised(BadClock)))
            else ClosedSoFar(docs, step.docs, picked, j + 1) && step.pc.response.Found? && step.pc.response.found.Some?
  {
    hide StoreInv, NonBlank, Alone;
    PickedAreEarliest(docs, before, limit);
    assert picked[j] in Members(picked);
    var i :| 0 <= i < |docs| && docs[i] == picked[j];
    NotYetPicked(picked, j);
    assert ClosedAt(docs, cur, picked[..j], i);
    StoredNames(docs, i);
    LocalResultsAreValid(docs[i].intent);
    if now < 0 {
      CompletionNeedsClock(cur, i, RecoveredResult(docs[i].intent), now);
    } else {
      CompletesAlone(cur, i, RecoveredResult(docs[i].intent), now);
      ClosesOneMore(docs, cur, picked, i, j, now);
    }
  }

  lemma CompletionNeedsClock(docs: Store, i: nat, result: DispatchResult, now: int)
    requires StoreInv(docs) && i < |docs| && docs[i].intent.state.Dispatching? && now < 0
    requires result.Valid() && docs[i].intent.Matches(result)
    ensures Alone(docs, CompleteRead(docs[i].intent.intentId, Dispatching, result), now) ==
            Step(docs, Returned(Raised(BadClock)))
  {
    var id := docs[i].intent.intentId;
    FindUnique(docs, ById(id), i);
    FindUnique(docs, ByIdInState(id, Dispatching), i);
    var first := ReadForCompletion(docs, id, Dispatching, result, now);
    CompletionReadKeepsStore(docs, id, Dispatching, result, now);
    TwoSteps(docs, CompleteRead(id, Dispatching, result), now, first);
  }

  lemma ClosesOneMore(docs: Store, cur: Store, picked: seq<Doc>, i: nat, j: nat, now: int)
    requires StoreInv(docs) && i < |docs| && j < |picked| && docs[i] == picked[j]
    requires Closed(docs, cur, picked[..j]) && cur[i] == docs[i]
    ensures Closed(docs, cur[i := CompletedDoc(docs[i], Some(0), RecoveredResult(docs[i].intent), now)],
                   picked[..j + 1])
  {
    hide StoreInv, RecoveredResult;
    var closed := cur[i := CompletedDoc(docs[i], Some(0), RecoveredResult(docs[i].intent), now)];
    var done := picked[..j + 1];
    assert done == picked[..j] + [picked[j]];
    forall x | 0 <= x < |docs| ensures ClosedAt(docs, closed, done, x) {
      assert ClosedAt(docs, cur, picked[..j], x);
      if docs[x] == docs[i] {
        SameIndex(docs, i, x);
      }
    }
  }

  lemma NotYetPicked(picked: seq<Doc>, j: nat)
    requires InOrder(picked) && j < |picked|
    ensures picked[j] !in picked[..j]
  {
    EarlierIsStrictOrder(picked[j], picked[j], picked[j]);
  }

  lemma StoredNames(docs: Store, i: nat)
    requires StoreInv(docs) && i < |docs|
    ensures docs[i].intent.Valid()
  {
    assert WellFormed(docs[i]);
  }

  lemma SameIndex(docs: Store, i: nat, j: nat)
    requires StoreInv(docs) && i < |docs| && j < |docs| && docs[i] == docs[j]
    ensures i == j
  {
    StoreHasDistinctIds(docs);
  }
}
