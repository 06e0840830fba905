// persistence/mongo.py: text session windows, stored beside the log of the sessions opened.
module TextSessions {
  import opened Wrappers
  import opened Text
  import opened EventLog
  import Phone

  datatype SessionKey = SessionKey(providerKey: string, phoneNumberId: string, recipient: string)

  datatype SessionEvent = SessionEvent(id: string, purposes: seq<string>, openedAt: int, expiresAt: int)

  datatype Window = Window(purposes: seq<string>, openedAt: int, expiresAt: int)

  predicate Distinct(purposes: seq<string>) {
    forall i, j :: 0 <= i < |purposes| && 0 <= j < |purposes| && purposes[i] == purposes[j] ==> i == j
  }

  predicate PurposeKeys(purposes: seq<string>, allowEmpty: bool) {
    && (forall p <- purposes :: NonBlank(p))
    && Distinct(purposes)
    && (purposes == [] ==> allowEmpty)
  }

  /** The loops of `_purpose_keys` and `_stored_purpose_keys`. */
  method CheckPurposeKeys(purposes: seq<string>, allowEmpty: bool) returns (ok: bool)
    ensures ok == PurposeKeys(purposes, allowEmpty)
  {
    var seen: set<string> := {};
    for i := 0 to |purposes|
      invariant seen == (set p | p in purposes[..i])
      invariant forall p <- purposes[..i] :: NonBlank(p)
      invariant Distinct(purposes[..i])
    {
      var purpose := purposes[i];
      if !NonBlank(purpose) {
        return false;
      }
      if purpose in seen {
        var j :| 0 <= j < i && purposes[..i][j] == purpose;
        assert purposes[j] == purposes[i];
        return false;
      }
      assert purposes[..i + 1] == purposes[..i] + [purpose];
      seen := seen + {purpose};
    }
    assert purposes[..|purposes|] == purposes;
    return purposes != [] || allowEmpty;
  }

  predicate ValidEvent(e: SessionEvent) {
    && NonBlank(e.id) && PurposeKeys(e.purposes, false)
    && 0 <= e.openedAt < e.expiresAt
  }

  function WindowOf(e: SessionEvent): Window {
    Window(e.purposes, e.openedAt, e.expiresAt)
  }

  const CLOSED := Window([], 0, 0)

  const SESSION_LOG: Log<SessionKey, SessionEvent, Window> := Log(
    CLOSED,
    (_, e) => WindowOf(e),
    (e: SessionEvent) => e.id,
    (key: SessionKey) => NonBlank(key.providerKey) && NonBlank(key.phoneNumberId) && Phone.IsE164(key.recipient),
    e => ValidEvent(e),
    false)

  type SessionRecord = Record<SessionKey, SessionEvent, Window>

  /** The window of a log is that of its last event. */
  lemma ReplayIsLast(events: seq<SessionEvent>)
    ensures Replay(SESSION_LOG, events) == if events == [] then CLOSED else WindowOf(events[|events| - 1])
  {
  }

  /** `_session_record_from_document`: one pass over the log that keeps the last window. */
  method ReadSessionRecord(r: SessionRecord, expected: SessionKey)
    returns (result: Result<(Window, seq<SessionEvent>), LogError>)
    ensures result == Read(SESSION_LOG, r, expected)
    ensures result == if SoundRecord(r, expected) then Ok((r.state, r.events)) else Err(BadRecord)
  {
    hide SoundRecord;
    ReadsSoundRecords(r, expected);
    ReplayIsLast(r.events);
    if r.schemaVersion != SCHEMA_VERSION || r.key != expected || !SESSION_LOG.validKey(r.key) {
      return Err(BadRecord);
    }
    var purposesOk := CheckPurposeKeys(r.state.purposes, true);
    if !purposesOk || r.state.openedAt < 0 || r.state.expiresAt < 0 {
      StateOfValidLog(r.events);
      return Err(BadRecord);
    }
    var eventIds: set<string> := {};
    var last := CLOSED;
    for i := 0 to |r.events|
      invariant eventIds == Ids(SESSION_LOG, r.events[..i]) && UniqueIds(SESSION_LOG, r.events[..i])
      invariant forall e <- r.events[..i] :: ValidEvent(e)
      invariant last == if i == 0 then CLOSED else WindowOf(r.events[i - 1])
    {
      var event := r.events[i];
      IdsExtend(SESSION_LOG, r.events, i);
      assert event in r.events && (SESSION_LOG.validEvent(event) <==> ValidEvent(event));
      if event.id in eventIds {
        return Err(BadRecord);
      }
      var eventPurposesOk := CheckPurposeKeys(event.purposes, false);
      if !NonBlank(event.id) || !eventPurposesOk || event.openedAt < 0 || event.expiresAt < 0
        || event.expiresAt <= event.openedAt {
        assert !ValidEvent(event);
        return Err(BadRecord);
      }
      eventIds := eventIds + {event.id};
      last := WindowOf(event);
    }
    assert r.events[..|r.events|] == r.events;
    if r.state != last {
      return Err(BadRecord);
    }
    return Ok((r.state, r.events));
  }

  lemma StateOfValidLog(events: seq<SessionEvent>)
    ensures (forall e <- events :: ValidEvent(e)) ==>
              var w := Replay(SESSION_LOG, events);
              PurposeKeys(w.purposes, true) && w.openedAt >= 0 && w.expiresAt >= 0
  {
    ReplayIsLast(events);
    if events != [] {
      assert events[|events| - 1] in events;
    }
  }

  /** `has_active_session` at a time of the clock. */
  function HasActiveSession(
    records: Records<SessionKey, SessionEvent, Window>, key: SessionKey, purpose: string, now: nat): Result<bool,
    LogError>
  {
    if key !in records then Ok(false)
    else
      match Read(SESSION_LOG, records[key], key)
      case Err(e) => Err(e)
      case Ok((window, _)) => Ok(purpose in window.purposes && window.expiresAt > now)
  }

  /**
   * Under any racing writers, a session is active exactly if the last one logged for its key allows
   * the purpose and has not expired; the reader never refuses the record.
   */
  lemma ActiveIffLastLogged(
    run: Run<SessionKey, SessionEvent, Window>, p: nat, key: SessionKey, purpose: string, now: nat)
    requires Reached(SESSION_LOG, run, p)
    ensures var records := run.states[p].records;
            var log := EventsOf(records, key);
            HasActiveSession(records, key, purpose, now) ==
              Ok(log != [] && purpose in log[|log| - 1].purposes && log[|log| - 1].expiresAt > now)
  {
    RunKeeps(SESSION_LOG, run, p);
    ReplayIsLast(EventsOf(run.states[p].records, key));
  }

  /** What a session event says. */
  predicate Sensible(e: SessionEvent) {
    && NonBlank(e.id) && 0 <= e.openedAt < e.expiresAt
    && e.purposes != [] && (forall purpose <- e.purposes :: NonBlank(purpose)) && Distinct(e.purposes)
  }

  /** The window is that of the last session, and closed before the first. */
  predicate IsWindowOf(w: Window, events: seq<SessionEvent>) {
    if events == [] then w.purposes == [] && w.openedAt == 0 && w.expiresAt == 0
    else
      var last := events[|events| - 1];
      w.purposes == last.purposes && w.openedAt == last.openedAt && w.expiresAt == last.expiresAt
  }

  /** The record has the expected key, its events are sensible and distinct, and its window is the last one's. */
  predicate SoundRecord(r: SessionRecord, expected: SessionKey) {
    && r.schemaVersion == 1 && r.key == expected
    && NonBlank(expected.providerKey) && NonBlank(expected.phoneNumberId) && Phone.IsE164(expected.recipient)
    && (forall e <- r.events :: Sensible(e))
    && (forall i, j :: 0 <= i < |r.events| && 0 <= j < |r.events| && r.events[i].id == r.events[j].id ==> i == j)
    && IsWindowOf(r.state, r.events)
  }

  lemma ReadsSoundRecords(r: SessionRecord, expected: SessionKey)
    ensures Read(SESSION_LOG, r, expected) ==
            if SoundRecord(r, expected) then Ok((r.state, r.events)) else Err(BadRecord)
  {
    assert forall e: SessionEvent :: SESSION_LOG.validEvent(e) <==> Sensible(e);
    ReplayIsLast(r.events);
  }

  /** Under any racing writers, every stored window is that of the last session logged for its key. */
  lemma StoredWindowIsLast(run: Run<SessionKey, SessionEvent, Window>, p: nat, key: SessionKey)
    requires Reached(SESSION_LOG, run, p) && key in run.states[p].records
    ensures IsWindowOf(run.states[p].records[key].state, run.states[p].records[key].events)
  {
    RunKeeps(SESSION_LOG, run, p);
    ReplayIsLast(run.states[p].records[key].events);
  }

  /** Opening a session returns nothing but its success. */
  lemma OpeningReturnsNothing(run: Run<SessionKey, SessionEvent, Window>, p: nat, k: nat)
    requires Reached(SESSION_LOG, run, p) && k < |run.states[p].clients| && run.states[p].clients[k].pc.Returned?
    requires run.states[p].clients[k].call.Update?
    ensures run.states[p].clients[k].pc.answer.Done? || run.states[p].clients[k].pc.answer.Failed?
  {
    AnswersAreInKind(SESSION_LOG, run, p, k);
  }
}
