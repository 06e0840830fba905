// persistence/mongo.py: recipient consent and suppression, stored beside the log of their changes.
module RecipientPolicies {
  import opened Wrappers
  import opened Text
  import opened EventLog
  import Phone

  datatype Eligibility = Eligibility(consented: bool, suppressed: bool)

  datatype PolicyEvent = PolicyEvent(
    id: string,
    operation: string,
    actorId: string,
    source: string,
    evidenceReference: string,
    occurredAt: int)

  const POLICY_OPERATIONS := {"grant_consent", "revoke_consent", "apply_suppression", "clear_suppression"}

  predicate ValidEvent(e: PolicyEvent) {
    && NonBlank(e.id) && e.operation in POLICY_OPERATIONS
    && NonBlank(e.actorId) && NonBlank(e.source) && NonBlank(e.evidenceReference)
    && e.occurredAt >= 0
  }

  /** The flags that each operation sets: one of them, the other is left alone. */
  function Apply(s: Eligibility, e: PolicyEvent): Eligibility {
    if e.operation == "grant_consent" then s.(consented := true)
    else if e.operation == "revoke_consent" then s.(consented := false)
    else if e.operation == "apply_suppression" then s.(suppressed := true)
    else s.(suppressed := false)
  }

  const POLICY_LOG: Log<string, PolicyEvent, Eligibility> := Log(
    Eligibility(false, false),
    (s, e) => Apply(s, e),
    (e: PolicyEvent) => e.id,
    key => Phone.IsE164(key),
    e => ValidEvent(e),
    true)

  type PolicyRecord = Record<string, PolicyEvent, Eligibility>

  /** `_policy_record_from_document`: one pass over the log, with the identifiers and flags so far. */
  method ReadPolicyRecord(r: PolicyRecord, expectedRecipient: string)
    returns (result: Result<(Eligibility, seq<PolicyEvent>), LogError>)
    ensures result == Read(POLICY_LOG, r, expectedRecipient)
    ensures result == if SoundRecord(r, expectedRecipient) then Ok((r.state, r.events)) else Err(BadRecord)
  {
    hide SoundRecord;
    ReadsSoundRecords(r, expectedRecipient);
    if r.schemaVersion != SCHEMA_VERSION || !Phone.IsE164(r.key) || r.key != expectedRecipient {
      return Err(BadRecord);
    }
    var eventIds: set<string> := {};
    var consented, suppressed := false, false;
    for i := 0 to |r.events|
      invariant eventIds == Ids(POLICY_LOG, r.events[..i]) && UniqueIds(POLICY_LOG, r.events[..i])
      invariant forall e <- r.events[..i] :: ValidEvent(e)
      invariant Eligibility(consented, suppressed) == Replay(POLICY_LOG, r.events[..i])
    {
      var event := r.events[i];
      IdsExtend(POLICY_LOG, r.events, i);
      assert event in r.events && (POLICY_LOG.validEvent(event) <==> ValidEvent(event));
      if event.id in eventIds {
        return Err(BadRecord);
      }
      if !ValidEvent(event) {
        return Err(BadRecord);
      }
      eventIds := eventIds + {event.id};
      if event.operation == "grant_consent" {
        consented := true;
      } else if event.operation == "revoke_consent" {
        consented := false;
      } else if event.operation == "apply_suppression" {
        suppressed := true;
      } else {
        suppressed := false;
      }
    }
    assert r.events[..|r.events|] == r.events;
    if r.state != Eligibility(consented, suppressed) {
      return Err(BadRecord);
    }
    return Ok((r.state, r.events));
  }

  // ---- What the flags mean ----

  /** The last event about a flag is the one that raises it. */
  predicate LastWord(events: seq<PolicyEvent>, raises: string, lowers: string) {
    exists i :: 0 <= i < |events| && events[i].operation == raises &&
      forall j :: i < j < |events| ==> events[j].operation != lowers
  }

  lemma {:induction false} FlagsAreLastWords(events: seq<PolicyEvent>)
    requires forall e <- events :: ValidEvent(e)
    ensures var state := Replay(POLICY_LOG, events);
            && (state.consented <==> LastWord(events, "grant_consent", "revoke_consent"))
            && (state.suppressed <==> LastWord(events, "apply_suppression", "clear_suppression"))
  {
    if events != [] {
      var (before, last) := (events[..|events| - 1], events[|events| - 1]);
      OperationsDiffer();
      FlagsAreLastWords(before);
      assert Replay(POLICY_LOG, events) == Apply(Replay(POLICY_LOG, before), last) && last in events;
      LastWordExtended(events, "grant_consent", "revoke_consent");
      LastWordExtended(events, "apply_suppression", "clear_suppression");
    }
  }

  lemma OperationsDiffer()
    ensures "grant_consent" != "revoke_consent" && "grant_consent" != "apply_suppression"
            && "grant_consent" != "clear_suppression"
    ensures "revoke_consent" != "apply_suppression" && "revoke_consent" != "clear_suppression"
    ensures "apply_suppression" != "clear_suppression"
  {
    assert "grant_consent"[0] == 'g' && "revoke_consent"[0] == 'r' && "apply_suppression"[0] == 'a'
      && "clear_suppression"[0] == 'c';
  }

  lemma LastWordExtended(events: seq<PolicyEvent>, raises: string, lowers: string)
    requires events != [] && raises != lowers
    ensures var (before, last) := (events[..|events| - 1], events[|events| - 1].operation);
            LastWord(events, raises, lowers) <==> last == raises || (last != lowers && LastWord(before, raises, lowers))
  {
    var n := |events| - 1;
    var before := events[..n];
    if LastWord(events, raises, lowers) {
      var i :| 0 <= i < |events| && events[i].operation == raises && forall j :: i < j < |events| ==>
        events[j].operation != lowers;
      if i < n {
        assert before[i].operation == raises;
        assert events[n].operation != lowers;
        assert forall j :: i < j < n ==> before[j] == events[j];
      }
    }
    if events[n].operation == raises {
      assert LastWord(events, raises, lowers);
    } else if events[n].operation != lowers && LastWord(before, raises, lowers) {
      var i :| 0 <= i < n && before[i].operation == raises && forall j :: i < j < n ==> before[j].operation != lowers;
      assert events[i].operation == raises;
      assert forall j :: i < j < n ==> events[j] == before[j];
    }
  }

  /**
   * Under any racing writers, the stored flags are the last words of the log: a recipient is
   * consented exactly if its last consent event grants it, and suppressed exactly if its last
   * suppression event applies it.
   */
  lemma StoredFlagsAreLastWords(run: Run<string, PolicyEvent, Eligibility>, p: nat, recipient: string)
    requires Reached(POLICY_LOG, run, p) && recipient in run.states[p].records
    ensures var r := run.states[p].records[recipient];
            && (r.state.consented <==> LastWord(r.events, "grant_consent", "revoke_consent"))
            && (r.state.suppressed <==> LastWord(r.events, "apply_suppression", "clear_suppression"))
  {
    RunKeeps(POLICY_LOG, run, p);
    var r := run.states[p].records[recipient];
    forall e <- r.events ensures ValidEvent(e) {
      assert POLICY_LOG.validEvent(e);
    }
    FlagsAreLastWords(r.events);
  }

  /** What a policy event says. */
  predicate Sensible(e: PolicyEvent) {
    && NonBlank(e.id) && NonBlank(e.actorId) && NonBlank(e.source) && NonBlank(e.evidenceReference) && e.occurredAt >= 0
    && e.operation in {"grant_consent", "revoke_consent", "apply_suppression", "clear_suppression"}
  }

  /** The record is the recipient's own, its events are sensible and distinct, and its flags are their last words. */
  predicate SoundRecord(r: PolicyRecord, recipient: string) {
    && r.schemaVersion == 1 && r.key == recipient && Phone.IsE164(recipient)
    && (forall e <- r.events :: Sensible(e))
    && (forall i, j :: 0 <= i < |r.events| && 0 <= j < |r.events| && r.events[i].id == r.events[j].id ==> i == j)
    && (r.state.consented <==> LastWord(r.events, "grant_consent", "revoke_consent"))
    && (r.state.suppressed <==> LastWord(r.events, "apply_suppression", "clear_suppression"))
  }

  lemma ReadsSoundRecords(r: PolicyRecord, recipient: string)
    ensures Read(POLICY_LOG, r, recipient) ==
            if SoundRecord(r, recipient) then Ok((r.state, r.events)) else Err(BadRecord)
  {
    assert forall e: PolicyEvent :: POLICY_LOG.validEvent(e) <==> Sensible(e);
    if forall e <- r.events :: ValidEvent(e) {
      FlagsAreLastWords(r.events);
    }
  }

  /** A change of a policy that succeeds returns the flags. */
  lemma ChangesReturnFlags(run: Run<string, PolicyEvent, Eligibility>, p: nat, k: nat)
    requires Reached(POLICY_LOG, run, p) && k < |run.states[p].clients| && run.states[p].clients[k].pc.Returned?
    ensures run.states[p].clients[k].pc.answer.State? || run.states[p].clients[k].pc.answer.Failed?
  {
    AnswersAreInKind(POLICY_LOG, run, p, k);
  }
}
