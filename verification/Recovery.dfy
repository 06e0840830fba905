// persistence/mongo.py: which stale dispatches a recovery call picks, in which order, and how many calls
// it takes to recover all of them.
module Recovery {
  import opened Wrappers
  import opened Contracts
  import opened IntentRecords
  import opened IntentStore
  import opened Service
  import J = Json

  /** The filter of the recovery query. */
  predicate Stale(d: Doc, before: int) {
    d.intent.state.Dispatching? && d.dispatchStartedAt.Some? && d.dispatchStartedAt.value < before
  }

  function StartedAt(d: Doc): int {
    if d.dispatchStartedAt.Some? then d.dispatchStartedAt.value else 0
  }

  /** The order of the recovery query: by dispatch start, then by intent identifier. */
  predicate Earlier(a: Doc, b: Doc) {
    StartedAt(a) < StartedAt(b) || (StartedAt(a) == StartedAt(b) && J.Less(a.intent.intentId, b.intent.intentId))
  }

  function Insert(d: Doc, sorted: seq<Doc>): seq<Doc> {
    if sorted == [] then [d]
    else if Earlier(sorted[0], d) then [sorted[0]] + Insert(d, sorted[1..])
    else [d] + sorted
  }

  /** The stale documents, in order. */
  function StaleSorted(docs: Store, before: int): seq<Doc> {
    if docs == [] then []
    else
      var others := StaleSorted(docs[1..], before);
      if Stale(docs[0], before) then Insert(docs[0], others) else others
  }

  function Take<T>(s: seq<T>, n: nat): seq<T> {
    if n < |s| then s[..n] else s
  }

  /** What the recovery query returns. */
  function Candidates(docs: Store, before: int, limit: nat): seq<Doc> {
    Take(StaleSorted(docs, before), limit)
  }

  lemma {:induction false} InsertMembers(d: Doc, sorted: seq<Doc>)
    ensures multiset(Insert(d, sorted)) == multiset{d} + multiset(sorted)
  {
    if sorted != [] {
      InsertMembers(d, sorted[1..]);
      assert sorted == [sorted[0]] + sorted[1..];
    }
  }

  lemma {:induction false} StaleMembers(docs: Store, before: int)
    ensures forall d :: d in StaleSorted(docs, before) <==> d in docs && Stale(d, before)
  {
    if docs != [] {
      StaleMembers(docs[1..], before);
      assert docs == [docs[0]] + docs[1..];
      var others := StaleSorted(docs[1..], before);
      InsertMembers(docs[0], others);
      assert forall d :: d in Insert(docs[0], others) <==> d in multiset(Insert(docs[0], others));
    }
  }

  // ---- The order ----

  lemma {:induction false} LessTotal(a: string, b: string)
    ensures J.Less(a, b) || J.Less(b, a) || a == b
    ensures !(J.Less(a, b) && J.Less(b, a))
  {
    if a != [] && b != [] && a[0] == b[0] {
      LessTotal(a[1..], b[1..]);
      assert a == [a[0]] + a[1..] && b == [b[0]] + b[1..];
    }
  }

  lemma {:induction false} LessTransitive(a: string, b: string, c: string)
    requires J.Less(a, b) && J.Less(b, c)
    ensures J.Less(a, c)
  {
    if a != [] && a[0] == b[0] == c[0] {
      LessTransitive(a[1..], b[1..], c[1..]);
    }
  }

  /** Documents with different identifiers are strictly ordered. */
  lemma EarlierIsStrictOrder(a: Doc, b: Doc, c: Doc)
    ensures a.intent.intentId != b.intent.intentId ==> (Earlier(a, b) <==> !Earlier(b, a))
    ensures Earlier(a, b) && Earlier(b, c) ==> Earlier(a, c)
    ensures !Earlier(a, a)
  {
    LessTotal(a.intent.intentId, b.intent.intentId);
    LessTotal(a.intent.intentId, a.intent.intentId);
    if J.Less(a.intent.intentId, b.intent.intentId) && J.Less(b.intent.intentId, c.intent.intentId) {
      LessTransitive(a.intent.intentId, b.intent.intentId, c.intent.intentId);
    }
  }

  predicate InOrder(s: seq<Doc>) {
    forall i, j :: 0 <= i < j < |s| ==> Earlier(s[i], s[j])
  }

  lemma {:induction false} InsertInOrder(d: Doc, sorted: seq<Doc>)
    requires InOrder(sorted) && forall x <- sorted :: x.intent.intentId != d.intent.intentId
    ensures InOrder(Insert(d, sorted))
  {
    if sorted != [] {
      var r := Insert(d, sorted);
      EarlierIsStrictOrder(sorted[0], d, d);
      if Earlier(sorted[0], d) {
        InsertInOrder(d, sorted[1..]);
        InsertMembers(d, sorted[1..]);
        forall j | 1 <= j < |r| ensures Earlier(r[0], r[j]) {
          assert r[j] in multiset(Insert(d, sorted[1..]));
        }
      } else {
        forall j | 1 <= j < |r| ensures Earlier(d, r[j]) {
          EarlierIsStrictOrder(d, sorted[0], r[j]);
        }
      }
    }
  }

  predicate DistinctIds(docs: Store) {
    forall i, j :: 0 <= i < |docs| && 0 <= j < |docs| && i != j ==> docs[i].intent.intentId != docs[j].intent.intentId
  }

  lemma StoreHasDistinctIds(docs: Store)
    requires StoreInv(docs)
    ensures DistinctIds(docs)
  {
    forall i, j | 0 <= i < |docs| && 0 <= j < |docs| && i != j
      ensures docs[i].intent.intentId != docs[j].intent.intentId
    {
      assert UniqueAt(docs, i, j);
    }
  }

  lemma {:induction false} StaleSortedInOrder(docs: Store, before: int)
    requires DistinctIds(docs)
    ensures InOrder(StaleSorted(docs, before))
  {
    if docs != [] {
      StaleSortedInOrder(docs[1..], before);
      StaleMembers(docs[1..], before);
      var others := StaleSorted(docs[1..], before);
      forall x <- others ensures x.intent.intentId != docs[0].intent.intentId {
        var j :| 0 <= j < |docs[1..]| && docs[1..][j] == x;
        assert docs[j + 1] == x;
      }
      InsertInOrder(docs[0], others);
    }
  }

  // ---- What is picked ----

  ghost function StaleSet(docs: Store, before: int): set<Doc> {
    set d | d in docs && Stale(d, before)
  }

  ghost function Members(s: seq<Doc>): set<Doc> {
    set d | d in s
  }

  lemma {:induction false} OrderedSize(s: seq<Doc>)
    requires InOrder(s)
    ensures |Members(s)| == |s|
  {
    if s != [] {
      OrderedSize(s[1..]);
      assert s[0] !in s[1..] by {
        EarlierIsStrictOrder(s[0], s[0], s[0]);
      }
      assert s == [s[0]] + s[1..];
      assert Members(s) == {s[0]} + Members(s[1..]);
    }
  }

  function Min(a: nat, b: nat): nat {
    if a < b then a else b
  }

  lemma PickedAreEarliest(docs: Store, before: int, limit: nat)
    requires StoreInv(docs)
    ensures var picked := Candidates(docs, before, limit);
            && Members(picked) <= StaleSet(docs, before)
            && |picked| == Min(limit, |StaleSet(docs, before)|) == |Members(picked)|
            && InOrder(picked)
            && forall c, d :: c in picked && d in docs && Stale(d, before) && d !in picked ==> Earlier(c, d)
  {
    var sorted := StaleSorted(docs, before);
    var picked := Candidates(docs, before, limit);
    StoreHasDistinctIds(docs);
    StaleSortedInOrder(docs, before);
    StaleMembers(docs, before);
    assert Members(sorted) == StaleSet(docs, before);
    OrderedSize(sorted);
    OrderedSize(picked);
    forall j | 0 <= j < |picked| ensures sorted[j] in picked {
      assert picked[j] == sorted[j];
    }
    forall c, d | c in picked && d in docs && Stale(d, before) && d !in picked ensures Earlier(c, d) {
      var i :| 0 <= i < |picked| && picked[i] == c;
      var j :| 0 <= j < |sorted| && sorted[j] == d;
    }
  }

  /** One document was claimed before the other, or at the same time with the smaller identifier. */
  predicate Precedes(a: Doc, b: Doc) {
    && a.dispatchStartedAt.Some? && b.dispatchStartedAt.Some?
    && (|| a.dispatchStartedAt.value < b.dispatchStartedAt.value
        || (a.dispatchStartedAt == b.dispatchStartedAt && Smaller(a.intent.intentId, b.intent.intentId)))
  }

  predicate Smaller(a: string, b: string) {
    exists n :: 0 <= n <= |a| && n < |b| && a[..n] == b[..n] && (n == |a| || a[n] < b[n])
  }

  lemma PrecedesIff(a: Doc, b: Doc, before: int)
    requires Stale(a, before) && Stale(b, before)
    ensures Precedes(a, b) <==> Earlier(a, b)
  {
    J.LessIff(a.intent.intentId, b.intent.intentId);
  }

  /**
   * A recovery query returns documents only that are DISPATCHING since before the threshold, as many as
   * there are up to the limit, in the order of their claims and identifiers, and every other such
   * document comes after all of them.
   */
  lemma CandidatesAreTheLeast(docs: Store, before: int, limit: nat)
    requires StoreInv(docs)
    ensures var picked := Candidates(docs, before, limit);
            && (forall d <- picked ::
                  d in docs && d.intent.state.Dispatching? && d.dispatchStartedAt.Some?
                    && d.dispatchStartedAt.value < before)
            && |picked| == Min(limit, |StaleSet(docs, before)|) == |Members(picked)|
            && (forall i, j :: 0 <= i < j < |picked| ==> Precedes(picked[i], picked[j]))
            && (forall c, d ::
                  (c in picked && d in docs && d.intent.state.Dispatching? && d.dispatchStartedAt.Some?
                   && d.dispatchStartedAt.value < before && d !in picked) ==> Precedes(c, d))
  {
    hide StoreInv, Candidates, Earlier, Precedes;
    var picked := Candidates(docs, before, limit);
    PickedAreEarliest(docs, before, limit);
    forall d | d in picked ensures d in docs && Stale(d, before) {
      assert d in Members(picked);
    }
    forall i, j | 0 <= i < j < |picked| ensures Precedes(picked[i], picked[j]) {
      PrecedesIff(picked[i], picked[j], before);
    }
    forall c, d | c in picked && d in docs && Stale(d, before) && d !in picked ensures Precedes(c, d) {
      PrecedesIff(c, d, before);
    }
  }

  // ---- What a recovery call leaves ----

  /** Exactly the picked documents are closed as UNKNOWN; their attempts are closed, none is added. */
  predicate Closed(docs: Store, docs': Store, picked: seq<Doc>) {
    |docs'| == |docs| && forall i :: 0 <= i < |docs| ==> ClosedAt(docs, docs', picked, i)
  }

  predicate ClosedAt(docs: Store, docs': Store, picked: seq<Doc>, i: nat)
    requires i < |docs| == |docs'|
  {
    docs'[i] ==
      if docs[i] in picked then CompletedDoc(docs[i], Some(0), RecoveredResult(docs[i].intent), docs'[i].updatedAt)
      else docs[i]
  }

  /** The effect of one recovery call that nothing interrupts. */
  predicate RecoveryCall(docs: Store, docs': Store, before: int, limit: nat) {
    StoreInv(docs') && Closed(docs, docs', Candidates(docs, before, limit))
  }

  lemma ClosedAddsNoAttempt(docs: Store, docs': Store, picked: seq<Doc>)
    requires Closed(docs, docs', picked)
    ensures forall i :: 0 <= i < |docs| ==>
            docs'[i].attemptCount == docs[i].attemptCount && |docs'[i].attempts| == |docs[i].attempts|
    ensures forall i :: 0 <= i < |docs| && docs[i] in picked ==> docs'[i].intent.state.Unknown?
  {
    forall i | 0 <= i < |docs|
      ensures docs'[i].attemptCount == docs[i].attemptCount && |docs'[i].attempts| == |docs[i].attempts|
      ensures docs[i] in picked ==> docs'[i].intent.state.Unknown?
    {
      assert ClosedAt(docs, docs', picked, i);
      ClosedDoc(docs[i], docs'[i].updatedAt);
    }
  }

  lemma ClosedDoc(d: Doc, now: int)
    ensures var closed := CompletedDoc(d, Some(0), RecoveredResult(d.intent), now);
            closed.attemptCount == d.attemptCount && |closed.attempts| == |d.attempts| && closed.intent.state.Unknown?
  {
  }

  /** A recovery call leaves exactly the stale documents that it did not pick: fewer by its limit, or none. */
  lemma RecoveryReducesStale(docs: Store, docs': Store, before: int, limit: nat)
    requires StoreInv(docs) && RecoveryCall(docs, docs', before, limit)
    ensures StaleSet(docs', before) == StaleSet(docs, before) - Members(Candidates(docs, before, limit))
    ensures |StaleSet(docs', before)| == |StaleSet(docs, before)| - Min(limit, |StaleSet(docs, before)|)
  {
    var picked := Candidates(docs, before, limit);
    PickedAreEarliest(docs, before, limit);
    ClosedAddsNoAttempt(docs, docs', picked);
    var (was, left) := (StaleSet(docs, before), StaleSet(docs', before));
    forall d | d in left ensures d in was && d !in picked {
      var i :| 0 <= i < |docs'| && docs'[i] == d;
      assert ClosedAt(docs, docs', picked, i);
    }
    forall d | d in was && d !in picked ensures d in left {
      var i :| 0 <= i < |docs| && docs[i] == d;
      assert ClosedAt(docs, docs', picked, i);
      assert docs'[i] == d;
    }
    assert left == was - Members(picked);
  }

  lemma StaleCount(docs: Store, docs': Store, before: int, limit: nat)
    requires StoreInv(docs) && RecoveryCall(docs, docs', before, limit)
    ensures StoreInv(docs')
    ensures |StaleSet(docs', before)| == |StaleSet(docs, before)| - Min(limit, |StaleSet(docs, before)|)
  {
    hide StoreInv, Closed, StaleSet, Members, Candidates;
    RecoveryReducesStale(docs, docs', before, limit);
  }

  /** The collection before, between and after a number of recovery calls. */
  predicate RecoveryCalls(states: seq<Store>, before: int, limit: nat) {
    && states != [] && StoreInv(states[0])
    && forall k :: 0 < k < |states| ==> CallAt(states, k, before, limit)
  }

  predicate CallAt(states: seq<Store>, k: nat, before: int, limit: nat)
    requires 0 < k < |states|
  {
    RecoveryCall(states[k - 1], states[k], before, limit)
  }

  lemma {:induction false} RecoveryCallsReduceStale(states: seq<Store>, before: int, limit: nat)
    requires RecoveryCalls(states, before, limit)
    ensures StoreInv(states[|states| - 1])
    ensures var n := |StaleSet(states[0], before)|;
            |StaleSet(states[|states| - 1], before)| == n - Min(n, (|states| - 1) * limit)
  {
    hide StoreInv, RecoveryCall, StaleSet;
    var calls := |states| - 1;
    if calls > 0 {
      var sofar := states[..calls];
      forall k | 0 < k < |sofar| ensures CallAt(sofar, k, before, limit) {
        assert CallAt(states, k, before, limit);
      }
      RecoveryCallsReduceStale(sofar, before, limit);
      assert CallAt(states, calls, before, limit);
      StaleCount(states[calls - 1], states[calls], before, limit);
      assert calls * limit == (calls - 1) * limit + limit;
    }
  }

  lemma CeilingDivision(n: nat, k: nat, m: nat)
    requires m > 0
    ensures k >= (n + m - 1) / m <==> k * m >= n
  {
    var q := (n + m - 1) / m;
    assert q * m <= n + m - 1 < q * m + m;
    if k >= q {
      assert k * m >= q * m;
    } else {
      assert k * m <= (q - 1) * m;
      assert (q - 1) * m == q * m - m;
    }
  }

  /** Repeated calls recover `n` stale dispatches in exactly ceil(n / limit) calls. */
  lemma RecoveryDrains(states: seq<Store>, before: int, limit: nat)
    requires RecoveryCalls(states, before, limit) && limit > 0
    ensures StaleSet(states[|states| - 1], before) == {} <==>
            |states| - 1 >= (|StaleSet(states[0], before)| + limit - 1) / limit
  {
    var n := |StaleSet(states[0], before)|;
    RecoveryCallsReduceStale(states, before, limit);
    CeilingDivision(n, |states| - 1, limit);
    assert StaleSet(states[|states| - 1], before) == {} <==> |StaleSet(states[|states| - 1], before)| == 0;
  }
}
