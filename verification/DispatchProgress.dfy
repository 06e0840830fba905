// Every call of the service ends: a bound on a caller's own steps, whatever the others do and
// whatever fails.
module DispatchProgress {
  import opened Wrappers
  import opened Text
  import opened IntentRecords
  import opened IntentStore
  import opened Service
  import opened Dispatch
  import opened DispatchInvariant
  import opened DispatchRuns
  import L = Linearization
  import Fingerprint
  import Recovery
  import Serialization

  const MAX_SEND_STEPS := 11

  /** How many steps a sender has left at most. */
  function Rank(phase: Phase): nat {
    match phase
    case Looking(_) => MAX_SEND_STEPS
    case Creating(_, pc) => 8 + L.StepsLeft(pc)
    case Policy(_, _) => 8
    case Session(_, _) => 7
    case Claiming(_, _, pc) => 4 + L.StepsLeft(pc)
    case Sending(_, _) => 4
    case Awaiting(_, _) => 3
    case Denying(_, pc) => 1 + L.StepsLeft(pc)
    case Resolving(_, _) => 1
    case Completing(_, _, _, pc) => L.StepsLeft(pc)
    case Finished(_) => 0
    case Crashed => 0
  }

  lemma AdvanceRanks(docs: Store, pc: Pc, now: int, fault: Fault)
    requires !pc.Returned?
    ensures L.StepsLeft(Advance(docs, pc, now, fault).pc) < L.StepsLeft(pc)
  {
    L.StepsDecrease(docs, pc, now);
  }

  lemma PhasesRank(s: System, k: nat)
    requires Inv(s) && k < |s.senders|
    ensures JobOk(s.senders[k].job) && |s.tags| == |s.docs| && Rank(s.senders[k].phase) <= MAX_SEND_STEPS
    ensures PcOf(s.senders[k].phase).Some? ==> !PcOf(s.senders[k].phase).value.Returned?
    ensures s.senders[k].phase.Creating? ==> L.StepsLeft(s.senders[k].phase.pc) <= 2
    ensures s.senders[k].phase.Looking? || s.senders[k].phase.Resolving? ==> s.senders[k].phase.pc.GetRead?
  {
    hide CallInv, DocInv, WellFormed, NonBlank, Fingerprint.RequestFingerprint;
    assert SenderInv(s.docs, s.tags, s.calls, k, s.senders[k]);
  }

  /** Each step of a sender brings it closer to its end, a failed one no less. */
  lemma MoveRanks(s: System, k: nat, input: Input)
    requires Inv(s) && k < |s.senders| && !Over(s.senders[k].phase)
    ensures Rank(MoveSender(s, k, input).senders[k].phase) < Rank(s.senders[k].phase)
  {
    hide Inv, JobOk, NonBlank, Op, Advance, Retag, SameRequest, Serialization.Deserialize, GatewayResult,
      UnregisteredResult, DeniedResult, IntentFor, RequestFor, Expected;
    PhasesRank(s, k);
    if PcOf(s.senders[k].phase).Some? {
      AdvanceRanks(s.docs, PcOf(s.senders[k].phase).value, input.now, input.fault);
    }
  }

  /** Other events do not set a sender back. */
  lemma OthersRank(s: System, e: Event, k: nat)
    requires k < |s.senders| && !(e.Move? && e.sender == k)
    ensures k < |Next(s, e).senders| && Rank(Next(s, e).senders[k].phase) <= Rank(s.senders[k].phase)
  {
    hide Prepare, AfterStep, Advance, Retag, RetagRecovered, Serialization.Serialize, Pick, GatewayResult, JobOk,
      Fingerprint.RequestFingerprint, NonBlank, StartCompleting, AfterPolicy, AfterSession;
  }

  /** The steps that caller `k` takes between two points of a run. */
  function MovesOf(r: Run, k: nat, n: nat, p: nat): nat
    requires IsRun(r) && n <= p <= |r.events|
    decreases p - n
  {
    if n == p then 0
    else MovesOf(r, k, n, p - 1) + if r.events[p - 1].Move? && r.events[p - 1].sender == k then 1 else 0
  }

  /**
   * A send is over after at most eleven steps of its own, and at each point after at most as many
   * more as its rank, whatever other callers do in between and whatever the database, the clock, the
   * policies and the provider answer.
   */
  lemma {:induction false} SendsEnd(r: Run, k: nat, n: nat, p: nat)
    requires At(r, p) && n <= p && k < |r.states[n].senders|
    ensures k < |r.states[p].senders|
    ensures Over(r.states[p].senders[k].phase)
            || MovesOf(r, k, n,
                       p) + Rank(r.states[p].senders[k].phase) <= Rank(r.states[n].senders[k].phase) <= MAX_SEND_STEPS
    ensures MovesOf(r, k, n, p) >= Rank(r.states[n].senders[k].phase) ==> Over(r.states[p].senders[k].phase)
    decreases p
  {
    hide Next, Inv;
    RunKeeps(r, p);
    PhasesRank(r.states[n], k) by { RunKeeps(r, n); }
    if n < p {
      var (s, e) := (r.states[p - 1], r.events[p - 1]);
      assert StepsAt(r, p - 1);
      SendsEnd(r, k, n, p - 1);
      RunKeeps(r, p - 1);
      RunsGrow(r, p - 1, p);
      assert Continues(s.senders[k], r.states[p].senders[k]);
      if e.Move? && e.sender == k {
        MoveIsNext(s, k, e.input);
        if !Over(s.senders[k].phase) {
          MoveRanks(s, k, e.input);
        }
      } else {
        OthersRank(s, e, k);
      }
    }
    OverIffRank(r.states[p], k);
  }

  lemma OverIffRank(s: System, k: nat)
    requires Inv(s) && k < |s.senders|
    ensures Over(s.senders[k].phase) <==> Rank(s.senders[k].phase) == 0
  {
    hide Inv;
    PhasesRank(s, k);
  }

  // ---- Recovery calls ----

  /** How many steps a recovery call has left at most. */
  function RecoveryRank(c: Recoverer): nat {
    match c
    case Scanning(_, limit) => 1 + 2 * limit
    case Working(_, todo, pc, _) => if todo == [] then 0 else L.StepsLeft(pc) + 2 * (|todo| - 1)
    case Done(_) => 0
    case Broken(_) => 0
  }

  predicate RecoveryOver(c: Recoverer) {
    c.Done? || c.Broken?
  }

  lemma PickRanks(before: int, todo: seq<Doc>, recovered: nat)
    ensures RecoveryRank(Pick(before, todo, recovered)) <= 2 * |todo|
  {
  }

  lemma RecoverersRank(s: System, q: nat)
    requires Inv(s) && q < |s.recoverers|
    ensures |s.tags| == |s.docs| && StoreInv(s.docs)
    ensures s.recoverers[q].Working? ==> s.recoverers[q].todo != [] && L.StepsLeft(s.recoverers[q].pc) > 0
    ensures RecoveryOver(s.recoverers[q]) <==> RecoveryRank(s.recoverers[q]) == 0
  {
    hide SenderInv, DocInv, WellFormed, Listed, StoreInv;
    assert RecovererInv(s.docs, s.recoverers[q]);
  }

  lemma StepRanks(s: System, q: nat, now: int, fault: Fault)
    requires Inv(s) && q < |s.recoverers| && !RecoveryOver(s.recoverers[q])
    ensures RecoveryRank(StepRecovery(s, q, now, fault).recoverers[q]) < RecoveryRank(s.recoverers[q])
  {
    hide Inv, StoreInv, Op, Advance, RetagRecovered, Pick, Recovery.Candidates;
    RecoverersRank(s, q);
    match s.recoverers[q]
    case Scanning(before, limit) =>
      Recovery.CandidatesAreTheLeast(s.docs, before, limit);
      PickRanks(before, Recovery.Candidates(s.docs, before, limit), 0);
    case Working(before, todo, pc, recovered) =>
      AdvanceRanks(s.docs, pc, now, fault);
      PickRanks(before, todo[1..], recovered);
      PickRanks(before, todo[1..], recovered + 1);
  }

  lemma OthersKeepRank(s: System, e: Event, q: nat)
    requires q < |s.recoverers| && !(e.MoveRecovery? && e.recoverer == q)
    ensures q < |Next(s, e).recoverers| && RecoveryRank(Next(s, e).recoverers[q]) <= RecoveryRank(s.recoverers[q])
  {
    hide Prepare, AfterStep, Advance, Retag, RetagRecovered, Serialization.Serialize, Pick, GatewayResult, JobOk,
      Fingerprint.RequestFingerprint, NonBlank, StartCompleting, AfterPolicy, AfterSession, AfterRecovery,
      Recovery.Candidates;
  }

  /** Nothing restarts a recovery call that is over. */
  lemma OverStays(s: System, e: Event, q: nat)
    requires q < |s.recoverers| && RecoveryOver(s.recoverers[q])
    ensures q < |Next(s, e).recoverers| && Next(s, e).recoverers[q] == s.recoverers[q]
  {
    hide Prepare, AfterStep, Advance, Retag, RetagRecovered, Serialization.Serialize, Pick, GatewayResult, JobOk,
      Fingerprint.RequestFingerprint, NonBlank, StartCompleting, AfterPolicy, AfterSession, AfterRecovery,
      Recovery.Candidates;
  }

  /** The steps that recovery call `q` takes between two points of a run. */
  function RecoveryMovesOf(r: Run, q: nat, n: nat, p: nat): nat
    requires IsRun(r) && n <= p <= |r.events|
    decreases p - n
  {
    if n == p then 0
    else RecoveryMovesOf(r, q, n, p - 1) + if r.events[p - 1].MoveRecovery? && r.events[p - 1].recoverer == q then 1
      else 0
  }

  /** A recovery call is over after at most one step for its query and two for each intent of its limit. */
  lemma {:induction false} RecoveriesEnd(r: Run, q: nat, n: nat, p: nat)
    requires At(r, p) && n <= p && q < |r.states[n].recoverers|
    ensures q < |r.states[p].recoverers|
    ensures RecoveryOver(r.states[p].recoverers[q])
            || RecoveryMovesOf(r, q, n,
                               p) + RecoveryRank(r.states[p].recoverers[q]) <= RecoveryRank(r.states[n].recoverers[q])
    ensures RecoveryMovesOf(r, q, n, p) >= RecoveryRank(r.states[n].recoverers[q]) ==>
            RecoveryOver(r.states[p].recoverers[q])
    decreases p
  {
    hide Next, Inv, RecoveryOver;
    RunKeeps(r, p);
    if n < p {
      var (s, e) := (r.states[p - 1], r.events[p - 1]);
      assert StepsAt(r, p - 1);
      RecoveriesEnd(r, q, n, p - 1);
      RunKeeps(r, p - 1);
      if RecoveryOver(s.recoverers[q]) {
        OverStays(s, e, q);
      } else if e.MoveRecovery? && e.recoverer == q {
        StepIsNext(s, q, e.now, e.fault);
        StepRanks(s, q, e.now, e.fault);
      } else {
        OthersKeepRank(s, e, q);
      }
    }
    RecoverersRank(r.states[p], q);
  }

  lemma StepIsNext(s: System, q: nat, now: int, fault: Fault)
    requires q < |s.recoverers|
    ensures Next(s, MoveRecovery(q, now, fault)) == StepRecovery(s, q, now, fault)
    ensures |StepRecovery(s, q, now, fault).recoverers| == |s.recoverers|
  {
    hide Advance, Pick, RetagRecovered, Recovery.Candidates, AfterRecovery;
  }
}
