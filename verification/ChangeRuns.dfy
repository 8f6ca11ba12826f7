/** What every run of the change machine keeps, however calls arrive. */
module ChangeRuns {
  import opened ChangePlan
  import opened ChangeMachine
  import Seqs
  import Sorting

  datatype Call = Call(event: Event, expectedVersion: nat)
  datatype Answer = Answer(view: View, outcome: Outcome)

  function Step(m: Machine, c: Call): Machine
  {
    After(m, c.event, c.expectedVersion)
  }

  predicate Accepts(m: Machine, c: Call)
  {
    Verdict(m, c.event, c.expectedVersion) == Accepted
  }

  function Run(m: Machine, calls: seq<Call>): Machine
    decreases |calls|
  {
    if calls == [] then m else Run(Step(m, calls[0]), calls[1..])
  }

  /** What the callers see, call by call. */
  function Answers(m: Machine, calls: seq<Call>): (r: seq<Answer>)
    ensures |r| == |calls|
    decreases |calls|
  {
    if calls == [] then []
    else
      var next := Step(m, calls[0]);
      [Answer(next.Show(), Verdict(m, calls[0].event, calls[0].expectedVersion))] + Answers(next, calls[1..])
  }

  /** The calls of a run that changed the machine. */
  function AcceptedCalls(m: Machine, calls: seq<Call>): seq<Call>
    decreases |calls|
  {
    if calls == [] then []
    else (if Accepts(m, calls[0]) then [calls[0]] else []) + AcceptedCalls(Step(m, calls[0]), calls[1..])
  }

  lemma {:induction false} RunJoins(m: Machine, a: seq<Call>, b: seq<Call>)
    ensures Run(m, a + b) == Run(Run(m, a), b)
    ensures Answers(m, a + b) == Answers(m, a) + Answers(Run(m, a), b)
    ensures AcceptedCalls(m, a + b) == AcceptedCalls(m, a) + AcceptedCalls(Run(m, a), b)
    decreases |a|
  {
    hide After;
    hide Verdict;
    if a == [] {
      assert a + b == b;
    } else {
      assert (a + b)[0] == a[0] && (a + b)[1..] == a[1..] + b;
      RunJoins(Step(m, a[0]), a[1..], b);
    }
  }

  // ----- the invariant -----

  /** The part of plan validity the machine relies on. */
  ghost predicate PlanFacts(plan: Plan)
  {
    && 1 <= |plan.body.probes| <= MAX_PROBES
    && Sorting.DistinctKeys(plan.body.probes, ProbeID)
    && (forall p | p in plan.body.probes :: IsIdentifier(p.id))
    && TimeoutsOk(plan.body.timeouts)
  }

  lemma CanonicalPlanFacts(plan: Plan)
    requires IsCanonical(plan)
    ensures PlanFacts(plan)
  {
    CanonicalSafe(plan);
    hide *;
    NormalPlanFacts(plan);
  }

  lemma NormalPlanFacts(plan: Plan)
    requires NormalOk(RequestOf(plan))
    ensures PlanFacts(plan)
  {
    hide IsIdentifier;
    assert forall p | p in plan.body.probes :: ProbeOk(p, plan.body.interfaces);
  }

  function ProbeIDs(plan: Plan): set<string>
  {
    set p | p in plan.body.probes :: p.id
  }

  lemma {:induction false} DistinctCount(probes: seq<ConnectivityProbe>)
    requires Sorting.DistinctKeys(probes, ProbeID)
    ensures |set p | p in probes :: p.id| == |probes|
  {
    if probes != [] {
      var n := |probes| - 1;
      var front := probes[..n];
      DistinctCount(front);
      assert probes == front + [probes[n]];
      var ids := set p | p in front :: p.id;
      forall p | p in front ensures p.id != probes[n].id {
        var j :| 0 <= j < n && probes[j] == p;
        assert ProbeID(probes[j]) != ProbeID(probes[n]);
      }
      assert (set p | p in probes :: p.id) == ids + {probes[n].id};
    }
  }

  ghost predicate Happened(m: Machine, kind: EventType)
  {
    exists id | id in m.processed :: m.processed[id].Sha256Of? && m.processed[id].content.kind == kind
  }

  /** An accepted event reports that this probe passed. */
  ghost predicate Probed(m: Machine, probeID: string)
  {
    exists id | id in m.processed ::
      && m.processed[id].Sha256Of?
      && m.processed[id].content.kind == ProbePassed
      && m.processed[id].content.probeID == probeID
  }

  /** Every processed event stands under its own id and no later than `latest`. */
  ghost predicate Recorded(processed: map<string, Digest<Event>>, latest: Time)
  {
    forall id | id in processed ::
      && processed[id].Sha256Of?
      && processed[id].content.id == id
      && processed[id].content.at <= latest
  }

  /** As many events are on record as the version says, and never more than
      one per probe and four. */
  ghost predicate RecordSound(m: Machine)
  {
    && m.snapshot.version == 1 + |m.processed|
    && |m.processed| <= |m.plan.body.probes| + 4
    && Recorded(m.processed, m.snapshot.updatedAt)
  }

  ghost predicate ProbesSound(m: Machine)
  {
    && m.passed <= ProbeIDs(m.plan)
    && forall p | p in m.passed :: Probed(m, p)
  }

  /** The last instant at which a change begun at `start` can still commit. */
  function CommitLimit(plan: Plan, start: Time): Time
  {
    start + plan.body.timeouts.snapshot + plan.body.timeouts.preflight + plan.body.timeouts.applyWindow
  }

  /** How far a change has come, as the record tells it. */
  datatype Progress = Progress(events: nat, passed: nat, complete: bool, captured: bool, preflighted: bool, applied: bool)

  ghost function ProgressOf(m: Machine): Progress
  {
    Progress(|m.processed|, |m.passed|, m.passed == ProbeIDs(m.plan),
             Happened(m, SnapshotCaptured), Happened(m, PreflightPassed), Happened(m, TemporaryApplied))
  }

  /** What each state says about the progress and the clock of a change over
      `n` probes begun at `start`. */
  predicate PhaseOk(s: Snapshot, t: TimeoutPolicy, n: nat, p: Progress, start: Time)
  {
    match s.state
    case SnapshotPending =>
      p.events == p.passed == 0 && !p.applied && s.updatedAt == start && s.deadline == start + t.snapshot
    case Preflight =>
      && p.events == 1 && p.passed == 0 && p.captured && !p.applied
      && s.updatedAt <= start + t.snapshot && s.deadline == s.updatedAt + t.preflight
    case ApplyWindow =>
      && p.events == 2 && p.passed == 0 && p.captured && p.preflighted && !p.applied
      && s.updatedAt <= start + t.snapshot + t.preflight && s.deadline == s.updatedAt + t.applyWindow
    case Probing =>
      && p.events == 3 + p.passed && p.passed < n && p.captured && p.preflighted && p.applied
      && s.updatedAt <= s.deadline <= start + t.snapshot + t.preflight + t.applyWindow
    case RollbackPending =>
      2 < p.events <= n + 3 && s.deadline == s.updatedAt + t.rollback && s.reasonCode != ""
    case Committed =>
      && p.complete && p.captured && p.preflighted && p.applied
      && s.updatedAt <= start + t.snapshot + t.preflight + t.applyWindow
    case RolledBack => s.reasonCode != ""
    case FailedClosed => s.reasonCode != ""
  }

  ghost predicate PhaseSound(m: Machine, start: Time)
  {
    PhaseOk(m.snapshot, m.plan.body.timeouts, |m.plan.body.probes|, ProgressOf(m), start)
  }

  ghost predicate Sound(m: Machine, start: Time)
  {
    PlanFacts(m.plan) && m.snapshot.planID == m.plan.planID &&
    RecordSound(m) && ProbesSound(m) && PhaseSound(m, start)
  }

  // ----- one step keeps it -----

  lemma StartSound(plan: Plan, now: Time)
    requires PlanFacts(plan)
    ensures Sound(Start(plan, now), now)
  {
  }

  /** What acceptance means, and what it does. */
  lemma AcceptedShape(m: Machine, c: Call)
    requires Accepts(m, c)
    ensures c.event.id !in m.processed && c.expectedVersion == m.snapshot.version
    ensures !m.State().Terminal() && Timely(m.snapshot, c.event) && Next(m, c.event).Move?
    ensures var move := Next(m, c.event);
            && Step(m, c).plan == m.plan
            && Step(m, c).snapshot == move.snapshot.(version := Increment(m.snapshot.version), updatedAt := c.event.at)
            && Step(m, c).passed == move.passed
            && Step(m, c).processed == m.processed[c.event.id := DigestOf(c.event)]
  {
    hide ValidEvent;
  }

  /** The version never wraps: far fewer events fit in a run. */
  lemma IncrementIsExact(version: nat)
    requires version <= MAX_PROBES + 4
    ensures Increment(version) == version + 1
  {
  }

  lemma RecordAdds(processed: map<string, Digest<Event>>, latest: Time, e: Event)
    requires Recorded(processed, latest) && e.id !in processed && latest <= e.at
    ensures Recorded(processed[e.id := DigestOf(e)], e.at)
    ensures |processed[e.id := DigestOf(e)]| == |processed| + 1
  {
    assert processed[e.id := DigestOf(e)].Keys == processed.Keys + {e.id};
  }

  /** An accepted event adds one record and forgets none. */
  lemma RecordGrows(m: Machine, c: Call)
    requires RecordSound(m) && Accepts(m, c) && |m.processed| < |m.plan.body.probes| + 4 && PlanFacts(m.plan)
    ensures RecordSound(Step(m, c))
    ensures |Step(m, c).processed| == |m.processed| + 1
  {
    IncrementIsExact(m.snapshot.version);
    RecordAdds(m.processed, m.snapshot.updatedAt, c.event);
    AcceptedShape(m, c);
    hide Step;
    hide Verdict;
    hide Next;
    hide Increment;
    hide Recorded;
    hide PlanFacts;
  }

  lemma HistoryGrows(m: Machine, c: Call)
    requires Accepts(m, c)
    ensures forall kind | kind != c.event.kind :: Happened(Step(m, c), kind) <==> Happened(m, kind)
    ensures Happened(Step(m, c), c.event.kind)
    ensures forall p | Probed(m, p) :: Probed(Step(m, c), p)
    ensures c.event.kind.ProbePassed? ==> Probed(Step(m, c), c.event.probeID)
  {
    AcceptedShape(m, c);
    hide Step;
    hide Verdict;
    hide Next;
    var after := Step(m, c).processed;
    assert forall id | id in m.processed :: id in after && after[id] == m.processed[id];
    assert c.event.id in after && after[c.event.id].content == c.event;
    forall kind | kind != c.event.kind && Happened(Step(m, c), kind) ensures Happened(m, kind) {
      var id :| id in after && after[id].Sha256Of? && after[id].content.kind == kind;
      assert id in m.processed;
    }
  }

  lemma StateBound(m: Machine, start: Time)
    requires Sound(m, start) && !m.State().Terminal()
    ensures |m.processed| < |m.plan.body.probes| + 4
    ensures m.snapshot.updatedAt <= m.snapshot.deadline
  {
  }

  lemma ProbesStep(m: Machine, c: Call)
    requires PlanFacts(m.plan) && ProbesSound(m) && Accepts(m, c)
    ensures ProbesSound(Step(m, c))
    ensures |Step(m, c).passed| <= |m.plan.body.probes|
    ensures |Step(m, c).passed| == |m.plan.body.probes| ==> Step(m, c).passed == ProbeIDs(m.plan)
  {
    AcceptedShape(m, c);
    HistoryGrows(m, c);
    PassedGrows(m, c.event);
    hide Step;
    hide Verdict;
    hide Probed;
    hide Next;
    hide ProbeIDs;
    ProbeCount(m.plan);
    Seqs.SubsetCount(Step(m, c).passed, ProbeIDs(m.plan));
  }

  lemma ProbeCount(plan: Plan)
    requires PlanFacts(plan)
    ensures |ProbeIDs(plan)| == |plan.body.probes|
  {
    DistinctCount(plan.body.probes);
  }

  /** A move adds at most the probe its event reports as passed, and a known one. */
  lemma PassedGrows(m: Machine, e: Event)
    requires Next(m, e).Move?
    ensures Next(m, e).passed == m.passed ||
            (e.kind.ProbePassed? && e.probeID in ProbeIDs(m.plan) && Next(m, e).passed == m.passed + {e.probeID})
  {
    hide Enter;
    hide Detail;
  }

  lemma PhaseStep(m: Machine, c: Call, start: Time)
    requires Sound(m, start) && Accepts(m, c)
    ensures PhaseSound(Step(m, c), start)
  {
    StateBound(m, start);
    RecordGrows(m, c);
    HistoryGrows(m, c);
    ProbesStep(m, c);
    AcceptedShape(m, c);
    hide Step;
    hide Verdict;
    hide RecordSound;
    hide ProbesSound;
    hide Happened;
    hide Probed;
    hide ProbeIDs;
    hide Next;
    hide PhaseOk;
    PassedStep(m, c.event);
    PhaseMoves(m, c.event, ProgressOf(m), ProgressOf(Step(m, c)), start);
    PhaseKeepsUnder(m, c, start);
  }

  lemma PassedStep(m: Machine, e: Event)
    requires Next(m, e).Move?
    ensures |Next(m, e).passed| ==
            |m.passed| + if m.State().Probing? && e.kind.ProbePassed? then 1 else 0
  {
    hide Machine.HasProbe;
    hide Enter;
    hide Detail;
    if m.State().Probing? && e.kind.ProbePassed? {
      assert Next(m, e).passed == m.passed + {e.probeID};
    } else {
      assert Next(m, e).passed == m.passed;
    }
  }

  lemma PhaseKeepsUnder(m: Machine, c: Call, start: Time)
    requires Accepts(m, c)
    requires PhaseOk(Next(m, c.event).snapshot.(updatedAt := c.event.at), m.plan.body.timeouts,
                     |m.plan.body.probes|, ProgressOf(Step(m, c)), start)
    ensures PhaseSound(Step(m, c), start)
  {
    AcceptedShape(m, c);
    hide Step;
    hide Verdict;
    hide Next;
    hide ProgressOf;
  }

  /** The transition table, seen through progress and clock only. */
  lemma PhaseMoves(m: Machine, e: Event, p: Progress, q: Progress, start: Time)
    requires TimeoutsOk(m.plan.body.timeouts) && |m.plan.body.probes| >= 1
    requires PhaseOk(m.snapshot, m.plan.body.timeouts, |m.plan.body.probes|, p, start)
    requires Timely(m.snapshot, e) && Next(m, e).Move? && p.passed == |m.passed|
    requires q.events == p.events + 1 && q.passed == |Next(m, e).passed| <= |m.plan.body.probes|
    requires q.passed == p.passed + if m.State().Probing? && e.kind.ProbePassed? then 1 else 0
    requires q.passed == |m.plan.body.probes| ==> q.complete
    requires q.captured == (p.captured || e.kind.SnapshotCaptured?)
    requires q.preflighted == (p.preflighted || e.kind.PreflightPassed?)
    requires q.applied == (p.applied || e.kind.TemporaryApplied?)
    ensures PhaseOk(Next(m, e).snapshot.(updatedAt := e.at), m.plan.body.timeouts, |m.plan.body.probes|, q, start)
  {
  }

  lemma StepSound(m: Machine, c: Call, start: Time)
    requires Sound(m, start)
    ensures Sound(Step(m, c), start)
  {
    if Accepts(m, c) {
      StateBound(m, start);
      AcceptedShape(m, c);
      RecordGrows(m, c);
      ProbesStep(m, c);
      PhaseStep(m, c, start);
      hide Step;
      hide Verdict;
      hide RecordSound;
      hide ProbesSound;
      hide PhaseSound;
      NextKeepsIdentity(m, c.event);
    }
  }

  lemma NextKeepsIdentity(m: Machine, e: Event)
    requires Next(m, e).Move?
    ensures Next(m, e).snapshot.planID == m.snapshot.planID
    ensures Next(m, e).snapshot.version == m.snapshot.version
  {
  }

  lemma {:induction false} RunSound(m: Machine, calls: seq<Call>, start: Time)
    requires Sound(m, start)
    ensures Sound(Run(m, calls), start)
    ensures Run(m, calls).plan == m.plan
    decreases |calls|
  {
    hide Sound;
    hide Verdict;
    hide Next;
    if calls != [] {
      StepSound(m, calls[0], start);
      RunSound(Step(m, calls[0]), calls[1..], start);
    }
  }

  // ----- runs from a fresh machine -----

  ghost predicate Reachable(m: Machine, plan: Plan, start: Time)
  {
    IsCanonical(plan) && exists calls :: m == Run(Start(plan, start), calls)
  }

  lemma ReachableSound(m: Machine, plan: Plan, start: Time)
    requires Reachable(m, plan, start)
    ensures Sound(m, start) && m.plan == plan && NormalOk(RequestOf(plan))
  {
    var calls :| m == Run(Start(plan, start), calls);
    CanonicalPlanFacts(plan);
    CanonicalSafe(plan);
    hide Sound;
    StartSound(plan, start);
    RunSound(Start(plan, start), calls, start);
  }

  /** A commit is safe and in time: the recovery snapshot, the preflight and the
      temporary apply are on record, and so is a passing report for every probe of
      the plan, hence for one on every changed interface and on the management
      path; and the commit came within the snapshot, preflight and apply timeouts.
      ChangeCommit has the order. */
  lemma CommitSafety(m: Machine, plan: Plan, start: Time)
    requires Reachable(m, plan, start) && m.State().Committed?
    ensures forall p | p in plan.body.probes :: Probed(m, p.id)
    ensures forall i | i in plan.body.interfaces && i.changed ::
              exists p | p in plan.body.probes :: p.interfaceID == i.id && Probed(m, p.id)
    ensures exists p | p in plan.body.probes :: OnManagementPath(p) && Probed(m, p.id)
    ensures Happened(m, SnapshotCaptured) && Happened(m, PreflightPassed) && Happened(m, TemporaryApplied)
    ensures Recorded(m.processed, m.snapshot.updatedAt) && m.snapshot.updatedAt <= CommitLimit(plan, start)
  {
    ReachableSound(m, plan, start);
    hide Probed;
    hide Happened;
    hide Recorded;
    forall p | p in plan.body.probes ensures Probed(m, p.id) {
      assert p.id in ProbeIDs(plan);
    }
    forall i | i in plan.body.interfaces && i.changed
      ensures exists p | p in plan.body.probes :: p.interfaceID == i.id && Probed(m, p.id)
    {
      assert Covered(i, plan.body.probes);
    }
  }

  /** While a change is under way its deadline lies ahead of its last update. */
  lemma DeadlineAhead(m: Machine, plan: Plan, start: Time)
    requires Reachable(m, plan, start) && !m.State().Terminal()
    ensures m.snapshot.updatedAt <= m.snapshot.deadline
  {
    ReachableSound(m, plan, start);
    StateBound(m, start);
  }

  lemma {:induction false} TerminalIsFinal(m: Machine, calls: seq<Call>)
    requires m.State().Terminal()
    ensures Run(m, calls) == m
    decreases |calls|
  {
    hide ValidEvent;
    if calls != [] { TerminalIsFinal(m, calls[1..]); }
  }

  // ----- how long a run can be -----

  lemma {:induction false} AcceptedCount(m: Machine, calls: seq<Call>)
    ensures |Run(m, calls).processed| == |m.processed| + |AcceptedCalls(m, calls)|
    decreases |calls|
  {
    if calls != [] {
      if Accepts(m, calls[0]) {
        AcceptedShape(m, calls[0]);
        assert Step(m, calls[0]).processed.Keys == m.processed.Keys + {calls[0].event.id};
      }
      hide Verdict;
      hide Next;
      AcceptedCount(Step(m, calls[0]), calls[1..]);
    }
  }

  /** The version counts the accepted events, and there are at most four more
      of them than probes. */
  lemma EventBound(plan: Plan, start: Time, calls: seq<Call>)
    requires IsCanonical(plan)
    ensures Run(Start(plan, start), calls).snapshot.version == 1 + |AcceptedCalls(Start(plan, start), calls)|
    ensures |AcceptedCalls(Start(plan, start), calls)| <= |plan.body.probes| + 4
  {
    ReachableSound(Run(Start(plan, start), calls), plan, start);
    AcceptedCount(Start(plan, start), calls);
  }

  /** Optimistic locking admits one writer per version: the accepted calls
      carried the versions 1, 2, 3, ... in turn. */
  lemma {:induction false} VersionsInTurn(m: Machine, start: Time, calls: seq<Call>)
    requires Sound(m, start)
    ensures forall k | 0 <= k < |AcceptedCalls(m, calls)| ::
              AcceptedCalls(m, calls)[k].expectedVersion == m.snapshot.version + k
    decreases |calls|
  {
    if calls != [] {
      StepSound(m, calls[0], start);
      if Accepts(m, calls[0]) {
        AcceptedShape(m, calls[0]);
        StateBound(m, start);
        RecordGrows(m, calls[0]);
        assert Step(m, calls[0]).snapshot.version == m.snapshot.version + 1;
      }
      hide Verdict;
      hide Sound;
      VersionsInTurn(Step(m, calls[0]), start, calls[1..]);
    }
  }

  // ----- getting out -----

  ghost predicate FreshTimeout(m: Machine, e: Event)
  {
    ValidEvent(e) && e.kind.PhaseTimedOut? && e.id !in m.processed && m.snapshot.deadline <= e.at
  }

  /** From any state of an unfinished change, fresh timeouts lead to a terminal
      state: one where nothing may have been applied or a rollback is already
      pending, two (through the rollback) otherwise. */
  lemma TimeoutsTerminate(m: Machine, plan: Plan, start: Time, first: Event, second: Event)
    requires Reachable(m, plan, start) && !m.State().Terminal() && FreshTimeout(m, first)
    ensures var once := After(m, first, m.snapshot.version);
            if m.State().ApplyWindow? || m.State().Probing? then
              && once.State().RollbackPending?
              && (FreshTimeout(once, second) ==> After(once, second, once.snapshot.version).State().FailedClosed?)
            else once.State().FailedClosed?
  {
    ReachableSound(m, plan, start);
    hide *;
    OneTimeout(m, start, first);
    var once := After(m, first, m.snapshot.version);
    if once.State().RollbackPending? && FreshTimeout(once, second) {
      OneTimeout(once, start, second);
    }
  }

  lemma OneTimeout(m: Machine, start: Time, e: Event)
    requires Sound(m, start) && !m.State().Terminal() && FreshTimeout(m, e)
    ensures var once := After(m, e, m.snapshot.version);
            && Sound(once, start)
            && once.State() == (if m.State().ApplyWindow? || m.State().Probing? then RollbackPending else FailedClosed)
            && (once.State().RollbackPending? ==> !once.State().Terminal())
  {
    StateBound(m, start);
    StepSound(m, Call(e, m.snapshot.version), start);
    TimeoutMoves(m, e);
    hide After;
    hide Sound;
    hide FreshTimeout;
  }

  lemma TimeoutMoves(m: Machine, e: Event)
    requires !m.State().Terminal() && FreshTimeout(m, e) && m.snapshot.updatedAt <= m.snapshot.deadline
    ensures After(m, e, m.snapshot.version).State() ==
            if m.State().ApplyWindow? || m.State().Probing? then RollbackPending else FailedClosed
  {
    hide ValidEvent;
  }

  /** Every timeout of the run is delivered no later than `d` after the deadline it
      reports. */
  predicate Prompt(m: Machine, calls: seq<Call>, d: nat)
    decreases |calls|
  {
    calls == [] ||
    (&& (Accepts(m, calls[0]) && calls[0].event.kind.PhaseTimedOut? ==> calls[0].event.at <= m.snapshot.deadline + d)
     && Prompt(Step(m, calls[0]), calls[1..], d))
  }

  /** The last instant at which a change begun at `start` can still move. */
  function EndLimit(plan: Plan, start: Time, d: nat): Time
  {
    CommitLimit(plan, start) + plan.body.timeouts.rollback + 2 * d
  }

  /** What the clock says of a change whose timeouts are prompt. */
  predicate OnTime(s: Snapshot, plan: Plan, start: Time, d: nat)
  {
    && s.updatedAt <= EndLimit(plan, start, d)
    && (!s.state.Terminal() ==> s.deadline <= EndLimit(plan, start, d) - d)
  }

  /** Every phase but the rollback ends with the commit limit at the latest. */
  lemma PhaseDeadline(m: Machine, start: Time)
    requires Sound(m, start) && !m.State().Terminal() && !m.State().RollbackPending?
    ensures m.snapshot.deadline <= CommitLimit(m.plan, start)
  {
    hide RecordSound;
    hide ProbesSound;
    hide ProgressOf;
  }

  lemma OnTimeMove(m: Machine, e: Event, start: Time, d: nat)
    requires Timely(m.snapshot, e) && Next(m, e).Move? && !m.State().Terminal() && TimeoutsOk(m.plan.body.timeouts)
    requires OnTime(m.snapshot, m.plan, start, d) && (e.kind.PhaseTimedOut? ==> e.at <= m.snapshot.deadline + d)
    requires !m.State().RollbackPending? ==> m.snapshot.deadline <= CommitLimit(m.plan, start)
    requires Next(m, e).snapshot.state.Terminal() || Next(m, e).snapshot.state.RollbackPending?
    ensures OnTime(Next(m, e).snapshot.(updatedAt := e.at), m.plan, start, d)
  {
    hide Machine.HasProbe;
    hide Detail;
  }

  lemma OnTimeStep(m: Machine, c: Call, start: Time, d: nat)
    requires Sound(m, start) && Accepts(m, c) && OnTime(m.snapshot, m.plan, start, d)
    requires c.event.kind.PhaseTimedOut? ==> c.event.at <= m.snapshot.deadline + d
    ensures OnTime(Step(m, c).snapshot, m.plan, start, d)
  {
    AcceptedShape(m, c);
    StepSound(m, c, start);
    if !m.State().RollbackPending? { PhaseDeadline(m, start); }
    var n := Step(m, c);
    assert TimeoutsOk(m.plan.body.timeouts);
    if n.State().Terminal() || n.State().RollbackPending? {
      OnTimeMove(m, c.event, start, d);
    } else {
      PhaseDeadline(n, start);
      StateBound(n, start);
    }
    hide Sound;
    hide Step;
    hide Verdict;
    hide Next;
  }

  /** No change drags on: with timeouts delivered within `d`, nothing moves after the
      sum of all phase timeouts and twice `d`, and a change that is still under way
      has its last deadline `d` before that. */
  lemma {:induction false} EndsInTime(m: Machine, start: Time, calls: seq<Call>, d: nat)
    requires Sound(m, start) && OnTime(m.snapshot, m.plan, start, d) && Prompt(m, calls, d)
    ensures OnTime(Run(m, calls).snapshot, m.plan, start, d)
    decreases |calls|
  {
    if calls != [] {
      hide Sound;
      hide OnTime;
      var c := calls[0];
      StepSound(m, c, start);
      if Accepts(m, c) {
        AcceptedShape(m, c);
        OnTimeStep(m, c, start, d);
      } else {
        RejectedChangesNothing(m, c);
      }
      hide Step;
      hide Accepts;
      EndsInTime(Step(m, c), start, calls[1..], d);
    }
  }

  /** In particular from the start: a finished change was finished by then. */
  lemma FinishedInTime(plan: Plan, start: Time, calls: seq<Call>, d: nat)
    requires IsCanonical(plan) && Prompt(Start(plan, start), calls, d)
    ensures Run(Start(plan, start), calls).snapshot.updatedAt <=
            start + plan.body.timeouts.snapshot + plan.body.timeouts.preflight + plan.body.timeouts.applyWindow +
            plan.body.timeouts.rollback + 2 * d
    ensures !Run(Start(plan, start), calls).State().Terminal() ==>
              Run(Start(plan, start), calls).snapshot.deadline + d <=
              start + plan.body.timeouts.snapshot + plan.body.timeouts.preflight + plan.body.timeouts.applyWindow +
              plan.body.timeouts.rollback + 2 * d
  {
    hide IsCanonical;
    hide Sound;
    hide Run;
    hide Prompt;
    hide PlanFacts;
    CanonicalPlanFacts(plan);
    StartSound(plan, start);
    StartOnTime(plan, start, d);
    EndsInTime(Start(plan, start), start, calls, d);
  }

  lemma StartOnTime(plan: Plan, start: Time, d: nat)
    requires PlanFacts(plan)
    ensures OnTime(Start(plan, start).snapshot, plan, start, d)
  {
  }

  /** Once the temporary configuration is in place, a change that fails closed
      does so only out of a pending rollback: some call of the run found the
      machine there and failed it, and nothing changed after. */
  lemma {:induction false} FailsOnlyAfterRollback(plan: Plan, start: Time, calls: seq<Call>) returns (k: nat)
    requires IsCanonical(plan)
    requires Run(Start(plan, start), calls).State().FailedClosed?
    requires Happened(Run(Start(plan, start), calls), TemporaryApplied)
    ensures k < |calls|
    ensures Run(Start(plan, start), calls[..k]).State().RollbackPending?
    ensures Run(Start(plan, start), calls[..k + 1]) == Run(Start(plan, start), calls)
    decreases |calls|
  {
    hide *;
    StartUnfinished(plan, start, calls);
    if calls != [] {
      var n := |calls| - 1;
      RunLast(Start(plan, start), calls);
      var m := Run(Start(plan, start), calls[..n]);
      if !Accepts(m, calls[n]) {
        RejectedChangesNothing(m, calls[n]);
        k := FailsOnlyAfterRollback(plan, start, calls[..n]);
        assert calls[..n][..k] == calls[..k] && calls[..n][..k + 1] == calls[..k + 1];
      } else {
        k := n;
        assert calls[..n + 1] == calls;
        RunReachable(plan, start, calls[..n]);
        FailureAfterApply(m, calls[n], plan, start);
      }
    }
  }

  lemma StartUnfinished(plan: Plan, start: Time, calls: seq<Call>)
    ensures Run(Start(plan, start), calls).State().FailedClosed? ==> calls != []
  {
  }

  lemma RunReachable(plan: Plan, start: Time, calls: seq<Call>)
    requires IsCanonical(plan)
    ensures Reachable(Run(Start(plan, start), calls), plan, start)
  {
  }

  lemma RunLast(m: Machine, calls: seq<Call>)
    requires calls != []
    ensures Run(m, calls) == Step(Run(m, calls[..|calls| - 1]), calls[|calls| - 1])
  {
    var n := |calls| - 1;
    hide Step;
    assert calls == calls[..n] + [calls[n]];
    RunJoins(m, calls[..n], [calls[n]]);
    assert Run(Run(m, calls[..n]), [calls[n]]) == Run(Step(Run(m, calls[..n]), calls[n]), []);
  }

  lemma RejectedChangesNothing(m: Machine, c: Call)
    requires !Accepts(m, c)
    ensures Step(m, c) == m
  {
  }

  lemma FailureAfterApply(m: Machine, c: Call, plan: Plan, start: Time)
    requires Reachable(m, plan, start) && Accepts(m, c)
    requires Step(m, c).State().FailedClosed? && Happened(Step(m, c), TemporaryApplied)
    ensures m.State().RollbackPending?
  {
    AcceptedShape(m, c);
    HistoryGrows(m, c);
    ReachableSound(m, plan, start);
    FailureComesFrom(m, c.event);
    hide Next;
    hide Step;
    hide Verdict;
    hide Happened;
  }

  lemma FailureComesFrom(m: Machine, e: Event)
    requires Next(m, e).Move? && Next(m, e).snapshot.state.FailedClosed? && !m.State().Terminal()
    ensures m.State().SnapshotPending? || m.State().Preflight? || m.State().RollbackPending?
    ensures !e.kind.TemporaryApplied?
  {
  }

  // ----- deliveries that change nothing -----

  /** Delivering an event again is answered as a replay, whatever version the
      caller expects, at once or any number of calls later. */
  lemma {:induction false} RedeliveryIsReplayed(m: Machine, c: Call, later: seq<Call>, expectedVersion: nat)
    requires Accepts(m, c)
    ensures var n := Run(Step(m, c), later);
            Verdict(n, c.event, expectedVersion) == Replayed && After(n, c.event, expectedVersion) == n
  {
    AcceptedShape(m, c);
    hide Next;
    assert ValidEvent(c.event);
    hide ValidEvent;
    RecordsStay(Step(m, c), later, c.event.id);
  }

  lemma {:induction false} RecordsStay(m: Machine, calls: seq<Call>, id: string)
    requires id in m.processed
    ensures id in Run(m, calls).processed && Run(m, calls).processed[id] == m.processed[id]
    decreases |calls|
  {
    if calls != [] {
      if Accepts(m, calls[0]) { AcceptedShape(m, calls[0]); }
      hide Verdict;
      hide Next;
      RecordsStay(Step(m, calls[0]), calls[1..], id);
    }
  }

  /** A call that is not accepted can be put anywhere into a run or taken out
      of it: no later state and no later answer changes. */
  lemma RejectedCallsVanish(m: Machine, before: seq<Call>, c: Call, after: seq<Call>)
    requires !Accepts(Run(m, before), c)
    ensures Run(m, before + [c] + after) == Run(m, before + after)
    ensures Answers(m, before + [c] + after)[|before| + 1..] == Answers(m, before + after)[|before|..]
    ensures Answers(m, before + [c] + after)[..|before|] == Answers(m, before + after)[..|before|]
  {
    RunJoins(m, before, after);
    RunJoins(m, before + [c], after);
    RunJoins(m, before, [c]);
    var n := Run(m, before);
    assert Run(n, [c]) == Run(Step(n, c), []) == n;
  }

  /** The state is a function of the accepted calls alone. */
  lemma {:induction false} OnlyAcceptedCallsCount(m: Machine, calls: seq<Call>)
    ensures Run(m, calls) == Run(m, AcceptedCalls(m, calls))
    ensures AcceptedCalls(m, AcceptedCalls(m, calls)) == AcceptedCalls(m, calls)
    decreases |calls|
  {
    if calls != [] {
      hide Verdict;
      OnlyAcceptedCallsCount(Step(m, calls[0]), calls[1..]);
      var rest := AcceptedCalls(Step(m, calls[0]), calls[1..]);
      if Accepts(m, calls[0]) {
        assert ([calls[0]] + rest)[1..] == rest;
      } else {
        assert [] + rest == rest;
      }
    }
  }
}
