/** The change machine read off its accepted events: every field of every
    reachable machine, and the answer to every further call, as functions of the
    ledger alone (internal/networkpolicy/change_machine.go). */
module ChangeLedger {
  import opened ChangePlan
  import opened ChangeMachine
  import opened ChangeRuns
  import PlanMeaning
  import Seqs
  import Sorting
  import Text

  /** The accepted calls of a run, oldest first. */
  type Ledger = seq<Call>

  function Last(h: Ledger): Event
    requires h != []
  {
    h[|h| - 1].event
  }

  function Earlier(h: Ledger): (r: Ledger)
    requires h != []
    ensures |r| + 1 == |h|
  {
    h[..|h| - 1]
  }

  // ----- what the ledger tells -----

  /** The probes reported as passed. */
  function PassedIn(h: Ledger): set<string>
  {
    set c | c in h && c.event.kind.ProbePassed? :: c.event.probeID
  }

  predicate AllPassed(plan: Plan, h: Ledger)
  {
    forall p | p in plan.body.probes :: p.id in PassedIn(h)
  }

  /** Nothing was applied yet. */
  predicate Untouched(h: Ledger)
  {
    h == [] || Last(h).kind.SnapshotCaptured?
  }

  /** The rollback was already called for. */
  predicate Undoing(h: Ledger)
  {
    h != [] && (Last(h).kind.ProbeFailed? || Last(h).kind.PhaseTimedOut?)
  }

  /** The state is told by the last event; for a timeout, by the one before it too. */
  function StateOf(plan: Plan, h: Ledger): State
  {
    if h == [] then SnapshotPending
    else
      match Last(h).kind
      case SnapshotCaptured => Preflight
      case PreflightPassed => ApplyWindow
      case TemporaryApplied => Probing
      case ProbePassed => if AllPassed(plan, h) then Committed else Probing
      case ProbeFailed => RollbackPending
      case RollbackSucceeded => RolledBack
      case PhaseTimedOut => if Untouched(Earlier(h)) || Undoing(Earlier(h)) then FailedClosed else RollbackPending
      case _ => FailedClosed
  }

  /** The reason recorded for a failure that gives none. */
  function Fallback(h: Ledger): string
    requires h != []
  {
    match Last(h).kind
    case SnapshotFailed => "snapshot_not_available"
    case PreflightFailed => "preflight_not_safe"
    case ProbeFailed => "connectivity_validation_failed"
    case RollbackFailed => "rollback_not_confirmed"
    case _ =>
      if Earlier(h) == [] then "snapshot_not_available"
      else
        match Last(Earlier(h)).kind
        case SnapshotCaptured => "preflight_not_safe"
        case PreflightPassed => "apply_window_timeout"
        case TemporaryApplied => "connectivity_validation_failed"
        case ProbePassed => "connectivity_validation_failed"
        case _ => "rollback_not_confirmed"
  }

  /** The reason of the last failure, kept through the rollback it led to. */
  function ReasonOf(h: Ledger): string
  {
    if h == [] then ""
    else if Last(h).kind.RollbackSucceeded? then ReasonOf(Earlier(h))
    else if !Last(h).kind.IsFailure() then ""
    else if Last(h).reasonCode == "" then Fallback(h)
    else Last(h).reasonCode
  }

  /** The recovery snapshot is the first event, if anything was captured at all. */
  function SnapshotIn(h: Ledger): string
  {
    if h != [] && h[0].event.kind.SnapshotCaptured? then h[0].event.snapshotID else ""
  }

  function Min(a: Time, b: Time): Time { if a <= b then a else b }

  /** Each phase lasts for its timeout from the event that opened it; probing ends
      with the apply window at the latest; a finished change has no deadline. */
  function DeadlineOf(plan: Plan, start: Time, h: Ledger): Time
  {
    var t := plan.body.timeouts;
    match StateOf(plan, h)
    case SnapshotPending => start + t.snapshot
    case Preflight => Last(h).at + t.preflight
    case ApplyWindow => Last(h).at + t.applyWindow
    case Probing => if |h| < 3 then ZERO_TIME else Min(h[2].event.at + t.probe, h[1].event.at + t.applyWindow)
    case RollbackPending => Last(h).at + t.rollback
    case _ => ZERO_TIME
  }

  function UpdatedAt(start: Time, h: Ledger): Time
  {
    if h == [] then start else Last(h).at
  }

  /** Each accepted event under its identifier. */
  function RecordOf(h: Ledger): map<string, Digest<Event>>
  {
    if h == [] then map[] else RecordOf(Earlier(h))[Last(h).id := Sha256Of(Last(h))]
  }

  function MachineOf(plan: Plan, start: Time, h: Ledger): Machine
  {
    Machine(plan,
            Snapshot(plan.planID, SnapshotIn(h), StateOf(plan, h), 1 + |h|, DeadlineOf(plan, start, h), ReasonOf(h),
                     UpdatedAt(start, h)),
            PassedIn(h), RecordOf(h))
  }

  // ----- one more event -----

  /** Probing starts with the third event. */
  ghost predicate Aligned(plan: Plan, h: Ledger)
  {
    && (StateOf(plan, h).Preflight? ==> |h| == 1)
    && (StateOf(plan, h).ApplyWindow? ==> |h| == 2)
    && (StateOf(plan, h).Probing? ==> |h| >= 3)
  }

  lemma Extends(h: Ledger, c: Call)
    ensures Last(h + [c]) == c.event && Earlier(h + [c]) == h && |h + [c]| == |h| + 1
    ensures forall i | 0 <= i < |h| :: (h + [c])[i] == h[i]
  {
  }

  lemma PassedNext(h: Ledger, c: Call)
    ensures PassedIn(h + [c]) == PassedIn(h) + if c.event.kind.ProbePassed? then {c.event.probeID} else {}
  {
    assert c in h + [c];
    forall x | x in h ensures x in h + [c] {}
  }

  /** As many passed as there are probes means all of them. */
  lemma CountedAll(plan: Plan, h: Ledger)
    requires PlanFacts(plan) && PassedIn(h) <= ProbeIDs(plan)
    ensures |PassedIn(h)| == |plan.body.probes| <==> AllPassed(plan, h)
  {
    ProbeCount(plan);
    hide PlanFacts;
    var all := ProbeIDs(plan);
    Seqs.SubsetCount(PassedIn(h), all);
    if AllPassed(plan, h) {
      forall id | id in all ensures id in PassedIn(h) {}
      assert PassedIn(h) == all;
    }
  }

  /** A move leads to what the ledger tells. */
  ghost predicate Tells(move: Move, plan: Plan, start: Time, h: Ledger)
  {
    && move.Move? && move.passed == PassedIn(h) && move.snapshot.snapshotID == SnapshotIn(h)
    && move.snapshot.state == StateOf(plan, h) && move.snapshot.deadline == DeadlineOf(plan, start, h)
    && move.snapshot.reasonCode == ReasonOf(h)
  }

  lemma BeforeSnapshot(plan: Plan, start: Time, h: Ledger, c: Call)
    requires TimeoutsOk(plan.body.timeouts) && Aligned(plan, h) && Next(MachineOf(plan, start, h), c.event).Move?
    requires StateOf(plan, h).SnapshotPending?
    ensures Tells(Next(MachineOf(plan, start, h), c.event), plan, start, h + [c]) && Aligned(plan, h + [c])
  {
    hide PassedIn;
    hide AllPassed;
    hide RecordOf;
    hide Machine.HasProbe;
    Extends(h, c);
    PassedNext(h, c);
  }

  lemma BeforePreflight(plan: Plan, start: Time, h: Ledger, c: Call)
    requires TimeoutsOk(plan.body.timeouts) && Aligned(plan, h) && Next(MachineOf(plan, start, h), c.event).Move?
    requires StateOf(plan, h).Preflight?
    ensures Tells(Next(MachineOf(plan, start, h), c.event), plan, start, h + [c]) && Aligned(plan, h + [c])
  {
    hide PassedIn;
    hide AllPassed;
    hide RecordOf;
    hide Machine.HasProbe;
    Extends(h, c);
    PassedNext(h, c);
  }

  lemma WhileApplying(plan: Plan, start: Time, h: Ledger, c: Call)
    requires TimeoutsOk(plan.body.timeouts) && Aligned(plan, h) && Next(MachineOf(plan, start, h), c.event).Move?
    requires StateOf(plan, h).ApplyWindow?
    ensures Tells(Next(MachineOf(plan, start, h), c.event), plan, start, h + [c]) && Aligned(plan, h + [c])
  {
    hide PassedIn;
    hide AllPassed;
    hide RecordOf;
    hide Machine.HasProbe;
    Extends(h, c);
    PassedNext(h, c);
  }

  lemma WhenProbePasses(plan: Plan, start: Time, h: Ledger, c: Call)
    requires PlanFacts(plan) && Aligned(plan, h) && Next(MachineOf(plan, start, h), c.event).Move?
    requires PassedIn(h) <= ProbeIDs(plan) && PassedIn(h + [c]) <= ProbeIDs(plan)
    requires StateOf(plan, h).Probing? && c.event.kind.ProbePassed?
    ensures Tells(Next(MachineOf(plan, start, h), c.event), plan, start, h + [c]) && Aligned(plan, h + [c])
  {
    hide PassedIn;
    hide AllPassed;
    hide RecordOf;
    hide Machine.HasProbe;
    hide ProbeIDs;
    hide Fallback;
    Extends(h, c);
    PassedNext(h, c);
    CountedAll(plan, h + [c]);
    hide PlanFacts;
  }

  lemma WhenProbingFails(plan: Plan, start: Time, h: Ledger, c: Call)
    requires TimeoutsOk(plan.body.timeouts) && Aligned(plan, h) && Next(MachineOf(plan, start, h), c.event).Move?
    requires StateOf(plan, h).Probing? && !c.event.kind.ProbePassed?
    ensures Tells(Next(MachineOf(plan, start, h), c.event), plan, start, h + [c]) && Aligned(plan, h + [c])
  {
    hide PassedIn;
    hide AllPassed;
    hide RecordOf;
    hide Machine.HasProbe;
    Extends(h, c);
    PassedNext(h, c);
  }

  lemma WhenUndone(plan: Plan, start: Time, h: Ledger, c: Call)
    requires Next(MachineOf(plan, start, h), c.event).Move?
    requires StateOf(plan, h).RollbackPending? && c.event.kind.RollbackSucceeded?
    ensures Tells(Next(MachineOf(plan, start, h), c.event), plan, start, h + [c]) && Aligned(plan, h + [c])
  {
    hide PassedIn;
    hide AllPassed;
    hide RecordOf;
    hide Machine.HasProbe;
    hide Fallback;
    Extends(h, c);
    PassedNext(h, c);
  }

  lemma WhenUndoingFails(plan: Plan, start: Time, h: Ledger, c: Call)
    requires Next(MachineOf(plan, start, h), c.event).Move?
    requires StateOf(plan, h).RollbackPending? && !c.event.kind.RollbackSucceeded?
    ensures Tells(Next(MachineOf(plan, start, h), c.event), plan, start, h + [c]) && Aligned(plan, h + [c])
  {
    hide PassedIn;
    hide AllPassed;
    hide RecordOf;
    hide Machine.HasProbe;
    Extends(h, c);
    PassedNext(h, c);
  }

  lemma PlanTimeouts(plan: Plan)
    requires PlanFacts(plan)
    ensures TimeoutsOk(plan.body.timeouts)
  {
  }

  lemma MoveTells(plan: Plan, start: Time, h: Ledger, c: Call)
    requires PlanFacts(plan) && Aligned(plan, h) && !StateOf(plan, h).Terminal() && PassedIn(h) <= ProbeIDs(plan)
    requires Next(MachineOf(plan, start, h), c.event).Move?
    ensures Tells(Next(MachineOf(plan, start, h), c.event), plan, start, h + [c]) && Aligned(plan, h + [c])
  {
    hide PlanFacts;
    hide Next;
    hide Aligned;
    hide StateOf;
    hide Tells;
    hide PassedIn;
    hide ProbeIDs;
    PlanTimeouts(plan);
    match StateOf(plan, h)
    case SnapshotPending => BeforeSnapshot(plan, start, h, c);
    case Preflight => BeforePreflight(plan, start, h, c);
    case ApplyWindow => WhileApplying(plan, start, h, c);
    case Probing =>
      if c.event.kind.ProbePassed? {
        PassedNext(h, c);
        ReportedIsKnown(MachineOf(plan, start, h), c.event);
        WhenProbePasses(plan, start, h, c);
      } else {
        WhenProbingFails(plan, start, h, c);
      }
    case RollbackPending =>
      if c.event.kind.RollbackSucceeded? {
        WhenUndone(plan, start, h, c);
      } else {
        WhenUndoingFails(plan, start, h, c);
      }
  }

  lemma ReportedIsKnown(m: Machine, e: Event)
    requires Next(m, e).Move? && e.kind.ProbePassed?
    ensures e.probeID in ProbeIDs(m.plan)
  {
    var p :| p in m.plan.body.probes && p.id == e.probeID;
  }

  lemma SoundParts(m: Machine, start: Time)
    requires Sound(m, start)
    ensures PlanFacts(m.plan) && m.passed <= ProbeIDs(m.plan)
    ensures !m.State().Terminal() ==> Increment(m.snapshot.version) == m.snapshot.version + 1
  {
    if !m.State().Terminal() {
      StateBound(m, start);
      IncrementIsExact(m.snapshot.version);
    }
    hide PhaseSound;
  }

  /** A machine whose fields are those of the longer ledger is its machine. */
  lemma LedgerFields(plan: Plan, start: Time, h: Ledger, c: Call, move: Move, m: Machine)
    requires Tells(move, plan, start, h + [c]) && move.snapshot.planID == plan.planID
    requires m.plan == plan && m.passed == move.passed && m.processed == RecordOf(h)[c.event.id := DigestOf(c.event)]
    requires m.snapshot == move.snapshot.(version := 2 + |h|, updatedAt := c.event.at)
    ensures m == MachineOf(plan, start, h + [c])
  {
    Extends(h, c);
    hide PassedIn;
    hide StateOf;
    hide DeadlineOf;
    hide ReasonOf;
    hide SnapshotIn;
  }

  /** One accepted call extends the ledger. */
  lemma LedgerStep(plan: Plan, start: Time, h: Ledger, c: Call)
    requires Sound(MachineOf(plan, start, h), start) && Aligned(plan, h) && Accepts(MachineOf(plan, start, h), c)
    ensures Step(MachineOf(plan, start, h), c) == MachineOf(plan, start, h + [c]) && Aligned(plan, h + [c])
  {
    hide *;
    var m := MachineOf(plan, start, h);
    LedgerParts(plan, start, h);
    AcceptedShape(m, c);
    SoundParts(m, start);
    StateIs(m);
    MoveTells(plan, start, h, c);
    NextKeepsIdentity(m, c.event);
    LedgerFields(plan, start, h, c, Next(m, c.event), Step(m, c));
  }

  lemma StateIs(m: Machine)
    ensures m.State() == m.snapshot.state
  {
  }

  lemma LedgerParts(plan: Plan, start: Time, h: Ledger)
    ensures var m := MachineOf(plan, start, h);
            && m.plan == plan && m.passed == PassedIn(h) && m.processed == RecordOf(h)
            && m.snapshot.state == StateOf(plan, h) && m.snapshot.version == 1 + |h| && m.snapshot.planID == plan.planID
            && m.snapshot.updatedAt == UpdatedAt(start, h) && m.snapshot.deadline == DeadlineOf(plan, start, h)
            && m.snapshot.reasonCode == ReasonOf(h) && m.snapshot.snapshotID == SnapshotIn(h)
  {
  }

  // ----- every run -----

  /** Every reachable machine is the one its accepted events tell. */
  lemma {:induction false} LedgerTells(plan: Plan, start: Time, calls: seq<Call>)
    requires IsCanonical(plan)
    ensures Run(Start(plan, start), calls) == MachineOf(plan, start, AcceptedCalls(Start(plan, start), calls))
    ensures Aligned(plan, AcceptedCalls(Start(plan, start), calls))
    decreases |calls|
  {
    hide *;
    var m0 := Start(plan, start);
    if calls == [] {
      NothingTold(plan, start);
    } else {
      var n := |calls| - 1;
      var front, last := calls[..n], calls[n];
      assert calls == front + [last];
      LedgerTells(plan, start, front);
      RunReachable(plan, start, front);
      ReachableSound(Run(m0, front), plan, start);
      RunJoins(m0, front, [last]);
      RunLast(m0, calls);
      var h := AcceptedCalls(m0, front);
      OneCall(Run(m0, front), last);
      if Accepts(Run(m0, front), last) {
        LedgerStep(plan, start, h, last);
      } else {
        RejectedChangesNothing(Run(m0, front), last);
        assert h + [] == h;
      }
    }
  }

  lemma OneCall(m: Machine, c: Call)
    ensures AcceptedCalls(m, [c]) == if Accepts(m, c) then [c] else []
  {
    hide Accepts;
    hide Step;
    assert [c][1..] == [];
  }

  lemma NothingTold(plan: Plan, start: Time)
    ensures MachineOf(plan, start, []) == Start(plan, start) && Aligned(plan, [])
    ensures Run(Start(plan, start), []) == Start(plan, start) && AcceptedCalls(Start(plan, start), []) == []
  {
  }

  // ----- which event ends a change how -----

  lemma {:induction false} AcceptedAtMost(m: Machine, calls: seq<Call>)
    ensures |AcceptedCalls(m, calls)| <= |calls|
    decreases |calls|
  {
    hide Accepts;
    hide Step;
    if calls != [] { AcceptedAtMost(Step(m, calls[0]), calls[1..]); }
  }

  /** Every part of a ledger is itself a run of accepted calls. */
  lemma LedgerPrefix(m: Machine, h: Ledger)
    requires AcceptedCalls(m, h) == h && h != []
    ensures AcceptedCalls(m, Earlier(h)) == Earlier(h) && Accepts(Run(m, Earlier(h)), h[|h| - 1])
  {
    hide Accepts;
    hide Step;
    hide AcceptedCalls;
    var c := h[|h| - 1];
    assert h == Earlier(h) + [c];
    RunJoins(m, Earlier(h), [c]);
    AcceptedAtMost(m, Earlier(h));
    OneCall(Run(m, Earlier(h)), c);
  }

  /** The ledger of a run, its last event, and the machine that accepted it. */
  lemma LedgerOf(plan: Plan, start: Time, calls: seq<Call>)
    requires IsCanonical(plan)
    ensures var h := AcceptedCalls(Start(plan, start), calls);
            && Run(Start(plan, start), calls) == MachineOf(plan, start, h)
            && (h != [] ==> && Accepts(Run(Start(plan, start), Earlier(h)), h[|h| - 1])
                            && Run(Start(plan, start), Earlier(h)) == MachineOf(plan, start, Earlier(h)))
  {
    hide *;
    var h := AcceptedCalls(Start(plan, start), calls);
    LedgerTells(plan, start, calls);
    OnlyAcceptedCallsCount(Start(plan, start), calls);
    if h != [] {
      LedgerPrefix(Start(plan, start), h);
      LedgerTells(plan, start, Earlier(h));
    }
  }

  lemma AcceptedIsKnown(m: Machine, c: Call)
    requires Accepts(m, c)
    ensures !c.event.kind.UnknownEvent?
  {
  }

  /** Failed on its own account, or by a timeout with nothing to undo or while undoing. */
  predicate FailsFrom(kind: EventType, at: State)
  {
    || kind.SnapshotFailed? || kind.PreflightFailed? || kind.RollbackFailed?
    || (kind.PhaseTimedOut? && (at.SnapshotPending? || at.Preflight? || at.RollbackPending?))
  }

  /** A probe failed, or time ran out while the temporary configuration may be in place. */
  predicate UndoesFrom(kind: EventType, at: State)
  {
    kind.ProbeFailed? || (kind.PhaseTimedOut? && (at.ApplyWindow? || at.Probing?))
  }

  lemma EndingStates(plan: Plan, h: Ledger)
    requires h != [] && !Last(h).kind.UnknownEvent? && !StateOf(plan, Earlier(h)).Terminal()
    ensures StateOf(plan, h).RolledBack? <==> Last(h).kind.RollbackSucceeded?
    ensures StateOf(plan, h).FailedClosed? <==> FailsFrom(Last(h).kind, StateOf(plan, Earlier(h)))
    ensures StateOf(plan, h).RollbackPending? <==> UndoesFrom(Last(h).kind, StateOf(plan, Earlier(h)))
  {
    hide AllPassed;
  }

  /** A change is rolled back exactly when the last accepted event says that the
      rollback succeeded; it has failed closed exactly when that event is a failed
      snapshot, preflight or rollback, or a timeout of one of these phases; and a
      rollback is pending exactly after a failed probe or a timeout of the apply
      window or of probing. */
  lemma EndingsIff(plan: Plan, start: Time, calls: seq<Call>)
    requires IsCanonical(plan)
    ensures var m0 := Start(plan, start);
            var state, h := Run(m0, calls).State(), AcceptedCalls(m0, calls);
            && (state.RolledBack? <==> h != [] && Last(h).kind.RollbackSucceeded?)
            && (state.FailedClosed? <==> h != [] && FailsFrom(Last(h).kind, Run(m0, Earlier(h)).State()))
            && (state.RollbackPending? <==> h != [] && UndoesFrom(Last(h).kind, Run(m0, Earlier(h)).State()))
  {
    hide *;
    var m0 := Start(plan, start);
    var h := AcceptedCalls(m0, calls);
    LedgerOf(plan, start, calls);
    LedgerParts(plan, start, h);
    StateIs(Run(m0, calls));
    if h == [] {
      NothingEnded(plan);
    } else {
      LedgerParts(plan, start, Earlier(h));
      StateIs(Run(m0, Earlier(h)));
      LastIs(h);
      AcceptedIsKnown(Run(m0, Earlier(h)), h[|h| - 1]);
      AcceptedShape(Run(m0, Earlier(h)), h[|h| - 1]);
      EndingStates(plan, h);
    }
  }

  lemma NothingEnded(plan: Plan)
    ensures StateOf(plan, []) == SnapshotPending
  {
  }

  lemma LastIs(h: Ledger)
    requires h != []
    ensures Last(h) == h[|h| - 1].event
  {
  }

  // ----- every further call -----

  predicate Optional(text: string) { text == "" || IsIdentifier(Text.Trim(text)) }

  /** What each kind of event must and may carry. */
  predicate WellFormedEvent(e: Event)
  {
    && IsIdentifier(Text.Trim(e.id)) && e.at != ZERO_TIME
    && match e.kind
       case SnapshotCaptured => IsIdentifier(Text.Trim(e.snapshotID)) && e.probeID == "" && e.reasonCode == ""
       case ProbePassed => e.snapshotID == "" && IsIdentifier(Text.Trim(e.probeID)) && e.reasonCode == ""
       case ProbeFailed => e.snapshotID == "" && IsIdentifier(Text.Trim(e.probeID)) && Optional(e.reasonCode)
       case PreflightPassed => e.snapshotID == "" && e.probeID == "" && e.reasonCode == ""
       case TemporaryApplied => e.snapshotID == "" && e.probeID == "" && e.reasonCode == ""
       case RollbackSucceeded => e.snapshotID == "" && e.probeID == "" && e.reasonCode == ""
       case UnknownEvent(_) => false
       case _ => e.snapshotID == "" && e.probeID == "" && Optional(e.reasonCode)
  }

  lemma EventsWellFormed(e: Event)
    ensures ValidEvent(e) <==> WellFormedEvent(e)
  {
    assert !IsIdentifier(Text.Trim(""));
    hide IsIdentifier;
    hide Text.Trim;
  }

  /** The ledger is waiting for an event of this kind. */
  predicate Awaits(plan: Plan, h: Ledger, e: Event)
  {
    match e.kind
    case SnapshotCaptured => h == []
    case SnapshotFailed => h == []
    case PreflightPassed => h != [] && Last(h).kind.SnapshotCaptured?
    case PreflightFailed => h != [] && Last(h).kind.SnapshotCaptured?
    case TemporaryApplied => h != [] && Last(h).kind.PreflightPassed?
    case ProbePassed => StateOf(plan, h).Probing? && (exists p | p in plan.body.probes :: p.id == e.probeID) && e.probeID !in PassedIn(h)
    case ProbeFailed => StateOf(plan, h).Probing? && exists p | p in plan.body.probes :: p.id == e.probeID
    case PhaseTimedOut => !StateOf(plan, h).Terminal()
    case RollbackSucceeded => StateOf(plan, h).RollbackPending?
    case RollbackFailed => StateOf(plan, h).RollbackPending?
    case UnknownEvent(_) => false
  }

  /** No event before the last one; a timeout from the deadline on, all else up to it. */
  predicate InTime(plan: Plan, start: Time, h: Ledger, e: Event)
  {
    && UpdatedAt(start, h) <= e.at
    && (if e.kind.PhaseTimedOut? then DeadlineOf(plan, start, h) <= e.at else e.at <= DeadlineOf(plan, start, h))
  }

  ghost predicate Knows(h: Ledger, id: string)
  {
    exists c | c in h :: c.event.id == id
  }

  ghost predicate Holds(h: Ledger, e: Event)
  {
    exists c | c in h :: c.event == e
  }

  ghost function VerdictOf(plan: Plan, start: Time, h: Ledger, c: Call): Outcome
  {
    if !WellFormedEvent(c.event) then Rejected(InvalidEvent)
    else if Holds(h, c.event) then Replayed
    else if Knows(h, c.event.id) then Rejected(EventIdempotencyConflict)
    else if c.expectedVersion != 1 + |h| then Rejected(VersionConflict)
    else if Awaits(plan, h, c.event) && InTime(plan, start, h, c.event) then Accepted
    else Rejected(InvalidTransition)
  }

  function EventID(c: Call): string { c.event.id }

  lemma AwaitsIff(plan: Plan, start: Time, h: Ledger, e: Event)
    ensures Awaits(plan, h, e) <==> !StateOf(plan, h).Terminal() && Next(MachineOf(plan, start, h), e).Move?
  {
    hide PassedIn;
    hide AllPassed;
    hide RecordOf;
    hide DeadlineOf;
    hide ReasonOf;
  }

  // ----- the record -----

  lemma {:induction false} RecordKnows(h: Ledger, id: string)
    ensures id in RecordOf(h) <==> Knows(h, id)
  {
    if h != [] {
      assert h == Earlier(h) + [h[|h| - 1]];
      RecordKnows(Earlier(h), id);
      if Knows(Earlier(h), id) {
        var c :| c in Earlier(h) && c.event.id == id;
        assert c in h;
      }
      if Last(h).id == id { assert h[|h| - 1] in h; }
    }
  }

  /** Under distinct identifiers the record holds each event of the ledger. */
  lemma {:induction false} RecordHolds(h: Ledger, e: Event)
    requires Sorting.DistinctKeys(h, EventID) && e.id in RecordOf(h)
    ensures RecordOf(h)[e.id] == DigestOf(e) <==> Holds(h, e)
  {
    assert h != [];
    var front, c := Earlier(h), h[|h| - 1];
    assert h == front + [c] && c in h;
    if c.event.id == e.id {
      forall x | x in front ensures x.event.id != e.id {}
    } else {
      RecordHolds(front, e);
      if Holds(front, e) {
        var x :| x in front && x.event == e;
        assert x in h;
      }
    }
  }

  lemma {:induction false} LedgerDistinct(plan: Plan, start: Time, h: Ledger)
    requires IsCanonical(plan) && AcceptedCalls(Start(plan, start), h) == h
    ensures Sorting.DistinctKeys(h, EventID)
    decreases |h|
  {
    hide *;
    if h == [] {
      NoneDistinct(h);
    } else {
      var m0, c := Start(plan, start), h[|h| - 1];
      LedgerPrefix(m0, h);
      LedgerDistinct(plan, start, Earlier(h));
      LedgerTells(plan, start, Earlier(h));
      LedgerParts(plan, start, Earlier(h));
      AcceptedShape(Run(m0, Earlier(h)), c);
      RecordKnows(Earlier(h), c.event.id);
      DistinctNext(h);
    }
  }

  lemma NoneDistinct(h: Ledger)
    requires h == []
    ensures Sorting.DistinctKeys(h, EventID)
  {
  }

  lemma DistinctNext(h: Ledger)
    requires h != [] && Sorting.DistinctKeys(Earlier(h), EventID) && !Knows(Earlier(h), h[|h| - 1].event.id)
    ensures Sorting.DistinctKeys(h, EventID)
  {
    assert h == Earlier(h) + [h[|h| - 1]];
    Sorting.DistinctSnoc(Earlier(h), EventID, h[|h| - 1]);
  }

  lemma HeldIsKnown(h: Ledger, e: Event)
    requires Holds(h, e)
    ensures Knows(h, e.id)
  {
  }

  lemma VerdictTells(plan: Plan, start: Time, h: Ledger, c: Call)
    requires Sorting.DistinctKeys(h, EventID)
    ensures Verdict(MachineOf(plan, start, h), c.event, c.expectedVersion) == VerdictOf(plan, start, h, c)
  {
    hide StateOf;
    hide Awaits;
    hide Next;
    hide DeadlineOf;
    hide ReasonOf;
    hide PassedIn;
    hide RecordOf;
    hide Holds;
    hide Knows;
    hide ValidEvent;
    hide WellFormedEvent;
    hide DigestOf;
    hide Sorting.DistinctKeys;
    EventsWellFormed(c.event);
    AwaitsIff(plan, start, h, c.event);
    RecordKnows(h, c.event.id);
    if Knows(h, c.event.id) { RecordHolds(h, c.event); }
    if Holds(h, c.event) { HeldIsKnown(h, c.event); }
  }

  /** Every further call is answered from the ledger alone: accepted exactly when
      it is well formed, new, expects one more than the ledger's length, is awaited
      and comes in time; a replay exactly when the ledger holds the same event. */
  lemma AnswersAreTold(plan: Plan, start: Time, calls: seq<Call>, c: Call)
    requires IsCanonical(plan)
    ensures Verdict(Run(Start(plan, start), calls), c.event, c.expectedVersion) ==
            VerdictOf(plan, start, AcceptedCalls(Start(plan, start), calls), c)
  {
    hide *;
    var h := AcceptedCalls(Start(plan, start), calls);
    LedgerTells(plan, start, calls);
    OnlyAcceptedCallsCount(Start(plan, start), calls);
    LedgerDistinct(plan, start, h);
    VerdictTells(plan, start, h, c);
  }

  // ----- what a caller is shown -----

  ghost predicate Ascending(probes: seq<ConnectivityProbe>)
  {
    forall i, j | 0 <= i < j < |probes| :: Text.Less(probes[i].id, probes[j].id)
  }

  lemma {:induction false} PassedListed(probes: seq<ConnectivityProbe>, passed: set<string>)
    requires Ascending(probes)
    ensures var ids := PassedInOrder(probes, passed);
            && (forall id :: id in ids <==> id in passed && exists p | p in probes :: p.id == id)
            && forall i, j | 0 <= i < j < |ids| :: Text.Less(ids[i], ids[j])
  {
    hide Text.Less;
    if probes != [] {
      var n := |probes| - 1;
      var front, last := probes[..n], probes[n];
      assert probes == front + [last];
      PassedListed(front, passed);
      var ids := PassedInOrder(front, passed);
      forall i | 0 <= i < |ids| ensures Text.Less(ids[i], last.id) {
        assert ids[i] in ids;
        var p :| p in front && p.id == ids[i];
        var k :| 0 <= k < n && probes[k] == p;
      }
    }
  }

  /** A caller is shown exactly the probes reported as passed, each once, in
      ascending order. */
  lemma ShownProbes(plan: Plan, start: Time, calls: seq<Call>)
    requires IsCanonical(plan)
    ensures var m0 := Start(plan, start);
            var ids := Run(m0, calls).Show().passedProbeIDs;
            && (forall id :: id in ids <==> id in PassedIn(AcceptedCalls(m0, calls)))
            && forall i, j | 0 <= i < j < |ids| :: Text.Less(ids[i], ids[j])
  {
    hide *;
    var m := Run(Start(plan, start), calls);
    var h := AcceptedCalls(Start(plan, start), calls);
    LedgerTells(plan, start, calls);
    LedgerParts(plan, start, h);
    RunReachable(plan, start, calls);
    ReachableSound(m, plan, start);
    SoundParts(m, start);
    CanonicalAscends(plan);
    PassedListed(plan.body.probes, m.passed);
    ShowIs(m);
    forall id | id in m.passed ensures exists p | p in plan.body.probes :: p.id == id { ProbeOf(plan, id); }
  }

  lemma ProbeOf(plan: Plan, id: string)
    requires id in ProbeIDs(plan)
    ensures exists p | p in plan.body.probes :: p.id == id
  {
  }

  lemma ShowIs(m: Machine)
    ensures m.Show().passedProbeIDs == PassedInOrder(m.plan.body.probes, m.passed)
  {
  }

  lemma CanonicalAscends(plan: Plan)
    requires IsCanonical(plan)
    ensures Ascending(plan.body.probes)
  {
    PlanMeaning.PlanHolds(RequestOf(plan));
    hide WellFormed;
    hide Canonical;
    hide Text.Less;
    hide PlanMeaning.HoldsCleaned;
    hide PlanMeaning.Header;
  }
}
