/** The safety state machine of a staged network change
    (internal/networkpolicy/change_machine.go). */
module ChangeMachine {
  import opened ChangePlan
  import Text

  /** Instants in nanoseconds; 0 is Go's zero time. */
  type Time = int
  const ZERO_TIME: Time := 0
  const UINT64 := 0x1_0000_0000_0000_0000

  datatype State =
    | SnapshotPending | Preflight | ApplyWindow | Probing | RollbackPending
    | Committed | RolledBack | FailedClosed
  {
    predicate Terminal() { Committed? || RolledBack? || FailedClosed? }
  }

  datatype EventType =
    | SnapshotCaptured | SnapshotFailed | PreflightPassed | PreflightFailed | TemporaryApplied
    | ProbePassed | ProbeFailed | PhaseTimedOut | RollbackSucceeded | RollbackFailed
    | UnknownEvent(text: string)
  {
    predicate IsFailure()
    {
      SnapshotFailed? || PreflightFailed? || ProbeFailed? || PhaseTimedOut? || RollbackFailed?
    }
  }

  /** Empty strings stand for absent fields, as in the source. */
  datatype Event = Event(id: string, kind: EventType, snapshotID: string, probeID: string, reasonCode: string, at: Time)

  datatype Snapshot = Snapshot(
    planID: Digest<Body>, snapshotID: string, state: State, version: nat,
    deadline: Time, reasonCode: string, updatedAt: Time)

  datatype Error = InvalidEvent | EventIdempotencyConflict | VersionConflict | InvalidTransition
  datatype Outcome = Accepted | Replayed | Rejected(error: Error)

  /** What a caller is shown: the snapshot and the passed probes in plan order. */
  datatype View = View(snapshot: Snapshot, passedProbeIDs: seq<string>)

  // ----- events -----

  predicate IsNormalizable(s: string)
  {
    IsIdentifier(Text.Trim(s))
  }

  predicate ValidEvent(e: Event)
  {
    && IsNormalizable(e.id)
    && e.at != ZERO_TIME
    && (e.reasonCode != "" ==> IsNormalizable(e.reasonCode) && e.kind.IsFailure())
    && (e.probeID != "" ==> IsNormalizable(e.probeID))
    && (e.kind.ProbePassed? || e.kind.ProbeFailed? <==> e.probeID != "")
    && (if e.kind.SnapshotCaptured? then IsNormalizable(e.snapshotID) else e.snapshotID == "")
    && !e.kind.UnknownEvent?
  }

  function DigestOf(e: Event): Digest<Event>
  {
    Sha256Of(e)
  }

  function Detail(e: Event, fallback: string): string
  {
    if e.reasonCode != "" then e.reasonCode else fallback
  }

  // ----- the machine as a value -----

  datatype Machine = Machine(plan: Plan, snapshot: Snapshot, passed: set<string>, processed: map<string, Digest<Event>>)
  {
    function State(): State { snapshot.state }
    function Timeouts(): TimeoutPolicy { plan.body.timeouts }
    predicate HasProbe(id: string) { exists p | p in plan.body.probes :: p.id == id }
    function Show(): View { View(snapshot, PassedInOrder(plan.body.probes, passed)) }
  }

  function PassedInOrder(probes: seq<ConnectivityProbe>, passed: set<string>): seq<string>
  {
    if probes == [] then []
    else
      var front, last := probes[..|probes| - 1], probes[|probes| - 1];
      PassedInOrder(front, passed) + if last.id in passed then [last.id] else []
  }

  function Start(plan: Plan, now: Time): Machine
  {
    Machine(plan,
            Snapshot(plan.planID, "", SnapshotPending, 1, now + plan.body.timeouts.snapshot, "", now),
            {}, map[])
  }

  /** Entering a state; a phase without a timeout has no deadline. */
  function Enter(s: Snapshot, state: State, at: Time, timeout: int, reason: string): Snapshot
  {
    s.(state := state, reasonCode := reason, deadline := if timeout > 0 then at + timeout else ZERO_TIME)
  }

  datatype Move = Stay | Move(snapshot: Snapshot, passed: set<string>)

  /** Where an event leads from a state; `Stay` where it leads nowhere. */
  function Next(m: Machine, e: Event): Move
  {
    var s, t := m.snapshot, m.Timeouts();
    match s.state
    case SnapshotPending =>
      if e.kind.SnapshotCaptured? then
        Move(Enter(s.(snapshotID := e.snapshotID), Preflight, e.at, t.preflight, ""), m.passed)
      else if e.kind.SnapshotFailed? || e.kind.PhaseTimedOut? then
        Move(Enter(s, FailedClosed, e.at, 0, Detail(e, "snapshot_not_available")), m.passed)
      else Stay
    case Preflight =>
      if e.kind.PreflightPassed? then
        Move(Enter(s, ApplyWindow, e.at, t.applyWindow, ""), m.passed)
      else if e.kind.PreflightFailed? || e.kind.PhaseTimedOut? then
        Move(Enter(s, FailedClosed, e.at, 0, Detail(e, "preflight_not_safe")), m.passed)
      else Stay
    case ApplyWindow =>
      if e.kind.TemporaryApplied? then
        var probeDeadline := e.at + t.probe;
        Move(s.(state := Probing, reasonCode := "",
                deadline := if probeDeadline > s.deadline then s.deadline else probeDeadline), m.passed)
      else if e.kind.PhaseTimedOut? then
        Move(Enter(s, RollbackPending, e.at, t.rollback, Detail(e, "apply_window_timeout")), m.passed)
      else Stay
    case Probing =>
      if e.kind.ProbePassed? && m.HasProbe(e.probeID) && e.probeID !in m.passed then
        var passed := m.passed + {e.probeID};
        Move(if |passed| == |m.plan.body.probes| then Enter(s, Committed, e.at, 0, "") else s, passed)
      else if e.kind.PhaseTimedOut? || (e.kind.ProbeFailed? && m.HasProbe(e.probeID)) then
        Move(Enter(s, RollbackPending, e.at, t.rollback, Detail(e, "connectivity_validation_failed")), m.passed)
      else Stay
    case RollbackPending =>
      if e.kind.RollbackSucceeded? then
        Move(Enter(s, RolledBack, e.at, 0, s.reasonCode), m.passed)
      else if e.kind.RollbackFailed? || e.kind.PhaseTimedOut? then
        Move(Enter(s, FailedClosed, e.at, 0, Detail(e, "rollback_not_confirmed")), m.passed)
      else Stay
    case _ => Stay
  }

  /** Events may not run backwards; a timeout may not come early, and nothing
      else may come after the deadline. */
  predicate Timely(s: Snapshot, e: Event)
  {
    && s.updatedAt <= e.at
    && (if e.kind.PhaseTimedOut? then s.deadline <= e.at else e.at <= s.deadline)
  }

  function Increment(version: nat): nat
  {
    (version + 1) % UINT64
  }

  function Verdict(m: Machine, e: Event, expectedVersion: nat): Outcome
  {
    if !ValidEvent(e) then Rejected(InvalidEvent)
    else if e.id in m.processed then
      if m.processed[e.id] == DigestOf(e) then Replayed else Rejected(EventIdempotencyConflict)
    else if m.snapshot.version != expectedVersion then Rejected(VersionConflict)
    else if m.State().Terminal() || !Timely(m.snapshot, e) || Next(m, e).Stay? then Rejected(InvalidTransition)
    else Accepted
  }

  /** The machine after one call. */
  function After(m: Machine, e: Event, expectedVersion: nat): Machine
  {
    if Verdict(m, e, expectedVersion) != Accepted then m
    else
      var move := Next(m, e);
      m.(snapshot := move.snapshot.(version := Increment(move.snapshot.version), updatedAt := e.at),
         passed := move.passed,
         processed := m.processed[e.id := DigestOf(e)])
  }

  // ----- the machine as the source keeps it -----

  class Controller {
    const plan: Plan
    var snapshot: Snapshot
    var passed: set<string>
    var processedEvents: map<string, Digest<Event>>

    /** The value this object represents. */
    function Value(): Machine
      reads this
    {
      Machine(plan, snapshot, passed, processedEvents)
    }

    constructor (plan: Plan, now: Time)
      ensures Value() == Start(plan, now)
    {
      this.plan := plan;
      snapshot := Snapshot(plan.planID, "", SnapshotPending, 1, now + plan.body.timeouts.snapshot, "", now);
      passed, processedEvents := {}, map[];
    }

    method CopySnapshot() returns (view: View)
      ensures view == Value().Show()
    {
      var ids := [];
      for k := 0 to |plan.body.probes|
        invariant ids == PassedInOrder(plan.body.probes[..k], passed)
      {
        assert plan.body.probes[..k + 1][..k] == plan.body.probes[..k];
        if plan.body.probes[k].id in passed { ids := ids + [plan.body.probes[k].id]; }
      }
      assert plan.body.probes[..|plan.body.probes|] == plan.body.probes;
      view := View(snapshot, ids);
    }

    method Apply(event: Event, expectedVersion: nat) returns (view: View, outcome: Outcome)
      modifies this
      ensures Value() == After(old(Value()), event, expectedVersion)
      ensures outcome == Verdict(old(Value()), event, expectedVersion)
      ensures view == Value().Show()
    {
      outcome := Accepted;
      if !ValidEvent(event) {
        outcome := Rejected(InvalidEvent);
      } else if event.id in processedEvents {
        outcome := if processedEvents[event.id] == DigestOf(event) then Replayed else Rejected(EventIdempotencyConflict);
      } else if snapshot.version != expectedVersion {
        outcome := Rejected(VersionConflict);
      } else if snapshot.state.Terminal() || event.at < snapshot.updatedAt ||
                (event.kind.PhaseTimedOut? && event.at < snapshot.deadline) ||
                (!event.kind.PhaseTimedOut? && event.at > snapshot.deadline) {
        outcome := Rejected(InvalidTransition);
      }
      if outcome == Accepted {
        var moved := Transition(event);
        if moved {
          processedEvents := processedEvents[event.id := DigestOf(event)];
          snapshot := snapshot.(version := Increment(snapshot.version), updatedAt := event.at);
        } else {
          outcome := Rejected(InvalidTransition);
        }
      }
      view := CopySnapshot();
    }

    method Transition(event: Event) returns (moved: bool)
      requires !snapshot.state.Terminal()
      modifies this`snapshot, this`passed
      ensures moved <==> Next(old(Value()), event).Move?
      ensures moved ==> Move(snapshot, passed) == Next(old(Value()), event)
      ensures !moved ==> Value() == old(Value())
    {
      moved := true;
      match snapshot.state
      case SnapshotPending =>
        if event.kind.SnapshotCaptured? {
          snapshot := snapshot.(snapshotID := event.snapshotID);
          EnterState(Preflight, event.at, plan.body.timeouts.preflight, "");
        } else if event.kind.SnapshotFailed? || event.kind.PhaseTimedOut? {
          EnterState(FailedClosed, event.at, 0, Detail(event, "snapshot_not_available"));
        } else {
          moved := false;
        }
      case Preflight =>
        if event.kind.PreflightPassed? {
          EnterState(ApplyWindow, event.at, plan.body.timeouts.applyWindow, "");
        } else if event.kind.PreflightFailed? || event.kind.PhaseTimedOut? {
          EnterState(FailedClosed, event.at, 0, Detail(event, "preflight_not_safe"));
        } else {
          moved := false;
        }
      case ApplyWindow =>
        if event.kind.TemporaryApplied? {
          var deadline := event.at + plan.body.timeouts.probe;
          if deadline > snapshot.deadline { deadline := snapshot.deadline; }
          snapshot := snapshot.(state := Probing, deadline := deadline, reasonCode := "");
        } else if event.kind.PhaseTimedOut? {
          EnterState(RollbackPending, event.at, plan.body.timeouts.rollback, Detail(event, "apply_window_timeout"));
        } else {
          moved := false;
        }
      case Probing =>
        if event.kind.ProbePassed? {
          var known := FindProbe(event.probeID);
          if !known || event.probeID in passed { return false; }
          passed := passed + {event.probeID};
          if |passed| == |plan.body.probes| {
            EnterState(Committed, event.at, 0, "");
          }
        } else if event.kind.ProbeFailed? || event.kind.PhaseTimedOut? {
          if event.kind.ProbeFailed? {
            var known := FindProbe(event.probeID);
            if !known { return false; }
          }
          EnterState(RollbackPending, event.at, plan.body.timeouts.rollback,
                     Detail(event, "connectivity_validation_failed"));
        } else {
          moved := false;
        }
      case RollbackPending =>
        if event.kind.RollbackSucceeded? {
          EnterState(RolledBack, event.at, 0, snapshot.reasonCode);
        } else if event.kind.RollbackFailed? || event.kind.PhaseTimedOut? {
          EnterState(FailedClosed, event.at, 0, Detail(event, "rollback_not_confirmed"));
        } else {
          moved := false;
        }
      case _ => moved := false;
    }

    method EnterState(state: State, at: Time, timeout: int, reason: string)
      modifies this`snapshot
      ensures snapshot == Enter(old(snapshot), state, at, timeout, reason)
    {
      snapshot := snapshot.(state := state, reasonCode := reason);
      if timeout > 0 {
        snapshot := snapshot.(deadline := at + timeout);
      } else {
        snapshot := snapshot.(deadline := ZERO_TIME);
      }
    }

    method FindProbe(id: string) returns (found: bool)
      ensures found <==> Value().HasProbe(id)
    {
      for k := 0 to |plan.body.probes|
        invariant forall p | p in plan.body.probes[..k] :: p.id != id
      {
        assert plan.body.probes[..k + 1] == plan.body.probes[..k] + [plan.body.probes[k]];
        if plan.body.probes[k].id == id {
          assert plan.body.probes[k] in plan.body.probes;
          return true;
        }
      }
      assert plan.body.probes[..|plan.body.probes|] == plan.body.probes;
      return false;
    }
  }

  /** A machine is only made for a plan that rebuilds to itself. */
  method NewChangeMachine(plan: Plan, now: Time) returns (machine: Controller?)
    ensures machine != null <==> now != ZERO_TIME && IsCanonical(plan)
    ensures machine != null ==> fresh(machine) && machine.Value() == Start(plan, now)
  {
    if now == ZERO_TIME { return null; }
    var built := BuildChangePlan(RequestOf(plan));
    if !built.Built? || built.plan != plan { return null; }
    machine := new Controller(plan, now);
  }
}
