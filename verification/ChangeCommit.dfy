/** The one way to commit: which accepted calls, in which order, a committed change
    has behind it (internal/networkpolicy/change_machine.go). */
module ChangeCommit {
  import opened ChangePlan
  import opened ChangeMachine
  import opened ChangeRuns
  import Sorting

  const OPENING: seq<EventType> := [SnapshotCaptured, PreflightPassed, TemporaryApplied]

  function Reported(c: Call): string { c.event.probeID }

  /** The calls begin with snapshot, preflight and temporary apply, in this order, as
      far as they go. */
  ghost predicate Opens(h: seq<Call>)
  {
    forall i | 0 <= i < |h| && i < 3 :: h[i].event.kind == OPENING[i]
  }

  /** Each call reports a probe as passed, no probe twice, and together `passed`. */
  ghost predicate Reports(h: seq<Call>, passed: set<string>)
  {
    && (forall c | c in h :: c.event.kind.ProbePassed?) && Sorting.DistinctKeys(h, Reported)
    && passed == set c | c in h :: Reported(c)
  }

  /** Snapshot, preflight, temporary apply, and then one passing report for each probe
      of the plan, in any order, and nothing else. */
  ghost predicate CommitScript(plan: Plan, h: seq<Call>)
  {
    |h| == |plan.body.probes| + 3 && Opens(h) && Reports(h[3..], ProbeIDs(plan))
  }

  ghost predicate SomeFailure(h: seq<Call>)
  {
    exists c | c in h :: c.event.kind.IsFailure()
  }

  /** What a state, with the probes passed so far, says about the accepted calls that
      led there. */
  ghost predicate Told(state: State, passed: set<string>, h: seq<Call>)
  {
    match state
    case SnapshotPending => |h| == 0 && passed == {}
    case Preflight => |h| == 1 && Opens(h) && passed == {}
    case ApplyWindow => |h| == 2 && Opens(h) && passed == {}
    case Probing => |h| == 3 + |passed| && Opens(h) && Reports(h[3..], passed)
    case Committed => |h| == 3 + |passed| && Opens(h) && Reports(h[3..], passed)
    case _ => SomeFailure(h)
  }

  ghost predicate Story(m: Machine, h: seq<Call>)
  {
    Told(m.State(), m.passed, h)
  }

  lemma OpensNext(h: seq<Call>, c: Call)
    requires Opens(h) && (|h| < 3 ==> c.event.kind == OPENING[|h|])
    ensures Opens(h + [c])
  {
  }

  lemma NothingReported(h: seq<Call>)
    requires |h| == 3
    ensures Reports(h[3..], {})
  {
    assert h[3..] == [];
  }

  lemma ReportNext(h: seq<Call>, passed: set<string>, c: Call)
    requires |h| >= 3 && Reports(h[3..], passed) && c.event.kind.ProbePassed? && c.event.probeID !in passed
    ensures Reports((h + [c])[3..], passed + {c.event.probeID})
  {
    var r := h[3..];
    assert (h + [c])[3..] == r + [c];
    Sorting.DistinctSnoc(r, Reported, c);
    var all := set x | x in r + [c] :: Reported(x);
    assert c in r + [c] && Reported(c) in all;
    forall id | id in passed ensures id in all {
      var x :| x in r && Reported(x) == id;
      assert x in r + [c];
    }
    assert all == passed + {c.event.probeID};
  }

  lemma FailureStays(h: seq<Call>, c: Call)
    requires SomeFailure(h) || c.event.kind.IsFailure()
    ensures SomeFailure(h + [c])
  {
    if SomeFailure(h) {
      var f :| f in h && f.event.kind.IsFailure();
      assert f in h + [c];
    } else {
      assert c in h + [c];
    }
  }

  /** Where an event may lead, seen through what the transition table asks of it. */
  predicate Leads(state: State, passed: set<string>, e: Event, next: State, passed': set<string>)
  {
    match state
    case SnapshotPending =>
      (next.Preflight? && e.kind.SnapshotCaptured? && passed' == passed) || (next.FailedClosed? && e.kind.IsFailure())
    case Preflight =>
      (next.ApplyWindow? && e.kind.PreflightPassed? && passed' == passed) || (next.FailedClosed? && e.kind.IsFailure())
    case ApplyWindow =>
      (next.Probing? && e.kind.TemporaryApplied? && passed' == passed) || (next.RollbackPending? && e.kind.IsFailure())
    case Probing =>
      || ((next.Probing? || next.Committed?) && e.kind.ProbePassed? && e.probeID !in passed && passed' == passed + {e.probeID})
      || (next.RollbackPending? && e.kind.IsFailure())
    case RollbackPending => next.RolledBack? || next.FailedClosed?
    case _ => false
  }

  lemma MoveLeads(m: Machine, e: Event)
    requires Next(m, e).Move?
    ensures Leads(m.State(), m.passed, e, Next(m, e).snapshot.state, Next(m, e).passed)
  {
    hide Detail;
    hide Machine.HasProbe;
  }

  lemma ToldNext(state: State, passed: set<string>, h: seq<Call>, c: Call, next: State, passed': set<string>)
    requires Told(state, passed, h) && Leads(state, passed, c.event, next, passed')
    ensures Told(next, passed', h + [c])
  {
    hide Opens;
    hide Reports;
    hide SomeFailure;
    if state.RollbackPending? || c.event.kind.IsFailure() {
      FailureStays(h, c);
    } else {
      if |h| == 0 { NothingYet(h); }
      OpensNext(h, c);
      if state.ApplyWindow? { NothingReported(h + [c]); }
      if state.Probing? { ReportNext(h, passed, c); }
    }
  }

  lemma StoryStep(m: Machine, h: seq<Call>, c: Call)
    requires Story(m, h) && Accepts(m, c)
    ensures Story(Step(m, c), h + [c])
  {
    AcceptedShape(m, c);
    MoveLeads(m, c.event);
    hide Step;
    hide Verdict;
    hide Next;
    hide Told;
    hide Leads;
    ToldNext(m.State(), m.passed, h, c, Next(m, c.event).snapshot.state, Next(m, c.event).passed);
  }

  lemma NothingYet(h: seq<Call>)
    requires |h| == 0
    ensures Opens(h)
  {
  }

  lemma {:induction false} StoryOfRun(plan: Plan, start: Time, calls: seq<Call>)
    ensures Story(Run(Start(plan, start), calls), AcceptedCalls(Start(plan, start), calls))
    decreases |calls|
  {
    var m0 := Start(plan, start);
    if calls != [] {
      var n := |calls| - 1;
      var front, last := calls[..n], calls[n];
      assert calls == front + [last];
      hide Told;
      hide Step;
      hide Accepts;
      StoryOfRun(plan, start, front);
      RunJoins(m0, front, [last]);
      RunLast(m0, calls);
      var m, h := Run(m0, front), AcceptedCalls(m0, front);
      LastAccepted(m, last);
      if Accepts(m, last) {
        StoryStep(m, h, last);
      } else {
        RejectedChangesNothing(m, last);
        assert h + [] == h;
      }
    }
  }

  lemma LastAccepted(m: Machine, c: Call)
    ensures AcceptedCalls(m, [c]) == if Accepts(m, c) then [c] else []
  {
    hide Accepts;
    hide Step;
    assert [c][1..] == [];
  }

  /** A change is committed exactly when its accepted calls are the recovery snapshot,
      the preflight, the temporary apply, and then one passing report for each probe. */
  lemma CommittedIff(plan: Plan, start: Time, calls: seq<Call>)
    requires IsCanonical(plan)
    ensures Run(Start(plan, start), calls).State().Committed? <==>
            CommitScript(plan, AcceptedCalls(Start(plan, start), calls))
  {
    var m, h := Run(Start(plan, start), calls), AcceptedCalls(Start(plan, start), calls);
    hide IsCanonical;
    StoryOfRun(plan, start, calls);
    RunReachable(plan, start, calls);
    ReachableSound(m, plan, start);
    DistinctCount(plan.body.probes);
    hide Run;
    hide AcceptedCalls;
    hide Reports;
    hide Opens;
    hide RecordSound;
    hide ProbesSound;
    hide NormalOk;
    hide Happened;
    if m.State().Committed? {
      assert m.passed == ProbeIDs(plan);
    }
    if CommitScript(plan, h) { ScriptFailsNowhere(plan, h); }
  }

  lemma ScriptFailsNowhere(plan: Plan, h: seq<Call>)
    requires CommitScript(plan, h)
    ensures !SomeFailure(h) && |h| >= 3
  {
    forall c | c in h ensures !c.event.kind.IsFailure() {
      var i :| 0 <= i < |h| && h[i] == c;
      if i >= 3 { assert h[i] == h[3..][i - 3]; }
    }
  }

  ghost predicate InOrder(h: seq<Call>, since: Time)
  {
    && (forall i | 0 <= i < |h| :: since <= h[i].event.at)
    && forall i, j | 0 <= i < j < |h| :: h[i].event.at <= h[j].event.at
  }

  lemma InOrderBefore(c: Call, h: seq<Call>, since: Time)
    requires InOrder(h, c.event.at) && since <= c.event.at
    ensures InOrder([c] + h, since)
  {
  }

  /** Accepted events never run backwards. */
  lemma {:induction false} TimesInOrder(m: Machine, calls: seq<Call>)
    ensures InOrder(AcceptedCalls(m, calls), m.snapshot.updatedAt)
    decreases |calls|
  {
    if calls != [] {
      hide InOrder;
      var c, rest := calls[0], AcceptedCalls(Step(m, calls[0]), calls[1..]);
      TimesInOrder(Step(m, c), calls[1..]);
      if Accepts(m, c) {
        AcceptedShape(m, c);
        hide Verdict;
        hide Next;
        InOrderBefore(c, rest, m.snapshot.updatedAt);
      } else {
        RejectedChangesNothing(m, c);
        assert [] + rest == rest;
      }
    } else {
      assert AcceptedCalls(m, calls) == [];
    }
  }
}
