/** The bounds on a run are exact: for every plan some run accepts one event per
    probe and four more, and some run lasts as long as late timeouts allow. */
module ChangeLongestRun {
  import opened ChangePlan
  import opened ChangeMachine
  import opened ChangeRuns
  import Text

  /** Identifiers for the probe events, one letter longer each time. */
  function Mark(k: nat): string
  {
    seq(k, i => 'a')
  }

  lemma MarkIsIdentifier(k: nat)
    requires 1 <= k <= 128
    ensures IsNormalizable(Mark(k))
  {
    Text.TrimIdentifier(Mark(k), 128, false);
  }

  lemma LetterIsIdentifier(s: string)
    requires |s| == 1 && Text.IsAlphanumeric(s[0])
    ensures IsNormalizable(s)
  {
    Text.TrimIdentifier(s, 128, false);
  }

  /** One more accepted call. */
  lemma Extend(m: Machine, calls: seq<Call>, c: Call)
    requires Accepts(Run(m, calls), c)
    ensures Run(m, calls + [c]) == Step(Run(m, calls), c)
    ensures |AcceptedCalls(m, calls + [c])| == |AcceptedCalls(m, calls)| + 1
  {
    var n := Run(m, calls);
    RunJoins(m, calls, [c]);
    hide Verdict;
    hide After;
    assert Run(n, [c]) == Run(Step(n, c), []);
    assert AcceptedCalls(n, [c]) == [c] + AcceptedCalls(Step(n, c), []);
  }

  ghost predicate PlanReady(plan: Plan)
  {
    PlanFacts(plan) && forall p | p in plan.body.probes :: IsNormalizable(p.id) && p.id != ""
  }

  lemma CanonicalPlanReady(plan: Plan)
    requires IsCanonical(plan)
    ensures PlanReady(plan)
  {
    CanonicalPlanFacts(plan);
    hide IsCanonical;
    forall p | p in plan.body.probes ensures IsNormalizable(p.id) && p.id != "" {
      Text.TrimIdentifier(p.id, 128, false);
    }
  }

  /** A machine `events` accepted events into its run, all at `start`; the
      marks still to come, and the two closing identifiers, are unused. */
  ghost predicate Underway(m: Machine, plan: Plan, start: Time, state: State, events: nat, passed: nat)
  {
    && m.plan == plan && m.State() == state && !state.Terminal() && m.snapshot.version == 1 + events
    && m.snapshot.updatedAt == start <= m.snapshot.deadline
    && passed < |plan.body.probes| && m.passed == (set p | p in plan.body.probes[..passed] :: p.id)
    && MarksUnused(m.processed, passed)
  }

  /** A timely event that leads somewhere is accepted. */
  lemma Advance(m: Machine, c: Call)
    requires ValidEvent(c.event) && c.event.id !in m.processed && !c.event.kind.PhaseTimedOut?
    requires c.expectedVersion == m.snapshot.version <= MAX_PROBES + 4
    requires !m.State().Terminal() && m.snapshot.updatedAt == c.event.at <= m.snapshot.deadline
    requires Next(m, c.event).Move?
    ensures Accepts(m, c)
    ensures var move := Next(m, c.event);
            Step(m, c) == Machine(m.plan, move.snapshot.(version := m.snapshot.version + 1, updatedAt := c.event.at),
                                  move.passed, m.processed[c.event.id := DigestOf(c.event)])
  {
    NextKeepsIdentity(m, c.event);
    hide ValidEvent;
    hide Next;
    IncrementIsExact(m.snapshot.version);
  }

  const captured := Event("s", SnapshotCaptured, "s", "", "", 0)
  const prepared := Event("p", PreflightPassed, "", "", "", 0)
  const applied := Event("t", TemporaryApplied, "", "", "", 0)

  lemma LettersValid(at: Time)
    requires at != ZERO_TIME
    ensures ValidEvent(captured.(at := at)) && ValidEvent(prepared.(at := at)) && ValidEvent(applied.(at := at))
    ensures ValidEvent(Event("r", RollbackFailed, "", "", "", at))
  {
    LetterIsIdentifier("s");
    LetterIsIdentifier("p");
    LetterIsIdentifier("t");
    LetterIsIdentifier("r");
    hide IsNormalizable;
  }

  lemma Opened(plan: Plan, start: Time)
    requires PlanFacts(plan) && start != ZERO_TIME
    ensures var m0 := Start(plan, start);
            var c1, c2, c3 := Call(captured.(at := start), 1), Call(prepared.(at := start), 2), Call(applied.(at := start), 3);
            && Accepts(m0, c1) && Accepts(Step(m0, c1), c2) && Accepts(Step(Step(m0, c1), c2), c3)
            && Underway(Step(Step(Step(m0, c1), c2), c3), plan, start, Probing, 3, 0)
  {
    LettersValid(start);
    hide ValidEvent;
    hide Verdict;
    hide Step;
    hide Accepts;
    var m0 := Start(plan, start);
    var c1, c2, c3 := Call(captured.(at := start), 1), Call(prepared.(at := start), 2), Call(applied.(at := start), 3);
    Advance(m0, c1);
    Advance(Step(m0, c1), c2);
    Advance(Step(Step(m0, c1), c2), c3);
    forall k | 0 < k ensures Mark(k) !in Step(Step(Step(m0, c1), c2), c3).processed {
      assert Mark(k)[0] == 'a';
    }
  }

  lemma Opening(plan: Plan, start: Time) returns (calls: seq<Call>)
    requires PlanFacts(plan) && start != ZERO_TIME
    ensures Underway(Run(Start(plan, start), calls), plan, start, Probing, 3, 0)
    ensures |AcceptedCalls(Start(plan, start), calls)| == 3
  {
    Opened(plan, start);
    var m0 := Start(plan, start);
    var c1, c2, c3 := Call(captured.(at := start), 1), Call(prepared.(at := start), 2), Call(applied.(at := start), 3);
    assert Run(m0, []) == m0 && AcceptedCalls(m0, []) == [];
    hide *;
    Extend(m0, [], c1);
    Extend(m0, [] + [c1], c2);
    Extend(m0, [] + [c1] + [c2], c3);
    calls := [] + [c1] + [c2] + [c3];
  }

  function ProbeEvent(id: string, kind: EventType, probe: ConnectivityProbe, at: Time): Event
  {
    Event(id, kind, "", probe.id, "", at)
  }

  lemma ProbeEventValid(plan: Plan, id: string, kind: EventType, k: nat, at: Time)
    requires PlanReady(plan) && k < |plan.body.probes| && at != ZERO_TIME
    requires IsNormalizable(id) && (kind.ProbePassed? || kind.ProbeFailed?)
    ensures ValidEvent(ProbeEvent(id, kind, plan.body.probes[k], at))
  {
    hide IsNormalizable;
    assert plan.body.probes[k] in plan.body.probes;
  }

  lemma ProbeNotYetPassed(plan: Plan, k: nat)
    requires PlanFacts(plan) && k < |plan.body.probes|
    ensures var before := set p | p in plan.body.probes[..k] :: p.id;
            && plan.body.probes[k].id !in before
            && before + {plan.body.probes[k].id} == (set p | p in plan.body.probes[..k + 1] :: p.id)
            && |before + {plan.body.probes[k].id}| == k + 1
  {
    var probes := plan.body.probes;
    assert probes[..k + 1] == probes[..k] + [probes[k]];
    forall p | p in probes[..k] ensures p.id != probes[k].id {
      var j :| 0 <= j < k && probes[j] == p;
      assert ProbeID(probes[j]) != ProbeID(probes[k]);
    }
    DistinctCount(probes[..k]);
  }

  lemma ProbingMove(m: Machine, probe: ConnectivityProbe, e: Event)
    requires m.State().Probing? && probe in m.plan.body.probes
    requires e.kind.ProbePassed? && e.probeID == probe.id && probe.id !in m.passed
    requires |m.passed + {probe.id}| < |m.plan.body.probes|
    ensures Next(m, e) == Move(m.snapshot, m.passed + {probe.id})
  {
  }

  lemma UnderwayNext(m: Machine, n: Machine, plan: Plan, start: Time, k: nat)
    requires Underway(m, plan, start, Probing, 3 + k, k) && k + 1 < |plan.body.probes|
    requires n.plan == plan && n.snapshot == m.snapshot.(version := m.snapshot.version + 1, updatedAt := start)
    requires n.passed == m.passed + {plan.body.probes[k].id}
    requires MarksUnused(n.processed, k + 1)
    ensures Underway(n, plan, start, Probing, 4 + k, k + 1)
  {
    hide MarksUnused;
    assert plan.body.probes[..k + 1] == plan.body.probes[..k] + [plan.body.probes[k]];
  }

  lemma NextProbe(m: Machine, plan: Plan, start: Time, k: nat)
    requires PlanReady(plan) && start != ZERO_TIME && k + 1 < |plan.body.probes| <= MAX_PROBES
    requires Underway(m, plan, start, Probing, 3 + k, k)
    ensures var c := Call(ProbeEvent(Mark(k + 1), ProbePassed, plan.body.probes[k], start), 4 + k);
            Accepts(m, c) && Underway(Step(m, c), plan, start, Probing, 4 + k, k + 1)
  {
    hide PlanReady;
    var probe := plan.body.probes[k];
    var e := ProbeEvent(Mark(k + 1), ProbePassed, probe, start);
    var c := Call(e, 4 + k);
    ReadyCounts(plan);
    MarkIsIdentifier(k + 1);
    ProbeEventValid(plan, Mark(k + 1), ProbePassed, k, start);
    MarksLeft(m.processed, k, DigestOf(e));
    ProbeNotYetPassed(plan, k);
    hide ValidEvent;
    hide PlanFacts;
    hide MarksUnused;
    hide Mark;
    hide Verdict;
    hide Step;
    hide Accepts;
    hide Next;
    ProbingMove(m, probe, e);
    Advance(m, c);
    UnderwayNext(m, Step(m, c), plan, start, k);
  }

  ghost predicate MarksUnused(processed: map<string, Digest<Event>>, used: nat)
  {
    "f" !in processed && "r" !in processed && forall k | used < k :: Mark(k) !in processed
  }

  lemma MarksLeft(processed: map<string, Digest<Event>>, used: nat, d: Digest<Event>)
    requires MarksUnused(processed, used)
    ensures MarksUnused(processed[Mark(used + 1) := d], used + 1)
    ensures Mark(used + 1) !in processed
  {
    assert Mark(used + 1)[0] == 'a';
    forall j | used + 1 < j ensures Mark(j) !in processed[Mark(used + 1) := d] {
      assert |Mark(j)| == j && |Mark(used + 1)| == used + 1;
    }
  }

  lemma FailingMove(m: Machine, probe: ConnectivityProbe, e: Event)
    requires m.State().Probing? && probe in m.plan.body.probes && TimeoutsOk(m.plan.body.timeouts)
    requires e.kind.ProbeFailed? && e.probeID == probe.id
    ensures Next(m, e).Move? && Next(m, e).snapshot.state.RollbackPending?
    ensures Next(m, e).snapshot.version == m.snapshot.version && e.at <= Next(m, e).snapshot.deadline
  {
  }

  lemma RollbackMove(m: Machine, e: Event)
    requires e.kind.RollbackFailed?
    ensures m.State().RollbackPending? ==> Next(m, e).Move?
  {
  }

  /** The last probe fails, and then the rollback does. */
  lemma Closing(m: Machine, plan: Plan, start: Time, n: nat)
    requires PlanReady(plan) && start != ZERO_TIME && n + 1 == |plan.body.probes| <= MAX_PROBES
    requires Underway(m, plan, start, Probing, 3 + n, n)
    ensures var failed := Call(ProbeEvent("f", ProbeFailed, plan.body.probes[n], start), 4 + n);
            Accepts(m, failed) && Accepts(Step(m, failed), Call(Event("r", RollbackFailed, "", "", "", start), 5 + n))
  {
    ReadyCounts(plan);
    hide PlanReady;
    LetterIsIdentifier("f");
    ProbeEventValid(plan, "f", ProbeFailed, n, start);
    LettersValid(start);
    var failed := Call(ProbeEvent("f", ProbeFailed, plan.body.probes[n], start), 4 + n);
    assert plan.body.probes[n] in plan.body.probes;
    hide ValidEvent;
    hide IsNormalizable;
    hide Verdict;
    hide Step;
    hide Accepts;
    assert "f" !in m.processed && "r" !in m.processed;
    hide MarksUnused;
    FailingMove(m, plan.body.probes[n], failed.event);
    RollbackMove(Step(m, failed), Event("r", RollbackFailed, "", "", "", start));
    hide Next;
    hide ProbeEvent;
    Advance(m, failed);
    Advance(Step(m, failed), Call(Event("r", RollbackFailed, "", "", "", start), 5 + n));
  }

  lemma BoundAttained(plan: Plan, start: Time)
    requires IsCanonical(plan) && start != ZERO_TIME
    ensures exists calls :: |AcceptedCalls(Start(plan, start), calls)| == |plan.body.probes| + 4
  {
    CanonicalPlanReady(plan);
    hide *;
    var calls := LongRun(plan, start);
  }

  lemma ReadyCounts(plan: Plan)
    requires PlanReady(plan)
    ensures PlanFacts(plan) && 1 <= |plan.body.probes| <= MAX_PROBES
  {
  }

  /** A change whose last probe fails and whose rollback fails uses them all up. */
  lemma LongRun(plan: Plan, start: Time) returns (calls: seq<Call>)
    requires PlanReady(plan) && start != ZERO_TIME
    ensures |AcceptedCalls(Start(plan, start), calls)| == |plan.body.probes| + 4
  {
    var probes := plan.body.probes;
    ReadyCounts(plan);
    hide *;
    var m0 := Start(plan, start);
    calls := Opening(plan, start);
    var k := 0;
    while k + 1 < |probes|
      invariant k < |probes|
      invariant Underway(Run(m0, calls), plan, start, Probing, 3 + k, k)
      invariant |AcceptedCalls(m0, calls)| == 3 + k
    {
      NextProbe(Run(m0, calls), plan, start, k);
      var c := Call(ProbeEvent(Mark(k + 1), ProbePassed, probes[k], start), 4 + k);
      Extend(m0, calls, c);
      calls := calls + [c];
      k := k + 1;
    }
    Closing(Run(m0, calls), plan, start, k);
    var failed := Call(ProbeEvent("f", ProbeFailed, probes[k], start), 4 + k);
    var lost := Call(Event("r", RollbackFailed, "", "", "", start), 5 + k);
    Extend(m0, calls, failed);
    Extend(m0, calls + [failed], lost);
    calls := calls + [failed] + [lost];
  }

  // ----- the slowest run -----

  lemma {:induction false} PromptLast(m: Machine, calls: seq<Call>, c: Call, d: nat)
    requires Prompt(m, calls, d)
    requires c.event.kind.PhaseTimedOut? ==> c.event.at <= Run(m, calls).snapshot.deadline + d
    ensures Prompt(m, calls + [c], d)
    decreases |calls|
  {
    hide Accepts;
    hide Step;
    if calls == [] {
      assert (calls + [c])[1..] == [];
    } else {
      assert (calls + [c])[0] == calls[0] && (calls + [c])[1..] == calls[1..] + [c];
      PromptLast(Step(m, calls[0]), calls[1..], c, d);
    }
  }

  /** Where a machine is on the clock, `events` accepted events into its run. */
  ghost predicate Stands(m: Machine, plan: Plan, state: State, events: nat, updatedAt: Time, deadline: Time)
  {
    && m.plan == plan && m.State() == state && m.snapshot.version == 1 + events
    && m.snapshot.updatedAt == updatedAt && m.snapshot.deadline == deadline
  }

  /** A valid, fresh and timely event that leads somewhere is accepted. */
  lemma Proceeds(m: Machine, c: Call)
    requires ValidEvent(c.event) && c.event.id !in m.processed && c.expectedVersion == m.snapshot.version <= MAX_PROBES + 4
    requires !m.State().Terminal() && Timely(m.snapshot, c.event) && Next(m, c.event).Move?
    ensures Accepts(m, c)
    ensures var s := Next(m, c.event).snapshot;
            Stands(Step(m, c), m.plan, s.state, m.snapshot.version, c.event.at, s.deadline)
    ensures Step(m, c).processed.Keys == m.processed.Keys + {c.event.id}
  {
    NextKeepsIdentity(m, c.event);
    hide ValidEvent;
    hide Next;
    IncrementIsExact(m.snapshot.version);
  }

  /** Snapshot and preflight on their deadlines, then two timeouts `d` late. */
  function SlowCalls(t: TimeoutPolicy, start: Time, d: nat): seq<Call>
  {
    var t1 := start + t.snapshot;
    var t2 := t1 + t.preflight;
    var t3 := t2 + t.applyWindow + d;
    [Call(captured.(at := t1), 1), Call(prepared.(at := t2), 2), Call(Event("a", PhaseTimedOut, "", "", "", t3), 3),
     Call(Event("b", PhaseTimedOut, "", "", "", t3 + t.rollback + d), 4)]
  }

  lemma SlowCallsValid(t: TimeoutPolicy, start: Time, d: nat)
    requires TimeoutsOk(t) && start > ZERO_TIME
    ensures forall i | 0 <= i < 4 :: ValidEvent(SlowCalls(t, start, d)[i].event)
  {
    LetterIsIdentifier("s");
    LetterIsIdentifier("p");
    LetterIsIdentifier("a");
    LetterIsIdentifier("b");
    hide IsNormalizable;
  }

  lemma SlowSteps(plan: Plan, start: Time, d: nat)
    requires PlanFacts(plan) && start > ZERO_TIME
    ensures var t := plan.body.timeouts;
            var c := SlowCalls(t, start, d);
            var m0 := Start(plan, start);
            var m1 := Step(m0, c[0]);
            var m2 := Step(m1, c[1]);
            var m3 := Step(m2, c[2]);
            && Accepts(m0, c[0]) && Accepts(m1, c[1]) && Accepts(m2, c[2]) && Accepts(m3, c[3])
            && m2.snapshot.deadline + d == c[2].event.at && m3.snapshot.deadline + d == c[3].event.at
            && Step(m3, c[3]).State().FailedClosed? && Step(m3, c[3]).snapshot.updatedAt == EndLimit(plan, start, d)
  {
    var t := plan.body.timeouts;
    SlowCallsValid(t, start, d);
    hide ValidEvent;
    hide Accepts;
    hide Step;
    hide Machine.HasProbe;
    var c := SlowCalls(t, start, d);
    var m0 := Start(plan, start);
    Proceeds(m0, c[0]);
    var m1 := Step(m0, c[0]);
    Proceeds(m1, c[1]);
    var m2 := Step(m1, c[1]);
    Proceeds(m2, c[2]);
    var m3 := Step(m2, c[2]);
    Proceeds(m3, c[3]);
  }

  /** The time limit is exact: for every plan and delay some run with timeouts that
      late ends right on it. */
  lemma LimitAttained(plan: Plan, start: Time, d: nat)
    requires IsCanonical(plan) && start > ZERO_TIME
    ensures exists calls :: && Prompt(Start(plan, start), calls, d)
                            && Run(Start(plan, start), calls).State().FailedClosed?
                            && Run(Start(plan, start), calls).snapshot.updatedAt == EndLimit(plan, start, d)
  {
    hide *;
    CanonicalPlanFacts(plan);
    var calls := SlowRun(plan, start, d);
  }

  lemma SlowShape(plan: Plan, start: Time, d: nat)
    ensures var c := SlowCalls(plan.body.timeouts, start, d);
            |c| == 4 && !c[0].event.kind.PhaseTimedOut? && !c[1].event.kind.PhaseTimedOut?
    ensures Run(Start(plan, start), []) == Start(plan, start) && Prompt(Start(plan, start), [], d)
  {
  }

  lemma SlowRun(plan: Plan, start: Time, d: nat) returns (calls: seq<Call>)
    requires PlanFacts(plan) && start > ZERO_TIME
    ensures Prompt(Start(plan, start), calls, d) && Run(Start(plan, start), calls).State().FailedClosed?
    ensures Run(Start(plan, start), calls).snapshot.updatedAt == EndLimit(plan, start, d)
  {
    hide *;
    var m0, c := Start(plan, start), SlowCalls(plan.body.timeouts, start, d);
    SlowShape(plan, start, d);
    SlowSteps(plan, start, d);
    calls := [];
    for k := 0 to 4
      invariant Prompt(m0, calls, d)
      invariant k == 0 ==> Run(m0, calls) == m0
      invariant k == 1 ==> Run(m0, calls) == Step(m0, c[0])
      invariant k == 2 ==> Run(m0, calls) == Step(Step(m0, c[0]), c[1])
      invariant k == 3 ==> Run(m0, calls) == Step(Step(Step(m0, c[0]), c[1]), c[2])
      invariant k == 4 ==> Run(m0, calls) == Step(Step(Step(Step(m0, c[0]), c[1]), c[2]), c[3])
    {
      Extend(m0, calls, c[k]);
      PromptLast(m0, calls, c[k], d);
      calls := calls + [c[k]];
    }
  }
}
