/** What a run leaves in the state: every planner's plan, and every executor's outcome under its own step. */
module Recording {
  import opened Text
  import Lists
  import opened PlanState
  import opened PlanExecute
  import opened Durable

  // ----- Outcomes -----

  /** The execution of the step has exactly the status, result, error and evidence of the outcome. */
  predicate Tells(e: StepExecution, key: Key, o: Outcome) {
    && e.revision == key.0 && e.stepId == key.1
    && e.status == (if o.completed then Completed else Failed)
    && e.result == o.result && e.error == o.error && e.evidence == o.evidence
  }

  /** The one execution of the step that the state holds tells the outcome. */
  predicate Holds(es: seq<StepExecution>, key: Key, o: Outcome) {
    Find(es, key).Some? && Tells(Find(es, key).value, key, o)
  }

  predicate Settled(es: seq<StepExecution>, key: Key) {
    HasStatus(es, key, Completed) || HasStatus(es, key, Failed)
  }

  /** No step that is settled is executed next. */
  lemma NextIsNotSettled(s: AgentState)
    requires ValidState(s) && NextStep(s).Some? && !HasFailed(s)
    ensures !Settled(s.executions, NextStep(s).value)
  {
    NextStepOf(s, FirstOpen(Latest(s), s.executions, 0));
  }

  lemma OutcomeIsHeld(s: AgentState, key: Key, o: Outcome, other: Key)
    requires ValidState(s)
    ensures var es := Put(s.executions, Execution(key, o));
      && Holds(es, key, o) && Settled(es, key)
      && (other != key ==> Find(es, other) == Find(s.executions, other))
  {
    FindAfterPut(s.executions, Execution(key, o), key);
    FindAfterPut(s.executions, Execution(key, o), other);
  }

  // ----- Runs -----

  /** The planner is asked next, unless the third revision has failed. */
  ghost predicate Planning(s: AgentState) {
    s.plans == [] || HasFailed(s)
  }

  /** A run that does not raise: it ends here, or plans, or executes a step, and goes on from the new state. */
  lemma RunCases(s: AgentState, pc: nat, ec: nat, planner: Planner, executor: Executor, run: Trace)
    returns (t: AgentState, rest: Trace)
    requires ValidState(s) && run == RunFrom(s, pc, ec, planner, executor) && !run.ending.RaisedRun?
    ensures ValidState(t)
    ensures run.planCalls == [] && run.stepCalls == [] ==> run.ending.state == s
    ensures run.planCalls != [] || run.stepCalls != [] ==>
      if Planning(s) then
        && planner(pc).Planned? && t == s.(plans := s.plans + [planner(pc).plan])
        && rest == RunFrom(t, pc + 1, ec, planner, executor)
        && run == Trace(rest.ending, [s] + rest.planCalls, rest.stepCalls)
      else
        && NextStep(s).Some? && executor(ec).Executed?
        && t == s.(executions := Put(s.executions, Execution(NextStep(s).value, executor(ec).outcome)))
        && rest == RunFrom(t, pc, ec + 1, planner, executor)
        && run == Trace(rest.ending, rest.planCalls, [NextStep(s).value] + rest.stepCalls)
  {
    t, rest := s, run;
    if Planning(s) {
      if planner(pc).Planned? && WithPlan(s, planner(pc).plan).Some? {
        t := WithPlan(s, planner(pc).plan).value;
        rest := RunFrom(t, pc + 1, ec, planner, executor);
      }
    } else if NextStep(s).Some? && executor(ec).Executed? {
      var next := WithExecution(s, Execution(NextStep(s).value, executor(ec).outcome));
      if next.Some? {
        t := next.value;
        rest := RunFrom(t, pc, ec + 1, planner, executor);
      }
    }
  }

  /** A step that is settled is never executed again in a run, and its execution stays what it is. */
  lemma {:induction false} SettledStays(s: AgentState, pc: nat, ec: nat, planner: Planner, executor: Executor,
                                        run: Trace, key: Key)
    requires ValidState(s) && run == RunFrom(s, pc, ec, planner, executor) && !run.ending.RaisedRun?
    requires Settled(s.executions, key)
    ensures key !in run.stepCalls && Find(run.ending.state.executions, key) == Find(s.executions, key)
    decreases |run.planCalls| + |run.stepCalls|
  {
    var t, rest := RunCases(s, pc, ec, planner, executor, run);
    if run.planCalls != [] || run.stepCalls != [] {
      if Planning(s) {
        SettledStays(t, pc + 1, ec, planner, executor, rest, key);
      } else {
        NextIsNotSettled(s);
        OutcomeIsHeld(s, NextStep(s).value, executor(ec).outcome, key);
        SettledStays(t, pc, ec + 1, planner, executor, rest, key);
      }
    }
  }

  /** The end state holds what the i-th executor call of the run reported. */
  ghost predicate Recorded(run: Trace, ec: nat, executor: Executor, i: nat)
    requires i < |run.stepCalls| && !run.ending.RaisedRun?
  {
    executor(ec + i).Executed? && Holds(run.ending.state.executions, run.stepCalls[i], executor(ec + i).outcome)
  }

  lemma RecordedLater(run: Trace, rest: Trace, key: Key, ec: nat, executor: Executor, i: nat)
    requires 0 < i < |run.stepCalls| && !run.ending.RaisedRun? && rest.ending == run.ending
    requires run.stepCalls == [key] + rest.stepCalls && Recorded(rest, ec + 1, executor, i - 1)
    ensures Recorded(run, ec, executor, i)
  {
    assert ec + 1 + (i - 1) == ec + i;
  }

  lemma RecordedFirst(run: Trace, es: seq<StepExecution>, key: Key, ec: nat, executor: Executor)
    requires run.stepCalls != [] && run.stepCalls[0] == key && !run.ending.RaisedRun? && executor(ec).Executed?
    requires Holds(es, key, executor(ec).outcome) && Find(run.ending.state.executions, key) == Find(es, key)
    ensures Recorded(run, ec, executor, 0)
  {
  }

  /** What `Recorded` says of all calls */
  ghost predicate AllRecorded(run: Trace, ec: nat, executor: Executor) {
    !run.ending.RaisedRun? && forall i: nat | i < |run.stepCalls| :: Recorded(run, ec, executor, i)
  }

  lemma AllRecordedCons(run: Trace, rest: Trace, es: seq<StepExecution>, key: Key, ec: nat, executor: Executor)
    requires AllRecorded(rest, ec + 1, executor)
    requires run.ending == rest.ending && run.stepCalls == [key] + rest.stepCalls && executor(ec).Executed?
    requires Holds(es, key, executor(ec).outcome) && Find(run.ending.state.executions, key) == Find(es, key)
    ensures AllRecorded(run, ec, executor)
  {
    forall i: nat | i < |run.stepCalls|
      ensures Recorded(run, ec, executor, i)
    {
      if i == 0 {
        RecordedFirst(run, es, key, ec, executor);
      } else {
        assert Recorded(rest, ec + 1, executor, i - 1);
        RecordedLater(run, rest, key, ec, executor, i);
      }
    }
  }

  lemma AllRecordedSame(run: Trace, rest: Trace, ec: nat, executor: Executor)
    requires AllRecorded(rest, ec, executor) && run.ending == rest.ending && run.stepCalls == rest.stepCalls
    ensures AllRecorded(run, ec, executor)
  {
    forall i: nat | i < |run.stepCalls|
      ensures Recorded(run, ec, executor, i)
    {
      assert Recorded(rest, ec, executor, i);
    }
  }

  /** For every executor call of a run that does not raise, the end state holds exactly one execution of its step, with
      the status, result, error and evidence of that call's outcome. */
  lemma {:induction false} RunRecords(s: AgentState, pc: nat, ec: nat, planner: Planner, executor: Executor, run: Trace)
    requires ValidState(s) && run == RunFrom(s, pc, ec, planner, executor) && !run.ending.RaisedRun?
    ensures AllRecorded(run, ec, executor)
    decreases |run.planCalls| + |run.stepCalls|
  {
    var t, rest := RunCases(s, pc, ec, planner, executor, run);
    if run.planCalls != [] || run.stepCalls != [] {
      if Planning(s) {
        RunRecords(t, pc + 1, ec, planner, executor, rest);
        AllRecordedSame(run, rest, ec, executor);
      } else {
        var key := NextStep(s).value;
        RunRecords(t, pc, ec + 1, planner, executor, rest);
        OutcomeIsHeld(s, key, executor(ec).outcome, key);
        SettledStays(t, pc, ec + 1, planner, executor, rest, key);
        AllRecordedCons(run, rest, t.executions, key, ec, executor);
      }
    }
  }

  lemma NewFirst<T>(first: T, rest: seq<T>)
    requires first !in rest && Lists.NoDuplicates(rest)
    ensures Lists.NoDuplicates([first] + rest)
  {
  }

  /** Every step is executed at most once. */
  lemma {:induction false} StepsOnce(s: AgentState, pc: nat, ec: nat, planner: Planner, executor: Executor, run: Trace)
    requires ValidState(s) && run == RunFrom(s, pc, ec, planner, executor) && !run.ending.RaisedRun?
    ensures Lists.NoDuplicates(run.stepCalls)
    decreases |run.planCalls| + |run.stepCalls|
  {
    var t, rest := RunCases(s, pc, ec, planner, executor, run);
    if run.planCalls != [] || run.stepCalls != [] {
      if Planning(s) {
        StepsOnce(t, pc + 1, ec, planner, executor, rest);
      } else {
        var key := NextStep(s).value;
        OutcomeIsHeld(s, key, executor(ec).outcome, key);
        SettledStays(t, pc, ec + 1, planner, executor, rest, key);
        StepsOnce(t, pc, ec + 1, planner, executor, rest);
        NewFirst(key, rest.stepCalls);
      }
    }
  }

  /** The executions of all other steps stay what they were. */
  lemma {:induction false} OthersStay(s: AgentState, pc: nat, ec: nat, planner: Planner, executor: Executor,
                                      run: Trace, key: Key)
    requires ValidState(s) && run == RunFrom(s, pc, ec, planner, executor) && !run.ending.RaisedRun?
    requires key !in run.stepCalls
    ensures Find(run.ending.state.executions, key) == Find(s.executions, key)
    decreases |run.planCalls| + |run.stepCalls|
  {
    var t, rest := RunCases(s, pc, ec, planner, executor, run);
    if run.planCalls != [] || run.stepCalls != [] {
      if Planning(s) {
        OthersStay(t, pc + 1, ec, planner, executor, rest, key);
      } else {
        assert run.stepCalls[0] == NextStep(s).value && run.stepCalls[1..] == rest.stepCalls;
        OutcomeIsHeld(s, NextStep(s).value, executor(ec).outcome, key);
        OthersStay(t, pc, ec + 1, planner, executor, rest, key);
      }
    }
  }

  /** The planner was called on the plans so far, and its plan comes next. */
  ghost predicate Planned(plans: seq<Plan>, n: nat, called: AgentState, reply: PlanReply) {
    n < |plans| && reply == PlanReply.Planned(plans[n]) && called.plans == plans[..n]
  }

  ghost predicate AllPlanned(plans: seq<Plan>, n: nat, calls: seq<AgentState>, pc: nat, planner: Planner) {
    forall i: nat | i < |calls| :: Planned(plans, n + i, calls[i], planner(pc + i))
  }

  lemma AllPlannedCons(plans: seq<Plan>, n: nat, s: AgentState, calls: seq<AgentState>, pc: nat, planner: Planner)
    requires Planned(plans, n, s, planner(pc)) && AllPlanned(plans, n + 1, calls, pc + 1, planner)
    ensures AllPlanned(plans, n, [s] + calls, pc, planner)
  {
    forall i: nat | i < |[s] + calls|
      ensures Planned(plans, n + i, ([s] + calls)[i], planner(pc + i))
    {
      if i > 0 {
        assert Planned(plans, n + 1 + (i - 1), calls[i - 1], planner(pc + 1 + (i - 1)));
      }
    }
  }

  /** The end state has the plans of the start and then, for each planner call, the plan that it returned; it was called
      on the plans before that one.  Goal and summary stay. */
  ghost predicate AddsPlans(s: AgentState, t: AgentState, calls: seq<AgentState>, pc: nat, planner: Planner) {
    && t.goal == s.goal && t.summary == s.summary
    && s.plans <= t.plans && |t.plans| == |s.plans| + |calls|
    && AllPlanned(t.plans, |s.plans|, calls, pc, planner)
  }

  lemma AddsPlan(s: AgentState, p: Plan, t: AgentState, calls: seq<AgentState>, pc: nat, planner: Planner)
    requires planner(pc) == PlanReply.Planned(p)
    requires AddsPlans(s.(plans := s.plans + [p]), t, calls, pc + 1, planner)
    ensures AddsPlans(s, t, [s] + calls, pc, planner)
  {
    var plans := s.plans + [p];
    assert plans[..|s.plans|] == s.plans && t.plans[..|plans|] == plans;
    assert t.plans[..|s.plans|] == plans[..|s.plans|];
    assert Planned(t.plans, |s.plans|, s, planner(pc));
    AllPlannedCons(t.plans, |s.plans|, s, calls, pc, planner);
  }

  lemma AddsNone(s: AgentState, es: seq<StepExecution>, t: AgentState, calls: seq<AgentState>, pc: nat,
                 planner: Planner)
    requires AddsPlans(s.(executions := es), t, calls, pc, planner)
    ensures AddsPlans(s, t, calls, pc, planner)
  {
  }

  lemma {:induction false} RunAddsPlans(s: AgentState, pc: nat, ec: nat, planner: Planner, executor: Executor,
                                        run: Trace)
    requires ValidState(s) && run == RunFrom(s, pc, ec, planner, executor) && !run.ending.RaisedRun?
    ensures AddsPlans(s, run.ending.state, run.planCalls, pc, planner)
    decreases |run.planCalls| + |run.stepCalls|
  {
    var t, rest := RunCases(s, pc, ec, planner, executor, run);
    if run.planCalls != [] || run.stepCalls != [] {
      if Planning(s) {
        RunAddsPlans(t, pc + 1, ec, planner, executor, rest);
        AddsPlan(s, planner(pc).plan, rest.ending.state, rest.planCalls, pc, planner);
      } else {
        RunAddsPlans(t, pc, ec + 1, planner, executor, rest);
        AddsNone(s, t.executions, rest.ending.state, rest.planCalls, pc, planner);
      }
    }
  }

  // ----- When a run raises -----

  /** The planner gives a valid plan for the goal, of the next revision. */
  predicate GoodPlan(s: AgentState, reply: PlanReply) {
    && reply.Planned? && ValidPlan(reply.plan)
    && reply.plan.goal == s.goal && reply.plan.revision == |s.plans| + 1
  }

  /** The executor answers, and the evidence of a completed step, if there is any, is not blank. */
  predicate GoodOutcome(reply: ExecReply) {
    && reply.Executed?
    && (reply.outcome.completed && reply.outcome.evidence.Some? ==> !Blank(reply.outcome.evidence.value))
  }

  lemma PlanIsTakenIff(s: AgentState, p: Plan)
    requires ValidState(s)
    ensures WithPlan(s, p).Some? <==> GoodPlan(s, PlanReply.Planned(p))
  {
    var t := s.(plans := s.plans + [p]);
    if WithPlan(s, p).Some? {
      assert PlanFits(t.goal, t.plans, |s.plans|);
    }
    if GoodPlan(s, PlanReply.Planned(p)) {
      forall i: nat | i < |t.plans|
        ensures PlanFits(t.goal, t.plans, i)
      {
        assert i < |s.plans| ==> PlanFits(s.goal, s.plans, i);
      }
      forall i | 0 <= i < |t.executions|
        ensures Placed(t.plans, t.executions[i])
      {
        assert Placed(s.plans, s.executions[i]);
        StepStays(s.plans, p, KeyOf(s.executions[i]));
      }
    }
  }

  lemma StepStays(plans: seq<Plan>, p: Plan, key: Key)
    requires HasStep(plans, key)
    ensures HasStep(plans + [p], key)
  {
    var i, j :| 0 <= i < |plans| && 0 <= j < |plans[i].steps| && (plans[i].revision, plans[i].steps[j].id) == key;
    assert (plans + [p])[i] == plans[i];
  }

  lemma OutcomeIsTakenIff(s: AgentState, key: Key, o: Outcome)
    requires ValidState(s) && NextStep(s) == Some(key)
    ensures WithExecution(s, Execution(key, o)).Some? <==> GoodOutcome(Executed(o))
  {
    NextStepIsPlanned(s);
    if GoodOutcome(Executed(o)) {
      PutIsValid(s, Execution(key, o));
    }
  }

  predicate PlanGood(calls: seq<AgentState>, pc: nat, planner: Planner, i: nat)
    requires i < |calls|
  {
    GoodPlan(calls[i], planner(pc + i))
  }

  predicate OutcomeGood(ec: nat, executor: Executor, i: nat) {
    GoodOutcome(executor(ec + i))
  }

  /** Every call of the run was answered well. */
  ghost predicate AllGood(run: Trace, pc: nat, ec: nat, planner: Planner, executor: Executor) {
    && (forall i: nat | i < |run.planCalls| :: PlanGood(run.planCalls, pc, planner, i))
    && forall i: nat | i < |run.stepCalls| :: OutcomeGood(ec, executor, i)
  }

  lemma AllGoodPlanCons(run: Trace, rest: Trace, s: AgentState, pc: nat, ec: nat, planner: Planner, executor: Executor)
    requires run == Trace(rest.ending, [s] + rest.planCalls, rest.stepCalls)
    ensures AllGood(run, pc, ec, planner, executor) <==>
      GoodPlan(s, planner(pc)) && AllGood(rest, pc + 1, ec, planner, executor)
  {
    var calls, more, next := run.planCalls, rest.planCalls, pc + 1;
    assert PlanGood(calls, pc, planner, 0) <==> GoodPlan(s, planner(pc));
    forall i: nat, j: nat | i < |more| && j == i + 1
      ensures PlanGood(calls, pc, planner, j) <==> PlanGood(more, next, planner, i)
    {
      assert pc + j == next + i;
    }
    if AllGood(run, pc, ec, planner, executor) {
      forall i: nat | i < |more|
        ensures PlanGood(more, next, planner, i)
      {
        assert PlanGood(calls, pc, planner, i + 1);
      }
    }
    if GoodPlan(s, planner(pc)) && AllGood(rest, pc + 1, ec, planner, executor) {
      forall i: nat | i < |calls|
        ensures PlanGood(calls, pc, planner, i)
      {
        assert i > 0 ==> PlanGood(more, next, planner, i - 1);
      }
    }
  }

  lemma AllGoodStepCons(run: Trace, rest: Trace, key: Key, pc: nat, ec: nat, planner: Planner, executor: Executor)
    requires run == Trace(rest.ending, rest.planCalls, [key] + rest.stepCalls)
    ensures AllGood(run, pc, ec, planner, executor) <==>
      GoodOutcome(executor(ec)) && AllGood(rest, pc, ec + 1, planner, executor)
  {
    var next := ec + 1;
    assert OutcomeGood(ec, executor, 0) <==> GoodOutcome(executor(ec));
    forall i: nat, j: nat | j == i + 1
      ensures OutcomeGood(ec, executor, j) <==> OutcomeGood(next, executor, i)
    {
      assert ec + j == next + i;
    }
    if AllGood(run, pc, ec, planner, executor) {
      forall i: nat | i < |rest.stepCalls|
        ensures OutcomeGood(next, executor, i)
      {
        assert OutcomeGood(ec, executor, i + 1);
      }
    }
    if GoodOutcome(executor(ec)) && AllGood(rest, pc, ec + 1, planner, executor) {
      forall i: nat | i < |run.stepCalls|
        ensures OutcomeGood(ec, executor, i)
      {
        assert i > 0 ==> OutcomeGood(next, executor, i - 1);
      }
    }
  }

  /** The next turn of any run: it ends here without a call, or a bad answer ends it, or a good one leads on. */
  lemma RunTurns(s: AgentState, pc: nat, ec: nat, planner: Planner, executor: Executor, run: Trace)
    returns (t: AgentState, rest: Trace, called: bool)
    requires ValidState(s) && run == RunFrom(s, pc, ec, planner, executor)
    ensures ValidState(t)
    ensures !called ==> !run.ending.RaisedRun? && run.planCalls == [] && run.stepCalls == []
    ensures called && Planning(s) ==>
      if GoodPlan(s, planner(pc))
      then rest == RunFrom(t, pc + 1, ec, planner, executor)
           && run == Trace(rest.ending, [s] + rest.planCalls, rest.stepCalls)
           && |t.plans| == |s.plans| + 1 && |t.plans| <= 3
      else run == Trace(RaisedRun, [s], [])
    ensures called && !Planning(s) ==>
      NextStep(s).Some? &&
      if GoodOutcome(executor(ec))
      then rest == RunFrom(t, pc, ec + 1, planner, executor)
           && run == Trace(rest.ending, rest.planCalls, [NextStep(s).value] + rest.stepCalls)
           && t.plans == s.plans && t.plans != [] && UnsettledSteps(t) < UnsettledSteps(s)
      else run == Trace(RaisedRun, [], [NextStep(s).value])
  {
    t, rest, called := s, run, true;
    if Planning(s) {
      if s.plans != [] && Latest(s).revision == 3 {
        called := false;
      } else if planner(pc).Planned? {
        PlanIsTakenIff(s, planner(pc).plan);
        if GoodPlan(s, planner(pc)) {
          t := WithPlan(s, planner(pc).plan).value;
          LatestFits(t);
          rest := RunFrom(t, pc + 1, ec, planner, executor);
        }
      }
    } else if NextStep(s).None? {
      called := false;
    } else if executor(ec).Executed? {
      var key := NextStep(s).value;
      OutcomeIsTakenIff(s, key, executor(ec).outcome);
      if GoodOutcome(executor(ec)) {
        t := WithExecution(s, Execution(key, executor(ec).outcome)).value;
        NextIsUnsettled(s);
        NextStepOf(s, FirstOpen(Latest(s), s.executions, 0));
        SettlingFalls(s, FirstOpen(Latest(s), s.executions, 0), Execution(key, executor(ec).outcome));
        rest := RunFrom(t, pc, ec + 1, planner, executor);
      }
    }
  }

  /** A run raises exactly when some planner or executor call raised or gave what the state refuses: a plan that is not
      valid, not for the goal or not of the next revision, or a completed step with blank evidence. */
  lemma {:induction false} RaisesIff(s: AgentState, pc: nat, ec: nat, planner: Planner, executor: Executor, run: Trace)
    requires ValidState(s) && run == RunFrom(s, pc, ec, planner, executor)
    ensures run.ending.RaisedRun? <==> !AllGood(run, pc, ec, planner, executor)
    decreases 3 - |s.plans|, if s.plans == [] then {} else UnsettledSteps(s)
  {
    var t, rest, called := RunTurns(s, pc, ec, planner, executor, run);
    if called && Planning(s) {
      if GoodPlan(s, planner(pc)) {
        RaisesIff(t, pc + 1, ec, planner, executor, rest);
        AllGoodPlanCons(run, rest, s, pc, ec, planner, executor);
      } else {
        AllGoodPlanCons(run, Trace(RaisedRun, [], []), s, pc, ec, planner, executor);
      }
    } else if called {
      if GoodOutcome(executor(ec)) {
        RaisesIff(t, pc, ec + 1, planner, executor, rest);
        AllGoodStepCons(run, rest, NextStep(s).value, pc, ec, planner, executor);
      } else {
        AllGoodStepCons(run, Trace(RaisedRun, [], []), NextStep(s).value, pc, ec, planner, executor);
      }
    }
  }

  // ----- Interrupted work -----

  /** `t` is `s` with the step's execution replaced by one with this status and error, without result or evidence. */
  ghost predicate Remarked(s: AgentState, key: Key, status: PlanState.Status, error: string, t: AgentState) {
    && t.goal == s.goal && t.plans == s.plans && t.summary == s.summary && ValidState(t)
    && Find(t.executions, key) == Some(StepExecution(key.0, key.1, status, None, Some(error), None))
    && forall other | other != key :: Find(t.executions, other) == Find(s.executions, other)
  }

  /** The error that was recorded for the step, or this one when there is none */
  function ErrorOr(e: StepExecution, otherwise: string): string {
    if e.error.Some? && e.error.value != "" then e.error.value else otherwise
  }

  predicate FirstOf(es: seq<StepExecution>, status: PlanState.Status, i: nat) {
    i < |es| && es[i].status == status && forall k | 0 <= k < i :: es[k].status != status
  }

  lemma {:induction false} FirstWithIs(es: seq<StepExecution>, status: PlanState.Status, i: nat)
    requires FirstOf(es, status, i)
    ensures FirstWith(es, status) == Some(es[i])
  {
    if i > 0 {
      assert FirstOf(es[1..], status, i - 1);
      FirstWithIs(es[1..], status, i - 1);
    }
  }

  lemma MarkedState(s: AgentState, i: nat, e: StepExecution, status: PlanState.Status, error: string)
    requires ValidState(s) && i < |s.executions| && e == Marked(KeyOf(s.executions[i]), status, Some(error))
    ensures WithExecution(s, e).Some? && Remarked(s, KeyOf(e), status, error, WithExecution(s, e).value)
  {
    assert Placed(s.plans, s.executions[i]);
    PutIsValid(s, e);
    forall key
      ensures Find(Put(s.executions, e), key) == if key == KeyOf(e) then Some(e) else Find(s.executions, key)
    {
      FindAfterPut(s.executions, e, key);
    }
  }

  /** The first step that was running is recorded as interrupted, with its error if it had one. */
  lemma StaleIs(s: AgentState, i: nat)
    requires ValidState(s) && FirstOf(s.executions, Running, i)
    ensures var e := s.executions[i];
      MarkStale(s).Some?
      && Remarked(s, KeyOf(e), Interrupted, ErrorOr(e, "Step execution was interrupted before recovery"),
                  MarkStale(s).value)
  {
    FirstWithIs(s.executions, Running, i);
    MarkedState(s, i, Interruption(s.executions[i]), Interrupted, ErrorOr(s.executions[i], INTERRUPTION));
  }

  /** With no step running, a decision fails the first interrupted step with its error, or gives up; anything else is
      refused. */
  lemma DecisionIs(s: AgentState, i: nat)
    requires ValidState(s) && FirstOf(s.executions, Interrupted, i)
    requires forall k | 0 <= k < |s.executions| :: s.executions[k].status != Running
    ensures ApplyRecoveryDecision(s, Some(FailStep)).Proceed?
    ensures var e := s.executions[i];
      Remarked(s, KeyOf(e), Failed, ErrorOr(e, "Step execution was interrupted"),
               ApplyRecoveryDecision(s, Some(FailStep)).state)
    ensures ApplyRecoveryDecision(s, Some(AbortRun)) == GiveUp(s)
    ensures ApplyRecoveryDecision(s, None) == Refuse && ApplyRecoveryDecision(s, Some(UnknownDecision)) == Refuse
  {
    FirstWithFinds(s.executions, Running);
    FirstWithIs(s.executions, Interrupted, i);
    MarkedState(s, i, Abandonment(s.executions[i]), Failed, ErrorOr(s.executions[i], ABANDONED));
  }

  /** A decision is made on the state in which the running step is marked as interrupted. */
  lemma DecisionFollowsMarking(s: AgentState, stale: AgentState, recovery: Option<RecoveryDecision>)
    requires ValidState(s) && MarkStale(s) == Some(stale)
    requires forall k | 0 <= k < |stale.executions| :: stale.executions[k].status != Running
    ensures ApplyRecoveryDecision(s, recovery) == ApplyRecoveryDecision(stale, recovery)
  {
    FirstWithFinds(stale.executions, Running);
  }
}
