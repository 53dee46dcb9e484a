/** One serial Plan–Execute run: a reference definition, and the coordinator loop. */
module PlanExecute {
  import opened Text
  import opened PlanState

  /** What a finished step hands over */
  datatype ContextUpdate = ContextUpdate(filesRead: seq<string>, filesModified: seq<string>, observations: seq<string>)

  /** What the step executor reports; `update` belongs to completed outcomes. */
  datatype Outcome = Outcome(
    completed: bool, result: Option<string>, error: Option<string>, evidence: Option<string>, update: ContextUpdate)

  datatype PlanReply = PlanRaises | Planned(plan: Plan)
  datatype ExecReply = ExecRaises | Executed(outcome: Outcome)

  /** Planner and executor, by call number */
  type Planner = nat -> PlanReply
  type Executor = nat -> ExecReply

  datatype Ending = CompletedRun(state: AgentState) | BlockedRun(state: AgentState) | RaisedRun

  /** How a run ends, the states the planner was called on and the steps that were executed */
  datatype Trace = Trace(ending: Ending, planCalls: seq<AgentState>, stepCalls: seq<Key>)

  function Execution(key: Key, o: Outcome): StepExecution {
    StepExecution(key.0, key.1, if o.completed then Completed else Failed, o.result, o.error, o.evidence)
  }

  function Latest(s: AgentState): Plan
    requires s.plans != []
  {
    s.plans[|s.plans| - 1]
  }

  function StepKey(p: Plan, i: nat): Key
    requires i < |p.steps|
  {
    (p.revision, p.steps[i].id)
  }

  /** First step of `p` at or after `i` that is not completed */
  function FirstOpen(p: Plan, es: seq<StepExecution>, i: nat): (r: nat)
    requires i <= |p.steps|
    ensures i <= r <= |p.steps|
    decreases |p.steps| - i
  {
    if i == |p.steps| then i
    else
      var e := Find(es, StepKey(p, i));
      if e.Some? && e.value.status == Completed then FirstOpen(p, es, i + 1) else i
  }

  function NextStep(s: AgentState): Option<Key> {
    if s.plans == [] then None
    else
      var p := Latest(s);
      var i := FirstOpen(p, s.executions, 0);
      if i == |p.steps| then None else Some(StepKey(p, i))
  }

  predicate AnyFailed(p: Plan, es: seq<StepExecution>) {
    exists i: nat | i < |p.steps| :: HasStatus(es, StepKey(p, i), Failed)
  }

  predicate HasFailed(s: AgentState) {
    s.plans != [] && AnyFailed(Latest(s), s.executions)
  }

  /** Steps of the latest plan that have neither completed nor failed */
  function UnsettledSteps(s: AgentState): set<nat>
    requires s.plans != []
  {
    set i: nat | i < |Latest(s).steps|
      && !HasStatus(s.executions, StepKey(Latest(s), i), Completed)
      && !HasStatus(s.executions, StepKey(Latest(s), i), Failed)
  }

  lemma FirstOpenIs(p: Plan, es: seq<StepExecution>, i: nat)
    requires i <= |p.steps|
    ensures var r := FirstOpen(p, es, i);
      && (forall k: nat | i <= k < r ::
            Find(es, StepKey(p, k)).Some? && Find(es, StepKey(p, k)).value.status == Completed)
      && (r < |p.steps| ==> Find(es, StepKey(p, r)).None? || Find(es, StepKey(p, r)).value.status != Completed)
    decreases |p.steps| - i
  {
    if i < |p.steps| {
      var e := Find(es, StepKey(p, i));
      if e.Some? && e.value.status == Completed {
        FirstOpenIs(p, es, i + 1);
      }
    }
  }

  lemma StatusAfterPut(es: seq<StepExecution>, e: StepExecution, key: Key, status: Status)
    requires UniqueKeys(es)
    ensures HasStatus(Put(es, e), key, status)
      <==> if key == KeyOf(e) then e.status == status else HasStatus(es, key, status)
  {
    FindAfterPut(es, e, key);
  }

  /** All steps of `p` before `i` are completed. */
  predicate CompletedUpTo(p: Plan, es: seq<StepExecution>, i: nat)
    requires i <= |p.steps|
  {
    forall k: nat | k < i :: HasStatus(es, StepKey(p, k), Completed)
  }

  lemma CompletedExtends(p: Plan, es: seq<StepExecution>, i: nat)
    requires i < |p.steps| && CompletedUpTo(p, es, i) && HasStatus(es, StepKey(p, i), Completed)
    ensures CompletedUpTo(p, es, i + 1)
  {
  }

  lemma NextStepIs(s: AgentState, i: nat)
    requires s.plans != [] && i <= |Latest(s).steps| && CompletedUpTo(Latest(s), s.executions, i)
    requires i < |Latest(s).steps| ==> !HasStatus(s.executions, StepKey(Latest(s), i), Completed)
    ensures NextStep(s) == if i == |Latest(s).steps| then None else Some(StepKey(Latest(s), i))
  {
    FirstOpenIs(Latest(s), s.executions, 0);
  }

  lemma SettlingFalls(s: AgentState, i: nat, e: StepExecution)
    requires ValidState(s) && s.plans != [] && i in UnsettledSteps(s)
    requires KeyOf(e) == StepKey(Latest(s), i) && (e.status == Completed || e.status == Failed)
    ensures UnsettledSteps(s.(executions := Put(s.executions, e))) < UnsettledSteps(s)
  {
    var t := s.(executions := Put(s.executions, e));
    forall k | k in UnsettledSteps(t)
      ensures k in UnsettledSteps(s) && k != i
    {
      StatusAfterPut(s.executions, e, StepKey(Latest(s), k), Completed);
      StatusAfterPut(s.executions, e, StepKey(Latest(s), k), Failed);
    }
  }

  lemma NextIsUnsettled(s: AgentState)
    requires ValidState(s) && NextStep(s).Some? && !HasFailed(s)
    ensures FirstOpen(Latest(s), s.executions, 0) in UnsettledSteps(s)
  {
    FirstOpenIs(Latest(s), s.executions, 0);
  }

  /** Reference definition: plan when there is no plan or a step has failed, give up after the
      third revision, otherwise execute the first step that is not completed. */
  ghost function RunFrom(s: AgentState, pc: nat, ec: nat, planner: Planner, executor: Executor): Trace
    requires ValidState(s)
    decreases 3 - |s.plans|, if s.plans == [] then {} else UnsettledSteps(s)
  {
    if s.plans == [] || HasFailed(s) then
      if s.plans != [] && Latest(s).revision == 3 then Trace(BlockedRun(s), [], [])
      else
        match planner(pc)
        case PlanRaises => Trace(RaisedRun, [s], [])
        case Planned(p) =>
          match WithPlan(s, p)
          case None => Trace(RaisedRun, [s], [])
          case Some(t) =>
            LatestFits(t);
            var rest := RunFrom(t, pc + 1, ec, planner, executor);
            rest.(planCalls := [s] + rest.planCalls)
    else
      match NextStep(s)
      case None => Trace(CompletedRun(s), [], [])
      case Some(key) =>
        match executor(ec)
        case ExecRaises => Trace(RaisedRun, [], [key])
        case Executed(o) =>
          match WithExecution(s, Execution(key, o))
          case None => Trace(RaisedRun, [], [key])
          case Some(t) =>
            NextIsUnsettled(s);
            SettlingFalls(s, FirstOpen(Latest(s), s.executions, 0), Execution(key, o));
            var rest := RunFrom(t, pc, ec + 1, planner, executor);
            rest.(stepCalls := [key] + rest.stepCalls)
  }

  /** `so far` followed by the rest of a run */
  function After(planCalls: seq<AgentState>, stepCalls: seq<Key>, rest: Trace): Trace {
    Trace(rest.ending, planCalls + rest.planCalls, stepCalls + rest.stepCalls)
  }

  lemma ExecutedStatus(p: Plan, es: seq<StepExecution>, i: nat, e: StepExecution, k: nat, status: Status)
    requires ValidPlan(p) && UniqueKeys(es) && i < |p.steps| && k < |p.steps| && KeyOf(e) == StepKey(p, i)
    ensures HasStatus(Put(es, e), StepKey(p, k), status)
      == if k == i then e.status == status else HasStatus(es, StepKey(p, k), status)
  {
    StatusAfterPut(es, e, StepKey(p, k), status);
  }

  /** What settling the first open step leaves behind */
  lemma ExecutedStatuses(p: Plan, es: seq<StepExecution>, i: nat, e: StepExecution)
    requires ValidPlan(p) && UniqueKeys(es) && i < |p.steps| && CompletedUpTo(p, es, i) && !AnyFailed(p, es)
    requires KeyOf(e) == StepKey(p, i) && (e.status == Completed || e.status == Failed)
    ensures AnyFailed(p, Put(es, e)) == (e.status == Failed)
    ensures e.status == Completed ==> CompletedUpTo(p, Put(es, e), i + 1)
  {
    ExecutedStatus(p, es, i, e, i, e.status);
    if e.status == Completed {
      forall k: nat | k < |p.steps|
        ensures k < i + 1 ==> HasStatus(Put(es, e), StepKey(p, k), Completed)
        ensures !HasStatus(Put(es, e), StepKey(p, k), Failed)
      {
        ExecutedStatus(p, es, i, e, k, Completed);
        ExecutedStatus(p, es, i, e, k, Failed);
      }
    }
  }

  lemma RunExecutes(s: AgentState, i: nat, pc: nat, ec: nat, planner: Planner, executor: Executor)
    requires ValidState(s) && s.plans != [] && i < |Latest(s).steps|
    requires CompletedUpTo(Latest(s), s.executions, i) && !HasFailed(s)
    requires !HasStatus(s.executions, StepKey(Latest(s), i), Completed)
    ensures var key := StepKey(Latest(s), i);
      var step := if executor(ec).ExecRaises? then None else WithExecution(s, Execution(key, executor(ec).outcome));
      RunFrom(s, pc, ec, planner, executor) ==
        if step.None? then Trace(RaisedRun, [], [key])
        else After([], [key], RunFrom(step.value, pc, ec + 1, planner, executor))
  {
    NextStepIs(s, i);
  }

  lemma RunPlans(s: AgentState, pc: nat, ec: nat, planner: Planner, executor: Executor)
    requires ValidState(s) && (s.plans == [] || (HasFailed(s) && Latest(s).revision != 3))
    ensures var step := if planner(pc).PlanRaises? then None else WithPlan(s, planner(pc).plan);
      RunFrom(s, pc, ec, planner, executor) ==
        if step.None? then Trace(RaisedRun, [s], [])
        else After([s], [], RunFrom(step.value, pc + 1, ec, planner, executor))
  {
  }

  lemma RunCompletes(s: AgentState, pc: nat, ec: nat, planner: Planner, executor: Executor)
    requires ValidState(s) && s.plans != []
    requires CompletedUpTo(Latest(s), s.executions, |Latest(s).steps|) && !HasFailed(s)
    ensures RunFrom(s, pc, ec, planner, executor) == Trace(CompletedRun(s), [], [])
  {
    NextStepIs(s, |Latest(s).steps|);
  }

  lemma PlansAreBounded(s: AgentState)
    requires ValidState(s)
    ensures |s.plans| <= 3
  {
    if s.plans != [] {
      LatestFits(s);
    }
  }

  lemma AfterSteps(ps: seq<AgentState>, ks: seq<Key>, more: seq<Key>, rest: Trace)
    ensures After(ps, ks, After([], more, rest)) == After(ps, ks + more, rest)
  {
    assert ps + ([] + rest.planCalls) == ps + rest.planCalls;
    assert ks + (more + rest.stepCalls) == ks + more + rest.stepCalls;
  }

  lemma AfterPlan(ps: seq<AgentState>, ks: seq<Key>, s: AgentState, rest: Trace)
    ensures After(ps, ks, After([s], [], rest)) == After(ps + [s], ks, rest)
  {
    assert ps + ([s] + rest.planCalls) == ps + [s] + rest.planCalls;
    assert ks + ([] + rest.stepCalls) == ks + rest.stepCalls;
  }

  lemma StateTaken(s: AgentState, i: nat, o: Outcome, t: AgentState)
    requires ValidState(s) && s.plans != [] && i < |Latest(s).steps|
    requires CompletedUpTo(Latest(s), s.executions, i) && !HasFailed(s)
    requires WithExecution(s, Execution(StepKey(Latest(s), i), o)) == Some(t)
    ensures ValidState(t) && t.plans == s.plans
    ensures AnyFailed(Latest(s), t.executions) == !o.completed
    ensures o.completed ==> CompletedUpTo(Latest(s), t.executions, i + 1)
  {
    LatestFits(s);
    ExecutedStatuses(Latest(s), s.executions, i, Execution(StepKey(Latest(s), i), o));
  }

  // ----- Interrupted work -----

  function FirstWith(es: seq<StepExecution>, status: Status): Option<StepExecution> {
    if es == [] then None
    else if es[0].status == status then Some(es[0])
    else FirstWith(es[1..], status)
  }

  lemma {:induction false} FirstWithFinds(es: seq<StepExecution>, status: Status)
    ensures var r := FirstWith(es, status);
      if r.Some? then r.value in es && r.value.status == status else forall e | e in es :: e.status != status
  {
    if es != [] && es[0].status != status {
      FirstWithFinds(es[1..], status);
      assert es == [es[0]] + es[1..];
    }
  }

  /** An execution without result or evidence */
  function Marked(key: Key, status: Status, error: Option<string>): StepExecution {
    StepExecution(key.0, key.1, status, None, error, None)
  }

  const INTERRUPTION := "Step execution was interrupted before recovery"

  function Interruption(running: StepExecution): StepExecution {
    Marked(KeyOf(running), Interrupted,
           if running.error.Some? && running.error.value != "" then running.error else Some(INTERRUPTION))
  }

  /** Uncertain work is recorded as interrupted. */
  function MarkStale(s: AgentState): Option<AgentState> {
    var running := FirstWith(s.executions, Running);
    if running.None? then Some(s) else WithExecution(s, Interruption(running.value))
  }

  datatype RecoveryDecision = FailStep | AbortRun | UnknownDecision

  /** What a recovery decision makes of a state: go on from a state, give up, or refuse with an error */
  datatype Disposition = Proceed(state: AgentState) | GiveUp(state: AgentState) | Refuse

  const ABANDONED := "Step execution was interrupted"

  function Abandonment(interrupted: StepExecution): StepExecution {
    Marked(KeyOf(interrupted), Failed,
           if interrupted.error.Some? && interrupted.error.value != "" then interrupted.error else Some(ABANDONED))
  }

  function ApplyRecoveryDecision(s: AgentState, recovery: Option<RecoveryDecision>): Disposition {
    match MarkStale(s)
    case None => Refuse
    case Some(stale) =>
      match FirstWith(stale.executions, Interrupted)
      case None => Proceed(stale)
      case Some(interrupted) =>
        if recovery == Some(AbortRun) then GiveUp(stale)
        else if recovery != Some(FailStep) then Refuse
        else
          match WithExecution(stale, Abandonment(interrupted))
          case Some(failed) => Proceed(failed)
          case None => Refuse
  }

  /** Some step was under way when the state was left. */
  predicate HasOpenWork(s: AgentState) {
    exists i | 0 <= i < |s.executions| :: s.executions[i].status == Running || s.executions[i].status == Interrupted
  }

  lemma NothingOpen(s: AgentState)
    requires !HasOpenWork(s)
    ensures ApplyRecoveryDecision(s, None) == Proceed(s)
  {
    FirstWithFinds(s.executions, Running);
    FirstWithFinds(s.executions, Interrupted);
  }

  /** Marking stale work leaves an interrupted step when there was open work. */
  lemma StaleIsOpen(s: AgentState, stale: AgentState)
    requires HasOpenWork(s) && MarkStale(s) == Some(stale)
    ensures FirstWith(stale.executions, Interrupted).Some?
  {
    var i :| 0 <= i < |s.executions| && (s.executions[i].status == Running || s.executions[i].status == Interrupted);
    assert s.executions[i] in s.executions;
    FirstWithFinds(s.executions, Running);
    FirstWithFinds(stale.executions, Interrupted);
    var running := FirstWith(s.executions, Running);
    if running.Some? {
      var e := Interruption(running.value);
      assert stale.executions[|stale.executions| - 1] == e;
    }
  }

  /** Without a decision the loop starts exactly from states without open work, and from those unchanged. */
  lemma LoopIsEnteredIff(s: AgentState)
    ensures ApplyRecoveryDecision(s, None).Proceed? <==> !HasOpenWork(s)
    ensures !HasOpenWork(s) ==> ApplyRecoveryDecision(s, None) == Proceed(s)
    ensures !ApplyRecoveryDecision(s, None).GiveUp?
  {
    if HasOpenWork(s) {
      if MarkStale(s).Some? {
        StaleIsOpen(s, MarkStale(s).value);
      }
    } else {
      NothingOpen(s);
    }
  }

  /** A whole run of the coordinator: the recovery decision first, then the loop */
  ghost function CoordinatorRun(s: AgentState, recovery: Option<RecoveryDecision>, planner: Planner, executor: Executor)
    : Trace
    requires ValidState(s)
  {
    match ApplyRecoveryDecision(s, recovery)
    case Proceed(state) => RunFrom(state, 0, 0, planner, executor)
    case GiveUp(state) => Trace(BlockedRun(state), [], [])
    case Refuse => Trace(RaisedRun, [], [])
  }

  /** The coordinator loop */
  class Agent {
    const planner: Planner
    const executor: Executor

    constructor (planner: Planner, executor: Executor)
      ensures this.planner == planner && this.executor == executor
    {
      this.planner, this.executor := planner, executor;
    }

    /** Execute step `i` of the latest plan; `over` is the rest of the run when the executor raised. */
    method ExecuteStep(state: AgentState, i: nat, ghost pc: nat, ec: nat)
      returns (over: Option<Trace>, next: AgentState)
      requires ValidState(state) && state.plans != [] && i < |Latest(state).steps|
      requires CompletedUpTo(Latest(state), state.executions, i) && !HasFailed(state)
      requires !HasStatus(state.executions, StepKey(Latest(state), i), Completed)
      ensures over.Some? ==> RunFrom(state, pc, ec, planner, executor) == over.value
      ensures over.None? ==>
        && ValidState(next) && next.plans == state.plans
        && (HasFailed(next) || CompletedUpTo(Latest(next), next.executions, i + 1))
        && RunFrom(state, pc, ec, planner, executor)
           == After([], [StepKey(Latest(state), i)], RunFrom(next, pc, ec + 1, planner, executor))
    {
      RunExecutes(state, i, pc, ec, planner, executor);
      var key := StepKey(Latest(state), i);
      over, next := Some(Trace(RaisedRun, [], [key])), state;
      var reply := executor(ec);
      if reply.Executed? {
        var executed := WithExecution(state, Execution(key, reply.outcome));
        if executed.Some? {
          StateTaken(state, i, reply.outcome, executed.value);
          over, next := None, executed.value;
        }
      }
    }

    /** Run the steps of the latest plan in order until one fails; `over` is the rest of the run when the
        executor raised or every step has completed. */
    method ExecuteSteps(start: AgentState, ghost pc: nat, ec0: nat)
      returns (over: Option<Trace>, state: AgentState, ec: nat, calls: seq<Key>)
      requires ValidState(start) && start.plans != [] && !HasFailed(start)
      ensures over.Some? ==> RunFrom(start, pc, ec0, planner, executor) == over.value
      ensures over.None? ==>
        && ValidState(state) && state.plans == start.plans && HasFailed(state)
        && RunFrom(start, pc, ec0, planner, executor) == After([], calls, RunFrom(state, pc, ec, planner, executor))
    {
      ghost var whole := RunFrom(start, pc, ec0, planner, executor);
      var plan := Latest(start);
      var i := 0;
      over, state, ec, calls := None, start, ec0, [];
      while !HasFailed(state) && i < |plan.steps|
        invariant ValidState(state) && state.plans == start.plans && i <= |plan.steps|
        invariant Latest(state) == plan && (HasFailed(state) || CompletedUpTo(Latest(state), state.executions, i))
        invariant whole == After([], calls, RunFrom(state, pc, ec, planner, executor))
        decreases |plan.steps| - i
      {
        var key := StepKey(plan, i);
        if !HasStatus(state.executions, key, Completed) {
          var raised, next := ExecuteStep(state, i, pc, ec);
          if raised.Some? {
            return Some(After([], calls, raised.value)), state, ec, calls;
          }
          AfterSteps([], calls, [key], RunFrom(next, pc, ec + 1, planner, executor));
          state, calls, ec := next, calls + [key], ec + 1;
        } else {
          CompletedExtends(plan, state.executions, i);
        }
        i := i + 1;
      }
      if !HasFailed(state) {
        RunCompletes(state, pc, ec, planner, executor);
        over := Some(Trace(CompletedRun(state), [], calls));
      }
    }

    /** Call the planner on `state`; `over` is the rest of the run when the planner raised. */
    method Plan(state: AgentState, pc: nat, ghost ec: nat) returns (over: Option<Trace>, next: AgentState)
      requires ValidState(state) && (state.plans == [] || (HasFailed(state) && Latest(state).revision != 3))
      ensures over.Some? ==> RunFrom(state, pc, ec, planner, executor) == over.value
      ensures over.None? ==>
        && ValidState(next) && |state.plans| < |next.plans| <= 3
        && RunFrom(state, pc, ec, planner, executor) == After([state], [], RunFrom(next, pc + 1, ec, planner, executor))
    {
      RunPlans(state, pc, ec, planner, executor);
      over, next := Some(Trace(RaisedRun, [state], [])), state;
      var reply := planner(pc);
      if reply.Planned? {
        var planned := WithPlan(state, reply.plan);
        if planned.Some? {
          PlansAreBounded(planned.value);
          over, next := None, planned.value;
        }
      }
    }

    /** A failed third revision blocks the run; an earlier one is revised. */
    method ReplanAfterFailure(state: AgentState, pc: nat, ghost ec: nat) returns (over: Option<Trace>, next: AgentState)
      requires ValidState(state) && HasFailed(state)
      ensures over.Some? ==> RunFrom(state, pc, ec, planner, executor) == over.value
      ensures over.None? ==>
        && ValidState(next) && |state.plans| < |next.plans| <= 3
        && RunFrom(state, pc, ec, planner, executor) == After([state], [], RunFrom(next, pc + 1, ec, planner, executor))
    {
      if Latest(state).revision == 3 {
        over, next := Some(Trace(BlockedRun(state), [], [])), state;
      } else {
        over, next := Plan(state, pc, ec);
      }
    }

    method Loop(start: AgentState) returns (run: Trace)
      requires ValidState(start)
      ensures run == RunFrom(start, 0, 0, planner, executor)
    {
      var state, pc, ec := start, 0, 0;
      var planCalls, stepCalls := [], [];
      ghost var whole := RunFrom(start, 0, 0, planner, executor);
      while true
        invariant ValidState(state)
        invariant whole == After(planCalls, stepCalls, RunFrom(state, pc, ec, planner, executor))
        decreases 3 - |state.plans|
      {
        if state.plans == [] {
          var over, next := Plan(state, pc, ec);
          if over.Some? {
            return After(planCalls, stepCalls, over.value);
          }
          AfterPlan(planCalls, stepCalls, state, RunFrom(next, pc + 1, ec, planner, executor));
          planCalls, state, pc := planCalls + [state], next, pc + 1;
          continue;
        }
        if !HasFailed(state) {
          var over, next, ec', calls := ExecuteSteps(state, pc, ec);
          if over.Some? {
            return After(planCalls, stepCalls, over.value);
          }
          AfterSteps(planCalls, stepCalls, calls, RunFrom(next, pc, ec', planner, executor));
          state, ec, stepCalls := next, ec', stepCalls + calls;
        }
        var over, next := ReplanAfterFailure(state, pc, ec);
        if over.Some? {
          return After(planCalls, stepCalls, over.value);
        }
        AfterPlan(planCalls, stepCalls, state, RunFrom(next, pc + 1, ec, planner, executor));
        planCalls, state, pc := planCalls + [state], next, pc + 1;
      }
    }

    /** Dispose of interrupted work, then run the loop. */
    method Run(start: AgentState, recovery: Option<RecoveryDecision>) returns (run: Trace)
      requires ValidState(start)
      ensures run == CoordinatorRun(start, recovery, planner, executor)
      ensures recovery.None? ==>
        run == if HasOpenWork(start) then Trace(RaisedRun, [], []) else RunFrom(start, 0, 0, planner, executor)
    {
      LoopIsEnteredIff(start);
      var disposition := ApplyRecoveryDecision(start, recovery);
      match disposition {
        case Proceed(state) => run := Loop(state);
        case GiveUp(state) => run := Trace(BlockedRun(state), [], []);
        case Refuse => run := Trace(RaisedRun, [], []);
      }
    }
  }
}
