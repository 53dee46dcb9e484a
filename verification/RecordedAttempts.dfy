/** What the recovery log and the checkpoint hold of every step, through crashes and resumes. */
module RecordedAttempts {
  import opened Text
  import opened PlanState
  import opened PlanExecute
  import opened Durable
  import opened GraphShape
  import opened Recovery
  import opened CrashConsistency
  import Recording
  import Resumption

  /** The lasting copy of an execution: only the evidence of a step that is not completed is dropped. */
  predicate Lasts(e: StepExecution, d: StepExecution) {
    && d.revision == e.revision && d.stepId == e.stepId && d.status == e.status
    && d.result == e.result && d.error == e.error
    && d.evidence == if e.status == Completed then e.evidence else None
  }

  /** However often a run dies and resumes, an accepted restore gives back, in order, all checkpointed executions: with
      their status, result and error, and with their evidence exactly when they are completed. */
  lemma RestoredExecutions(runId: string, goal: string, events: seq<Event>, sys: Sys, i: nat)
    requires !Blank(goal) && sys == Run(Start(runId, goal), events)
    requires RestoreOf(sys.log, runId, sys.checkpoint.version).Some?
    requires i < |sys.checkpoint.agent.executions|
    ensures var restored := Restored(sys.checkpoint, RestoreOf(sys.log, runId, sys.checkpoint.version).value);
      restored.Some? && var es := restored.value.agent.executions;
      |es| == |sys.checkpoint.agent.executions| && Lasts(sys.checkpoint.agent.executions[i], es[i])
  {
    Resumption.RestoreReproducesCheckpoint(runId, goal, events);
    AllDurableIs(sys.checkpoint.agent.executions);
  }

  // ----- What the nodes record -----

  /** One record of this run is appended, with the version of the checkpoint that follows. */
  predicate Appends(sys: Sys, next: Sys) {
    && |next.log| == |sys.log| + 1 && next.log[..|sys.log|] == sys.log
    && next.log[|sys.log|].runId == sys.runId
    && next.log[|sys.log|].version == next.checkpoint.version == sys.checkpoint.version + 1
  }

  /** What the execute node leaves of an outcome: a record that tells it, with the context of a completed step, and a
      checkpoint that holds it beside the executions of the other steps. */
  ghost predicate LeavesOutcome(sys: Sys, next: Sys, key: Key, o: Outcome) {
    && Appends(sys, next)
    && var a := next.log[|sys.log|]; var es := next.checkpoint.agent.executions;
    && Lasts(StepExecution(key.0, key.1, if o.completed then Completed else Failed, o.result, o.error, o.evidence),
             a.execution)
    && a.update == (if o.completed then Some(o.update) else None) && a.recovery
    && Recording.Holds(es, key, o)
    && forall other | other != key :: Find(es, other) == Find(sys.checkpoint.agent.executions, other)
  }

  lemma OutcomeIsValid(s: AgentState, key: Key, o: Outcome)
    requires ValidState(s) && NextStep(s) == Some(key)
    requires o.completed && o.evidence.Some? ==> !Blank(o.evidence.value)
    ensures WithExecution(s, Execution(key, o)) == Some(s.(executions := Put(s.executions, Execution(key, o))))
  {
    NextStepIsPlanned(s);
    PutIsValid(s, Execution(key, o));
  }

  lemma ExecuteLeaves(sys: Sys, plan: PlanReply, o: Outcome, key: Key)
    requires sys.alive && sys.node == Execute && sys.checkpoint.status == Resuming
    requires ValidState(sys.checkpoint.agent) && NextStep(sys.checkpoint.agent) == Some(key)
    requires o.completed && o.evidence.Some? ==> !Blank(o.evidence.value)
    ensures Step(sys, NodeDone(plan, Executed(o))).alive
    ensures LeavesOutcome(sys, Step(sys, NodeDone(plan, Executed(o))), key, o)
  {
    var s := sys.checkpoint.agent;
    OutcomeIsValid(s, key, o);
    Recording.OutcomeIsHeld(s, key, o, key);
    forall other | other != key
      ensures Find(Put(s.executions, Execution(key, o)), other) == Find(s.executions, other)
    {
      Recording.OutcomeIsHeld(s, key, o, other);
    }
  }

  /** Wherever a run stands before the execute node: when the executor answers, log and checkpoint hold its outcome
      under the next step, whatever happened before. */
  lemma OutcomesAreLogged(runId: string, goal: string, events: seq<Event>, sys: Sys, plan: PlanReply, o: Outcome)
    requires !Blank(goal) && sys == Run(Start(runId, goal), events)
    requires sys.alive && sys.node == Execute
    requires o.completed && o.evidence.Some? ==> !Blank(o.evidence.value)
    ensures NextStep(sys.checkpoint.agent).Some?
    ensures LeavesOutcome(sys, Step(sys, NodeDone(plan, Executed(o))), NextStep(sys.checkpoint.agent).value, o)
  {
    Resumption.StartInv(runId, goal);
    Resumption.RunKeepsInv(Start(runId, goal), events);
    ExecuteLeaves(sys, plan, o, NextStep(sys.checkpoint.agent).value);
  }

  /** A record and a checkpoint that tell of a step only its status, and perhaps an error */
  ghost predicate LeavesMark(a: RecoveryAttempt, s: AgentState, t: AgentState, key: Key, status: PlanState.Status,
                             error: Option<string>) {
    var e := StepExecution(key.0, key.1, status, None, error, None);
    && a.execution == e && a.update.None? && !a.recovery
    && Find(t.executions, key) == Some(e)
    && forall other | other != key :: Find(t.executions, other) == Find(s.executions, other)
  }

  lemma MarkLeaves(sys: Sys, plan: PlanReply, exec: ExecReply, key: Key, next: Sys)
    requires sys.alive && sys.node == MarkRunning && next == Step(sys, NodeDone(plan, exec))
    requires ValidState(sys.checkpoint.agent) && NextStep(sys.checkpoint.agent) == Some(key)
    requires !HasStatus(sys.checkpoint.agent.executions, key, Failed)
    ensures Appends(sys, next)
    ensures LeavesMark(next.log[|sys.log|], sys.checkpoint.agent, next.checkpoint.agent, key, Running, None)
  {
    var s, e := sys.checkpoint.agent, Marked(key, Running, None);
    NextStepIsPlanned(s);
    PutIsValid(s, e);
    forall other
      ensures Find(Put(s.executions, e), other) == if other == key then Some(e) else Find(s.executions, other)
    {
      FindAfterPut(s.executions, e, other);
    }
  }

  /** Wherever a run stands before a step is marked, log and checkpoint then hold the next step as running. */
  lemma RunningStepsAreLogged(runId: string, goal: string, events: seq<Event>, sys: Sys, plan: PlanReply,
                              exec: ExecReply, next: Sys)
    requires !Blank(goal) && sys == Run(Start(runId, goal), events) && next == Step(sys, NodeDone(plan, exec))
    requires sys.alive && sys.node == MarkRunning && !HasFailed(sys.checkpoint.agent)
    ensures NextStep(sys.checkpoint.agent).Some? && Appends(sys, next)
    ensures LeavesMark(next.log[|sys.log|], sys.checkpoint.agent, next.checkpoint.agent,
                       NextStep(sys.checkpoint.agent).value, Running, None)
  {
    Resumption.StartInv(runId, goal);
    Resumption.RunKeepsInv(Start(runId, goal), events);
    NextStepOf(sys.checkpoint.agent, FirstOpen(Latest(sys.checkpoint.agent), sys.checkpoint.agent.executions, 0));
    MarkLeaves(sys, plan, exec, NextStep(sys.checkpoint.agent).value, next);
  }

  lemma RunningIsRestored(es: seq<StepExecution>, i: nat)
    requires Recording.FirstOf(es, Running, i)
    ensures FirstWith(AllDurable(es), Running) == Some(DurableExecution(es[i]))
  {
    AllDurableIs(es);
    assert Recording.FirstOf(AllDurable(es), Running, i);
    Recording.FirstWithIs(AllDurable(es), Running, i);
  }

  /** Restarting from a restored checkpoint in which a step is running */
  lemma StaleLeaves(sys: Sys, r: GraphState, e: StepExecution, stale: AgentState, a: RecoveryAttempt)
    requires Mine(sys.log, sys.runId) && SameVersion(sys.log, sys.checkpoint) && Agree(sys.log, r)
    requires Shape(sys.node, r) && r.status == Resuming && r.version == sys.checkpoint.version
    requires FirstWith(r.agent.executions, Running) == Some(e) && MarkStale(r.agent) == Some(stale)
    requires a == NewAttempt(sys.log, sys.runId, Interruption(e), None, false, r.version + 1)
    ensures Restarted(sys, r, true) == Sys(sys.runId, sys.log + [a], r.(agent := stale), PlanNode, true)
  {
    Resumption.StaleRecords(sys, r, e, stale, Entry(Interruption(e), None, false, r.version + 1));
  }

  /** What the restored checkpoint is, and where it goes on */
  lemma RestoredRun(sys: Sys) returns (r: GraphState)
    requires Inv(sys) && !sys.alive && SameVersion(sys.log, sys.checkpoint) && sys.checkpoint.status == Resuming
    ensures Reproduces(sys.checkpoint, r) && Shape(sys.node, r) && Agree(sys.log, r)
    ensures Resumed(sys, true) == Restarted(sys, r, true)
  {
    Resumption.AcceptedRestore(sys);
    Resumption.ResumedIs(sys, true);
    r := Resumption.Restart(sys);
  }

  lemma RunningIsMarked(gs: GraphState, r: GraphState, i: nat, e: StepExecution)
    requires Reproduces(gs, r) && ValidState(r.agent) && Recording.FirstOf(gs.agent.executions, Running, i)
    requires e == gs.agent.executions[i]
    ensures FirstWith(r.agent.executions, Running) == Some(DurableExecution(e)) && MarkStale(r.agent).Some?
    ensures Recording.Remarked(r.agent, KeyOf(e), Interrupted,
                               Recording.ErrorOr(e, "Step execution was interrupted before recovery"),
                               MarkStale(r.agent).value)
  {
    RunningIsRestored(gs.agent.executions, i);
    AllDurableIs(gs.agent.executions);
    assert Recording.FirstOf(r.agent.executions, Running, i);
    Recording.StaleIs(r.agent, i);
  }

  lemma ResumeStep(sys: Sys, r: GraphState, next: Sys)
    requires !sys.alive && Resumed(sys, true) == Restarted(sys, r, true) && next == Step(sys, Resume(true))
    ensures next == Restarted(sys, r, true)
  {
  }

  lemma InterruptionIsLogged(sys: Sys, i: nat, next: Sys) returns (r: GraphState, a: RecoveryAttempt)
    requires Inv(sys) && next == Step(sys, Resume(true))
    requires !sys.alive && SameVersion(sys.log, sys.checkpoint) && sys.checkpoint.status == Resuming
    requires Recording.FirstOf(sys.checkpoint.agent.executions, Running, i)
    ensures Reproduces(sys.checkpoint, r)
    ensures a.runId == sys.runId && a.version == sys.checkpoint.version + 1
    ensures next == Sys(sys.runId, sys.log + [a], r.(agent := next.checkpoint.agent), PlanNode, true)
    ensures var e := sys.checkpoint.agent.executions[i];
      LeavesMark(a, r.agent, next.checkpoint.agent, KeyOf(e), Interrupted,
                 Some(Recording.ErrorOr(e, "Step execution was interrupted before recovery")))
  {
    r := RestoredRun(sys);
    ResumeStep(sys, r, next);
    var e := sys.checkpoint.agent.executions[i];
    RunningIsMarked(sys.checkpoint, r, i, e);
    a := NewAttempt(sys.log, sys.runId, Interruption(DurableExecution(e)), None, false, r.version + 1);
    StaleLeaves(sys, r, DurableExecution(e), MarkStale(r.agent).value, a);
  }

  /** When a run that died while step `i` was running is resumed, log and checkpoint hold that step as interrupted, with
      its error if it had one, and the log is one version ahead; all else is as restored. */
  lemma InterruptionsAreLogged(runId: string, goal: string, events: seq<Event>, sys: Sys, i: nat, next: Sys)
    returns (r: GraphState, a: RecoveryAttempt)
    requires !Blank(goal) && sys == Run(Start(runId, goal), events) && next == Step(sys, Resume(true))
    requires !sys.alive && SameVersion(sys.log, sys.checkpoint) && sys.checkpoint.status == Resuming
    requires Recording.FirstOf(sys.checkpoint.agent.executions, Running, i)
    ensures Reproduces(sys.checkpoint, r)
    ensures a.runId == runId && a.version == sys.checkpoint.version + 1
    ensures next == Sys(runId, sys.log + [a], r.(agent := next.checkpoint.agent), PlanNode, true)
    ensures var e := sys.checkpoint.agent.executions[i];
      LeavesMark(a, r.agent, next.checkpoint.agent, KeyOf(e), Interrupted,
                 Some(Recording.ErrorOr(e, "Step execution was interrupted before recovery")))
  {
    Resumption.StartInv(runId, goal);
    Resumption.RunKeepsInv(Start(runId, goal), events);
    Resumption.RunKeepsId(Start(runId, goal), events);
    r, a := InterruptionIsLogged(sys, i, next);
  }
}
