/** The durable agent at work: nodes that write to the recovery store, checkpoints, and the graph loop. */
module DurableAgents {
  import opened Text
  import opened Lists
  import opened PlanState
  import opened PlanExecute
  import opened Durable
  import opened Recovery
  import opened CrashConsistency

  // ----- Context -----

  /** The checkpoint's way to extend a list: what is new is decided by a set of what was seen. */
  method MergeUnique(existing: seq<string>, values: seq<string>) returns (merged: seq<string>)
    ensures merged == AppendUnique(existing, values)
  {
    merged := existing;
    var seen := set x | x in existing;
    for i := 0 to |values|
      invariant forall x :: x in seen <==> x in merged
      invariant AppendUnique(merged, values[i..]) == AppendUnique(existing, values)
    {
      assert values[i..][1..] == values[i + 1..];
      if values[i] !in seen {
        merged, seen := merged + [values[i]], seen + {values[i]};
      }
    }
  }

  method MergeInto(gs: GraphState, u: ContextUpdate, key: Key) returns (merged: GraphState)
    ensures merged == MergeContext(gs, u, key)
  {
    var filesRead := MergeUnique(gs.filesRead, u.filesRead);
    var filesModified := MergeUnique(gs.filesModified, u.filesModified);
    merged := gs.(filesRead := filesRead, filesModified := filesModified,
                  observations := gs.observations + Attributed(key, u.observations));
  }

  /** The checkpoint after all contributions of a log were merged into it one by one */
  function MergedAlong(gs: GraphState, log: seq<RecoveryAttempt>): GraphState {
    if log == [] then gs
    else
      var next, a := MergedAlong(gs, log[..|log| - 1]), log[|log| - 1];
      if Contributes(a) then MergeContext(next, a.update.value, KeyOf(a.execution)) else next
  }

  /** Replaying the log and merging step by step list the same files, each once. */
  lemma {:induction false} ContextBuildersAgree(goal: string, log: seq<RecoveryAttempt>)
    ensures MergedAlong(Fresh(goal), log).filesRead == ContextOf(log).filesRead
    ensures MergedAlong(Fresh(goal), log).filesModified == ContextOf(log).filesModified
    ensures NoDuplicates(ContextOf(log).filesRead) && NoDuplicates(ContextOf(log).filesModified)
  {
    if log != [] {
      var front, a := log[..|log| - 1], log[|log| - 1];
      ContextBuildersAgree(goal, front);
      if Contributes(a) {
        AppendUniqueExtends(ContextOf(front).filesRead, a.update.value.filesRead);
        AppendUniqueExtends(ContextOf(front).filesModified, a.update.value.filesModified);
      }
    }
  }

  /** A longer log only appends to what a shorter one lists. */
  lemma {:induction false} ContextGrows(log: seq<RecoveryAttempt>, n: nat)
    requires n <= |log|
    ensures ContextOf(log[..n]).filesRead <= ContextOf(log).filesRead
    ensures ContextOf(log[..n]).filesModified <= ContextOf(log).filesModified
    ensures ContextOf(log[..n]).observations <= ContextOf(log).observations
    decreases |log|
  {
    if n == |log| {
      assert log[..n] == log;
    } else {
      var front, a := log[..|log| - 1], log[|log| - 1];
      assert front[..n] == log[..n];
      ContextGrows(front, n);
      if Contributes(a) {
        AppendUniqueExtends(ContextOf(front).filesRead, a.update.value.filesRead);
        AppendUniqueExtends(ContextOf(front).filesModified, a.update.value.filesModified);
        AppendUniqueExtends(ContextOf(front).observations, a.update.value.observations);
      }
    }
  }

  /** Exactly the files that some completed step reported as read, and those it reported as modified, are listed. */
  lemma {:induction false} ListedFilesAre(log: seq<RecoveryAttempt>, file: string)
    ensures file in ContextOf(log).filesRead
      <==> exists i | 0 <= i < |log| :: Contributes(log[i]) && file in log[i].update.value.filesRead
    ensures file in ContextOf(log).filesModified
      <==> exists i | 0 <= i < |log| :: Contributes(log[i]) && file in log[i].update.value.filesModified
  {
    if log != [] {
      var n := |log| - 1;
      ListedFilesAre(log[..n], file);
      assert forall i | 0 <= i < n :: log[..n][i] == log[i];
      if Contributes(log[n]) {
        AppendUniqueExtends(ContextOf(log[..n]).filesRead, log[n].update.value.filesRead);
        AppendUniqueExtends(ContextOf(log[..n]).filesModified, log[n].update.value.filesModified);
      }
    }
  }

  // ----- Calls of a turn -----

  function PlanCalls(node: Node, s: AgentState): seq<AgentState> {
    if (node == PlanNode && s.plans == []) || (node == Replan && s.plans != [] && Latest(s).revision != 3) then [s]
    else []
  }

  function StepCalls(node: Node, s: AgentState): seq<Key> {
    if node == Execute && NextStep(s).Some? then [NextStep(s).value] else []
  }

  /** The calls that `node` makes, and the numbers of the calls that come after them */
  lemma TurnCalls(node: Node, gs: GraphState, pc: nat, ec: nat, planner: Planner, executor: Executor)
    returns (planCalls: seq<AgentState>, stepCalls: seq<Key>, pc': nat, ec': nat)
    requires Fits(node, gs) && node != End
    ensures planCalls == PlanCalls(node, gs.agent) && stepCalls == StepCalls(node, gs.agent)
    ensures pc' == pc + |planCalls| && ec' == ec + |stepCalls|
    ensures var turn := NodeTurn(node, gs, planner(pc), executor(ec)); turn.Turn? ==> ValidState(turn.state.agent)
    ensures Follows(gs.agent, NodeTurn(node, gs, planner(pc), executor(ec)), planCalls, stepCalls,
                    pc, ec, pc', ec', planner, executor)
  {
    planCalls, stepCalls, pc', ec' := [], [], pc, ec;
    match node
    case PlanNode =>
      if gs.agent.plans == [] {
        planCalls, pc' := [gs.agent], pc + 1;
        PlanFollows(gs, pc, ec, planner, executor);
      } else {
        SkipFollows(gs, pc, ec, planner, executor);
      }
    case MarkRunning => MarkRunningFollows(gs, pc, ec, planner, executor);
    case Execute =>
      stepCalls, ec' := [NextStep(gs.agent).value], ec + 1;
      ExecuteFollows(gs, NextStep(gs.agent).value, pc, ec, planner, executor);
    case Replan =>
      if Latest(gs.agent).revision != 3 {
        planCalls, pc' := [gs.agent], pc + 1;
        ReplanFollows(gs, pc, ec, planner, executor);
      } else {
        SkipFollows(gs.(status := BlockedStatus), pc, ec, planner, executor);
      }
    case Complete => SkipFollows(gs.(status := CompletedStatus), pc, ec, planner, executor);
  }

  /** `whole` is a run of the loop that has made these calls and stands at `s`. */
  ghost predicate Progress(whole: Trace, planCalls: seq<AgentState>, stepCalls: seq<Key>,
                           s: AgentState, pc: nat, ec: nat, planner: Planner, executor: Executor)
  {
    ValidState(s) && whole == After(planCalls, stepCalls, RunFrom(s, pc, ec, planner, executor))
  }

  lemma ProgressTurn(whole: Trace, ps: seq<AgentState>, ks: seq<Key>, s: AgentState, turn: Turn,
                     ps': seq<AgentState>, ks': seq<Key>, pc: nat, ec: nat, pc': nat, ec': nat,
                     planner: Planner, executor: Executor)
    requires ValidState(s) && (turn.Turn? ==> ValidState(turn.state.agent))
    requires Follows(s, turn, ps', ks', pc, ec, pc', ec', planner, executor)
    requires Progress(whole, ps, ks, s, pc, ec, planner, executor)
    ensures turn.TurnRaises? ==> whole == Trace(RaisedRun, ps + ps', ks + ks')
    ensures turn.Turn? ==> Progress(whole, ps + ps', ks + ks', turn.state.agent, pc', ec', planner, executor)
  {
    if turn.Turn? {
      AfterAfter(ps, ks, ps', ks', RunFrom(turn.state.agent, pc', ec', planner, executor));
    }
  }

  lemma ProgressEnds(whole: Trace, ps: seq<AgentState>, ks: seq<Key>, gs: GraphState, pc: nat, ec: nat,
                     planner: Planner, executor: Executor)
    requires Fits(End, gs) && Progress(whole, ps, ks, gs.agent, pc, ec, planner, executor)
    ensures whole == Trace(if gs.status == BlockedStatus then BlockedRun(gs.agent) else CompletedRun(gs.agent), ps, ks)
  {
  }

  lemma ProgressStarts(s: AgentState, planner: Planner, executor: Executor)
    requires ValidState(s)
    ensures Progress(RunFrom(s, 0, 0, planner, executor), [], [], s, 0, 0, planner, executor)
  {
    AfterNothing(RunFrom(s, 0, 0, planner, executor));
  }

  /** Execute the next step and merge the context that it reports. */
  method ExecuteNode(gs: GraphState, reply: ExecReply) returns (turn: Turn)
    ensures turn == ExecuteTurn(gs, reply)
  {
    var step := NextStep(gs.agent);
    if step.None? {
      return Turn(gs.(status := CompletedStatus), None);
    }
    if reply.ExecRaises? {
      return TurnRaises;
    }
    var e, o := Execution(step.value, reply.outcome), reply.outcome;
    var executed := WithExecution(gs.agent, e);
    if executed.None? {
      return TurnRaises;
    }
    var version := gs.version + 1;
    var updates := gs.(agent := executed.value, version := version);
    if o.completed {
      updates := MergeInto(updates, o.update, step.value);
    }
    turn := Turn(updates, Some(Entry(e, if o.completed then Some(o.update) else None, gs.status == Resuming, version)));
  }

  class DurableAgent {
    const planner: Planner
    const executor: Executor
    const store: InMemoryStepRecoveryStore
    const runId: string
    var checkpoint: GraphState
    var node: Node
    var alive: bool

    constructor (planner: Planner, executor: Executor, store: InMemoryStepRecoveryStore, runId: string, goal: string)
      ensures this.planner == planner && this.executor == executor && this.store == store && this.runId == runId
      ensures checkpoint == Fresh(goal) && node == PlanNode && alive
    {
      this.planner, this.executor, this.store, this.runId := planner, executor, store, runId;
      checkpoint, node, alive := Fresh(goal), PlanNode, true;
    }

    ghost function View(): Sys
      reads this, store
    {
      Sys(runId, OfRun(store.attempts, runId), checkpoint, node, alive)
    }

    /** Write an entry to the store, which other runs may share. */
    method Record(entry: Entry)
      modifies store
      ensures OfRun(store.attempts, runId) == Logged(old(View()), Some(entry))
    {
      RunsAreSeparate(store.attempts, runId, entry.execution, entry.update, entry.recovery, entry.version);
      ghost var before := store.attempts;
      var a := store.Record(runId, entry.execution, entry.update, entry.recovery, entry.version);
      OfRunAppend(before, a, runId);
    }

    /** Run one node, write its record to the store, and only then write its update and the choice of the
        next node to the checkpoint in one step. */
    method Advance(plan: PlanReply, exec: ExecReply)
      modifies this, store
      ensures View() == Step(old(View()), NodeDone(plan, exec))
    {
      if !alive || node == End {
        return;
      }
      var turn := NodeTurn(node, checkpoint, plan, exec);
      if node == Execute {
        turn := ExecuteNode(checkpoint, exec);
      }
      if turn.TurnRaises? {
        alive := false;
        return;
      }
      if turn.entry.Some? {
        Record(turn.entry.value);
      }
      checkpoint, node := turn.state, NextNode(node, turn.state);
    }

    /** Overlay the restored executions on the checkpointed plans; None when the state refuses one. */
    method RestoreState(s: AgentState, latest: seq<StepExecution>) returns (restored: Option<AgentState>)
      ensures restored == Overlay(s, latest)
    {
      restored := Some(s);
      for i := 0 to |latest|
        invariant restored.Some? && Overlay(restored.value, latest[i..]) == Overlay(s, latest)
      {
        assert latest[i..][1..] == latest[i + 1..];
        restored := WithExecution(restored.value, latest[i]);
        if restored.None? {
          return;
        }
      }
    }

    /** What an accepted restore makes of the checkpoint; None when restoring is refused. */
    method RestoreCheckpoint() returns (restored: Option<GraphState>)
      ensures var snapshot := RestoreOf(View().log, runId, checkpoint.version);
        restored == if snapshot.None? then None else Restored(checkpoint, snapshot.value)
    {
      RunsAreSeparate(store.attempts, runId, Marked((0, ""), Pending, None), None, false, checkpoint.version);
      var snapshot := store.Restore(runId, checkpoint.version);
      if snapshot.None? {
        return None;
      }
      if snapshot.value.latest == [] {
        return Some(checkpoint);
      }
      var overlaid := RestoreState(checkpoint.agent, snapshot.value.latest);
      if overlaid.None? {
        return None;
      }
      var context := snapshot.value.context;
      restored := Some(checkpoint.(agent := overlaid.value, filesRead := context.filesRead,
                                   filesModified := context.filesModified, observations := context.observations));
    }

    /** Mark stale work, record it, and write the input, unless the process dies before that. */
    method Restart(restored: GraphState, inputWritten: bool)
      requires !alive
      modifies this, store
      ensures View() == Restarted(old(View()), restored, inputWritten)
    {
      var stale := MarkStale(restored.agent);
      if stale.None? {
        return;
      }
      OfRunTwice(store.attempts, runId);
      var entry := StaleEntry(store.History(runId), restored, stale.value);
      if entry.Some? {
        Record(entry.value);
      }
      if inputWritten {
        checkpoint, node, alive := restored.(agent := stale.value), PlanNode, true;
      }
    }

    /** Resume a dead run without a recovery decision; `inputWritten` tells whether the process lives to
        write its input after it has recorded the stale step. */
    method ResumeRun(inputWritten: bool)
      requires !alive
      modifies this, store
      ensures View() == Step(old(View()), Resume(inputWritten))
    {
      var restored := RestoreCheckpoint();
      if restored.Some? && checkpoint.status == Resuming {
        Restart(restored.value, inputWritten);
      }
    }

    /** Invoke the graph where it stands until it ends or a node raises. */
    method Invoke() returns (run: Trace)
      requires alive && Fits(node, checkpoint)
      modifies this, store
      ensures run == RunFrom(old(checkpoint).agent, 0, 0, planner, executor)
      ensures run.ending.RaisedRun? || node == End
    {
      ghost var whole := RunFrom(checkpoint.agent, 0, 0, planner, executor);
      ProgressStarts(checkpoint.agent, planner, executor);
      var pc: nat, ec: nat := 0, 0;
      var planCalls, stepCalls := [], [];
      while node != End
        invariant alive && Fits(node, checkpoint)
        invariant Progress(whole, planCalls, stepCalls, checkpoint.agent, pc, ec, planner, executor)
        decreases 3 - |checkpoint.agent.plans|, Unsettled(checkpoint.agent), Rank(node)
      {
        ghost var turn := NodeTurn(node, checkpoint, planner(pc), executor(ec));
        var plans, steps := PlanCalls(node, checkpoint.agent), StepCalls(node, checkpoint.agent);
        TurnsKeepFits(node, checkpoint, planner(pc), executor(ec));
        ghost var _, _, pc', ec' := TurnCalls(node, checkpoint, pc, ec, planner, executor);
        ProgressTurn(whole, planCalls, stepCalls, checkpoint.agent, turn, plans, steps,
                     pc, ec, pc', ec', planner, executor);
        Advance(planner(pc), executor(ec));
        planCalls, stepCalls, pc, ec := planCalls + plans, stepCalls + steps, pc + |plans|, ec + |steps|;
        if !alive {
          return Trace(RaisedRun, planCalls, stepCalls);
        }
        assert pc == pc' && ec == ec' && checkpoint == turn.state;
      }
      ProgressEnds(whole, planCalls, stepCalls, checkpoint, pc, ec, planner, executor);
      run := Trace(if checkpoint.status == BlockedStatus then BlockedRun(checkpoint.agent)
                   else CompletedRun(checkpoint.agent), planCalls, stepCalls);
    }
  }

  lemma AfterAfter(ps: seq<AgentState>, ks: seq<Key>, ps': seq<AgentState>, ks': seq<Key>, rest: Trace)
    ensures After(ps, ks, After(ps', ks', rest)) == After(ps + ps', ks + ks', rest)
  {
    assert ps + (ps' + rest.planCalls) == ps + ps' + rest.planCalls;
    assert ks + (ks' + rest.stepCalls) == ks + ks' + rest.stepCalls;
  }
}
