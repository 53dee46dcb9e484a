/** Every event keeps log and checkpoint reconcilable, and what a resumed run then does. */
module Resumption {
  import opened Text
  import opened PlanState
  import opened PlanExecute
  import opened Durable
  import opened GraphShape
  import opened Recovery
  import opened CrashConsistency

  /** A failure of the latest plan is its first open step, recorded last. */
  lemma FailureIsLast(node: Node, gs: GraphState)
    requires Shape(node, gs) && HasFailed(gs.agent)
    ensures FailedLast(gs.agent)
  {
    var s := gs.agent;
    var k: nat :| k < |Latest(s).steps| && HasStatus(s.executions, StepKey(Latest(s), k), Failed);
    LatestSettles(Latest(s), s.executions, node, k, Find(s.executions, StepKey(Latest(s), k)).value);
    FindFinds(s.executions, StepKey(Latest(s), k));
    NextStepIsAt(s, k);
  }

  /** With no step running, the graph can start over at its first node. */
  lemma QuietShape(node: Node, gs: GraphState)
    requires Shape(node, gs) && gs.status == Resuming && FirstWith(gs.agent.executions, Running).None?
    ensures Shape(PlanNode, gs)
  {
    var s := gs.agent;
    FirstWithFinds(s.executions, Running);
    if HasFailed(s) {
      FailureIsLast(node, gs);
    }
    if s.plans != [] {
      FindFinds(s.executions, if NextStep(s).Some? then NextStep(s).value else (0, ""));
      FirstOpenIs(Latest(s), s.executions, 0);
    }
  }

  /** The running step and what marks it stale */
  lemma RunningShape(node: Node, gs: GraphState, running: StepExecution)
    requires Shape(node, gs) && gs.status == Resuming && FirstWith(gs.agent.executions, Running) == Some(running)
    ensures node == Execute && gs.agent.plans != [] && NextStep(gs.agent) == Some(KeyOf(running))
    ensures Newest(gs.agent.executions, KeyOf(running))
    ensures forall i | 0 <= i < |gs.agent.executions| - 1 :: gs.agent.executions[i].status != Interrupted
  {
    var es := gs.agent.executions;
    FirstWithFinds(es, Running);
    var i :| 0 <= i < |es| && es[i] == running;
    OpenIsLast(node, gs, i);
    forall j | 0 <= j < |es| - 1
      ensures es[j].status != Interrupted
    {
      if es[j].status == Interrupted {
        OpenIsLast(node, gs, j);
      }
    }
  }

  lemma StaleShape(node: Node, gs: GraphState, running: StepExecution)
    requires Shape(node, gs) && gs.status == Resuming && FirstWith(gs.agent.executions, Running) == Some(running)
    ensures MarkStale(gs.agent) == Some(gs.agent.(executions := Put(gs.agent.executions, Interruption(running))))
    ensures Shape(PlanNode, gs.(agent := MarkStale(gs.agent).value))
  {
    var s, e := gs.agent, Interruption(running);
    RunningShape(node, gs, running);
    NextStepIsPlanned(s);
    PutIsValid(s, e);
    NextStepOf(s, FirstOpen(Latest(s), s.executions, 0));
    var t := s.(executions := Put(s.executions, e));
    MarkKeepsNext(s, e, t);
    RecordingKeepsShape(s, e, PlanNode, gs.(agent := t));
  }

  lemma {:induction false} FirstWithAfter(front: seq<StepExecution>, e: StepExecution)
    requires forall i | 0 <= i < |front| :: front[i].status != e.status
    ensures FirstWith(front + [e], e.status) == Some(e)
  {
    if front != [] {
      assert (front + [e])[1..] == front[1..] + [e];
      FirstWithAfter(front[1..], e);
    }
  }

  /** The only interrupted step is the one that was just marked. */
  lemma StaleIsInterrupted(es: seq<StepExecution>, e: StepExecution)
    requires UniqueKeys(es) && Newest(es, KeyOf(e)) && e.status == Interrupted
    requires forall i | 0 <= i < |es| - 1 :: es[i].status != Interrupted
    ensures FirstWith(Put(es, e), Interrupted) == Some(e)
  {
    var front := es[..|es| - 1];
    assert es == front + [es[|es| - 1]];
    PutLast(front, es[|es| - 1], e);
    FirstWithAfter(front, e);
  }

  // ----- Every event keeps the invariant -----

  lemma StartInv(runId: string, goal: string)
    requires !Blank(goal)
    ensures Inv(Start(runId, goal))
  {
    FreshFits(goal);
  }

  lemma AppendAscends(log: seq<RecoveryAttempt>, a: RecoveryAttempt)
    requires Ascending(log) && (log != [] ==> log[|log| - 1].version <= a.version)
    ensures Ascending(log + [a])
  {
    forall i | 0 <= i < |log|
      ensures NoLater(log[i], a)
    {
      assert i < |log| - 1 ==> NoLater(log[i], log[|log| - 1]);
    }
  }

  lemma EntryLogged(sys: Sys, entry: Entry)
    requires Ascending(sys.log) && Mine(sys.log, sys.runId)
    requires sys.log != [] ==> sys.log[|sys.log| - 1].version <= entry.version
    ensures var log := Logged(sys, Some(entry));
      && Ascending(log) && Mine(log, sys.runId) && log != [] && log[|log| - 1].version == entry.version
  {
    AppendAscends(sys.log, Logged(sys, Some(entry))[|sys.log|]);
  }

  /** The log after the entry of a turn */
  lemma LoggedTurn(sys: Sys, plan: PlanReply, exec: ExecReply)
    requires Inv(sys) && sys.alive && NodeTurn(sys.node, sys.checkpoint, plan, exec).Turn?
    ensures var turn := NodeTurn(sys.node, sys.checkpoint, plan, exec); var log := Logged(sys, turn.entry);
      && Ascending(log) && Mine(log, sys.runId)
      && Agree(log, turn.state)
      && (log != [] ==> turn.state.version <= log[|log| - 1].version <= turn.state.version + 1)
      && (turn.entry.Some? ==>
            log != [] && log[|log| - 1].version == turn.state.version == sys.checkpoint.version + 1)
  {
    var entry := NodeTurn(sys.node, sys.checkpoint, plan, exec).entry;
    if entry.None? {
      SilentTurn(sys.node, sys.checkpoint, plan, exec);
    } else {
      var a := Logged(sys, entry)[|sys.log|];
      RecordedTurn(sys.node, sys.checkpoint, plan, exec, sys.log, a);
      EntryLogged(sys, entry.value);
    }
  }

  lemma NodeDoneKeepsInv(sys: Sys, plan: PlanReply, exec: ExecReply)
    requires Inv(sys)
    ensures Inv(Step(sys, NodeDone(plan, exec)))
  {
    if sys.alive && sys.node != End {
      if NodeTurn(sys.node, sys.checkpoint, plan, exec).Turn? {
        TurnKeepsShape(sys.node, sys.checkpoint, plan, exec);
        LoggedTurn(sys, plan, exec);
      }
    }
  }

  /** A crash between the two writes leaves the log one version ahead. */
  lemma CrashAfterRecordKeepsInv(sys: Sys, plan: PlanReply, exec: ExecReply)
    requires Inv(sys)
    ensures Inv(Step(sys, CrashAfterRecord(plan, exec)))
  {
    if sys.alive && sys.node != End {
      DeathKeepsInv(sys);
      if NodeTurn(sys.node, sys.checkpoint, plan, exec).Turn? {
        var entry := NodeTurn(sys.node, sys.checkpoint, plan, exec).entry;
        if entry.Some? {
          LoggedTurn(sys, plan, exec);
          DeadKeepsInv(sys, Logged(sys, entry));
        }
      }
    }
  }

  lemma DeathKeepsInv(sys: Sys)
    requires Inv(sys)
    ensures Inv(sys.(alive := false))
  {
  }

  /** A dead process whose log is one version ahead */
  lemma DeadKeepsInv(sys: Sys, log: seq<RecoveryAttempt>)
    requires Inv(sys) && Ascending(log) && Mine(log, sys.runId)
    requires log != [] && log[|log| - 1].version == sys.checkpoint.version + 1
    ensures Inv(sys.(alive := false, log := log))
  {
  }

  lemma AllDurableTwice(es: seq<StepExecution>)
    ensures AllDurable(AllDurable(es)) == AllDurable(es)
  {
    AllDurableIs(es);
    AllDurableIs(AllDurable(es));
  }

  /** What an accepted restore starts from */
  function Restart(sys: Sys): GraphState
    requires RestoreOf(sys.log, sys.runId, sys.checkpoint.version).Some?
    requires Restored(sys.checkpoint, RestoreOf(sys.log, sys.runId, sys.checkpoint.version).value).Some?
  {
    Restored(sys.checkpoint, RestoreOf(sys.log, sys.runId, sys.checkpoint.version).value).value
  }

  /** Restoring accepts exactly a log that ends at the checkpoint's version, and then reproduces the checkpoint. */
  lemma AcceptedRestore(sys: Sys)
    requires Inv(sys)
    ensures RestoreOf(sys.log, sys.runId, sys.checkpoint.version).Some? <==> SameVersion(sys.log, sys.checkpoint)
    ensures SameVersion(sys.log, sys.checkpoint) ==>
      && Restored(sys.checkpoint, RestoreOf(sys.log, sys.runId, sys.checkpoint.version).value).Some?
      && Reproduces(sys.checkpoint, Restart(sys)) && Shape(sys.node, Restart(sys)) && Agree(sys.log, Restart(sys))
  {
    var gs := sys.checkpoint;
    RestoreIs(sys.log, sys.runId, gs.version);
    if SameVersion(sys.log, gs) {
      RestoredReproduces(sys.log, gs);
      AllDurableIs(gs.agent.executions);
      AllDurableTwice(gs.agent.executions);
      ShapeDurable(sys.node, gs, Restart(sys));
    }
  }

  lemma StaleEntryIs(node: Node, log: seq<RecoveryAttempt>, r: GraphState, running: StepExecution, stale: AgentState)
    requires Shape(node, r) && r.status == Resuming && log != []
    requires FirstWith(r.agent.executions, Running) == Some(running) && MarkStale(r.agent) == Some(stale)
    ensures StaleEntry(log, r, stale) == Some(Entry(Interruption(running), None, false, log[|log| - 1].version + 1))
  {
    StaleShape(node, r, running);
    RunningShape(node, r, running);
    StaleIsInterrupted(r.agent.executions, Interruption(running));
  }

  lemma SomethingLogged(log: seq<RecoveryAttempt>, r: GraphState, running: StepExecution)
    requires Agree(log, r) && FirstWith(r.agent.executions, Running) == Some(running)
    ensures log != []
  {
    AllDurableIs(r.agent.executions);
  }

  lemma StaleAgrees(node: Node, log: seq<RecoveryAttempt>, a: RecoveryAttempt, r: GraphState, running: StepExecution)
    requires Shape(node, r) && Agree(log, r) && r.status == Resuming
    requires FirstWith(r.agent.executions, Running) == Some(running)
    requires a.execution == Interruption(running)
    ensures MarkStale(r.agent).Some? && Agree(log + [a], r.(agent := MarkStale(r.agent).value))
  {
    StaleShape(node, r, running);
    RunningShape(node, r, running);
    LogGrows(log, a);
    AssignIsPut(r.agent.executions, Interruption(running));
  }

  /** Recording the stale step keeps log and restored state in agreement. */
  lemma StaleLogged(sys: Sys, r: GraphState, running: StepExecution, stale: AgentState)
    requires Ascending(sys.log) && Mine(sys.log, sys.runId) && SameVersion(sys.log, sys.checkpoint)
    requires Shape(sys.node, r) && Agree(sys.log, r) && r.status == Resuming && r.version == sys.checkpoint.version
    requires FirstWith(r.agent.executions, Running) == Some(running) && MarkStale(r.agent) == Some(stale)
    ensures var log := Logged(sys, StaleEntry(OfRun(sys.log, sys.runId), r, stale));
      && Ascending(log) && Mine(log, sys.runId)
      && Agree(log, r.(agent := stale))
      && log != [] && log[|log| - 1].version == r.version + 1
  {
    var entry := Entry(Interruption(running), None, false, r.version + 1);
    StaleRecords(sys, r, running, stale, entry);
    var log := Logged(sys, Some(entry));
    assert Agree(log, r.(agent := stale)) by {
      StaleAgrees(sys.node, sys.log, log[|sys.log|], r, running);
    }
    EntryLogged(sys, entry);
  }

  /** What a resumed process records of the running step */
  lemma StaleRecords(sys: Sys, r: GraphState, running: StepExecution, stale: AgentState, entry: Entry)
    requires Mine(sys.log, sys.runId) && SameVersion(sys.log, sys.checkpoint) && Agree(sys.log, r)
    requires Shape(sys.node, r) && r.status == Resuming && r.version == sys.checkpoint.version
    requires FirstWith(r.agent.executions, Running) == Some(running) && MarkStale(r.agent) == Some(stale)
    requires entry == Entry(Interruption(running), None, false, r.version + 1)
    ensures StaleEntry(OfRun(sys.log, sys.runId), r, stale) == Some(entry)
    ensures sys.log != [] && sys.log[|sys.log| - 1].version == r.version
  {
    SomethingLogged(sys.log, r, running);
    OfRunAll(sys.log, sys.runId);
    StaleEntryIs(sys.node, sys.log, r, running, stale);
  }

  /** A log one version ahead suits the restarted run, and also the old checkpoint once the process is dead. */
  lemma AheadKeepsInv(sys: Sys, log: seq<RecoveryAttempt>, next: GraphState)
    requires Inv(sys) && !sys.alive && Ascending(log) && Mine(log, sys.runId) && log != []
    requires Shape(PlanNode, next) && Agree(log, next)
    requires log[|log| - 1].version == next.version + 1 == sys.checkpoint.version + 1
    ensures Inv(Sys(sys.runId, log, next, PlanNode, true)) && Inv(sys.(log := log))
  {
  }

  lemma ResumeRunning(sys: Sys, r: GraphState, running: StepExecution, inputWritten: bool)
    requires Inv(sys) && !sys.alive && SameVersion(sys.log, sys.checkpoint) && r.status == Resuming
    requires Reproduces(sys.checkpoint, r) && Shape(sys.node, r) && Agree(sys.log, r)
    requires FirstWith(r.agent.executions, Running) == Some(running)
    ensures Inv(Restarted(sys, r, inputWritten))
  {
    StaleShape(sys.node, r, running);
    var stale := MarkStale(r.agent).value;
    StaleLogged(sys, r, running, stale);
    AheadKeepsInv(sys, Logged(sys, StaleEntry(OfRun(sys.log, sys.runId), r, stale)), r.(agent := stale));
  }

  lemma ResumeQuiet(sys: Sys, r: GraphState, inputWritten: bool)
    requires Inv(sys) && !sys.alive && SameVersion(sys.log, sys.checkpoint) && r.status == Resuming
    requires Reproduces(sys.checkpoint, r) && Shape(sys.node, r) && Agree(sys.log, r)
    requires FirstWith(r.agent.executions, Running).None?
    ensures Inv(Restarted(sys, r, inputWritten))
  {
    assert Restarted(sys, r, inputWritten) ==
      if inputWritten then Sys(sys.runId, sys.log, r, PlanNode, true) else sys
    by {
      QuietRestart(sys, r, inputWritten);
    }
    if inputWritten {
      QuietShape(sys.node, r);
      SameKeepsInv(sys, r);
    }
  }

  /** A log that suits the checkpoint suits a restarted run that agrees with it. */
  lemma SameKeepsInv(sys: Sys, r: GraphState)
    requires Inv(sys) && Shape(PlanNode, r) && Agree(sys.log, r) && r.version == sys.checkpoint.version
    ensures Inv(Sys(sys.runId, sys.log, r, PlanNode, true))
  {
  }

  /** Without stale work nothing is recorded. */
  lemma QuietRestart(sys: Sys, r: GraphState, inputWritten: bool)
    requires FirstWith(r.agent.executions, Running).None?
    ensures Restarted(sys, r, inputWritten) == if inputWritten then Sys(sys.runId, sys.log, r, PlanNode, true) else sys
  {
  }

  lemma ResumeKeepsInv(sys: Sys, inputWritten: bool)
    requires Inv(sys) && !sys.alive
    ensures Inv(Resumed(sys, inputWritten))
  {
    AcceptedRestore(sys);
    if SameVersion(sys.log, sys.checkpoint) && sys.checkpoint.status == Resuming {
      var r := Restart(sys);
      var running := FirstWith(r.agent.executions, Running);
      if running.Some? {
        ResumeRunning(sys, r, running.value, inputWritten);
      } else {
        ResumeQuiet(sys, r, inputWritten);
      }
    }
  }

  lemma StepKeepsInv(sys: Sys, event: Event)
    requires Inv(sys)
    ensures Inv(Step(sys, event))
  {
    match event
    case NodeDone(plan, exec) => NodeDoneKeepsInv(sys, plan, exec);
    case Crash =>
    case CrashAfterRecord(plan, exec) => CrashAfterRecordKeepsInv(sys, plan, exec);
    case Resume(inputWritten) =>
      if !sys.alive {
        ResumeKeepsInv(sys, inputWritten);
      }
  }

  lemma {:induction false} RunKeepsInv(sys: Sys, events: seq<Event>)
    requires Inv(sys)
    ensures Inv(Run(sys, events))
    decreases |events|
  {
    if events != [] {
      StepKeepsInv(sys, events[0]);
      RunKeepsInv(Step(sys, events[0]), events[1..]);
    }
  }

  // ----- Main results -----

  /** Crash consistency: however often a run dies and resumes, restoring accepts exactly when the log ends at
      the checkpoint's version, and an accepted restore gives back the checkpointed executions in their order
      and the checkpointed files. */
  lemma RestoreReproducesCheckpoint(runId: string, goal: string, events: seq<Event>)
    requires !Blank(goal)
    ensures var sys := Run(Start(runId, goal), events);
      var snapshot := RestoreOf(sys.log, runId, sys.checkpoint.version);
      && sys.runId == runId
      && (snapshot.Some? <==> SameVersion(sys.log, sys.checkpoint))
      && (snapshot.Some? ==>
            && Restored(sys.checkpoint, snapshot.value).Some?
            && Reproduces(sys.checkpoint, Restored(sys.checkpoint, snapshot.value).value))
  {
    StartInv(runId, goal);
    RunKeepsInv(Start(runId, goal), events);
    RunKeepsId(Start(runId, goal), events);
    AcceptedRestore(Run(Start(runId, goal), events));
  }

  lemma {:induction false} RunKeepsId(sys: Sys, events: seq<Event>)
    ensures Run(sys, events).runId == sys.runId
    decreases |events|
  {
    if events != [] {
      RunKeepsId(Step(sys, events[0]), events[1..]);
    }
  }

  /** Wherever a run stands after any number of crashes and resumes: the nodes that need a next step have one,
      and a final status tells the truth. */
  lemma ReachableNodes(runId: string, goal: string, events: seq<Event>)
    requires !Blank(goal)
    ensures var sys := Run(Start(runId, goal), events); var s := sys.checkpoint.agent;
      && (sys.node == MarkRunning || sys.node == Execute ==> NextStep(s).Some?)
      && (sys.checkpoint.status == CompletedStatus ==> AllCompleted(s))
      && (sys.checkpoint.status == BlockedStatus ==> HasFailed(s) && |s.plans| == 3)
  {
    StartInv(runId, goal);
    RunKeepsInv(Start(runId, goal), events);
    var s := Run(Start(runId, goal), events).checkpoint.agent;
    if s.plans != [] {
      LatestFits(s);
    }
  }

  /** Every superseded revision is a completed prefix and one failed step. */
  lemma ReachableRevisions(runId: string, goal: string, events: seq<Event>, r: nat)
    requires !Blank(goal)
    requires r + 1 < |Run(Start(runId, goal), events).checkpoint.agent.plans|
    ensures var s := Run(Start(runId, goal), events).checkpoint.agent; Superseded(s.plans[r], s.executions)
  {
    StartInv(runId, goal);
    RunKeepsInv(Start(runId, goal), events);
    assert SupersededAt(Run(Start(runId, goal), events).checkpoint.agent, r);
  }

  /** A step under way is the newest execution, in the latest plan; while it runs, execution comes next. */
  lemma ReachableExecutions(runId: string, goal: string, events: seq<Event>, i: nat)
    requires !Blank(goal)
    requires i < |Run(Start(runId, goal), events).checkpoint.agent.executions|
    ensures var sys := Run(Start(runId, goal), events); var es := sys.checkpoint.agent.executions;
      es[i].status != Completed && es[i].status != Failed ==>
        && i == |es| - 1 && NextStep(sys.checkpoint.agent) == Some(KeyOf(es[i]))
        && (es[i].status == Interrupted || (es[i].status == Running && sys.node == Execute))
  {
    StartInv(runId, goal);
    RunKeepsInv(Start(runId, goal), events);
    var sys := Run(Start(runId, goal), events);
    var e := sys.checkpoint.agent.executions[i];
    if e.status != Completed && e.status != Failed {
      OpenIsLast(sys.node, sys.checkpoint, i);
    }
  }

  lemma RestartContinues(sys: Sys, r: GraphState, pc: nat, ec: nat, planner: Planner, executor: Executor)
    requires Shape(sys.node, r) && r.status == Resuming
    ensures Restarted(sys, r, true).alive && Fits(PlanNode, Restarted(sys, r, true).checkpoint)
    ensures RunFrom(Restarted(sys, r, true).checkpoint.agent, pc, ec, planner, executor)
      == RunFrom(r.agent, pc, ec, planner, executor)
  {
    var running := FirstWith(r.agent.executions, Running);
    if running.Some? {
      RunningShape(sys.node, r, running.value);
      StaleShape(sys.node, r, running.value);
      var t := MarkStale(r.agent).value;
      PutIsKnown(r.agent, Interruption(running.value), t);
      MarkKeepsRun(r.agent, Interruption(running.value), t, pc, ec, planner, executor);
    } else {
      QuietShape(sys.node, r);
    }
  }

  /** An accepted resume goes on as the plain loop would from the restored state: the interrupted step is
      executed again and everything that had completed stays. */
  lemma ResumeContinuesLoop(sys: Sys, pc: nat, ec: nat, planner: Planner, executor: Executor)
    requires Inv(sys) && !sys.alive && SameVersion(sys.log, sys.checkpoint) && sys.checkpoint.status == Resuming
    ensures Resumed(sys, true).alive && Fits(PlanNode, Resumed(sys, true).checkpoint)
    ensures ValidState(sys.checkpoint.agent.(executions := AllDurable(sys.checkpoint.agent.executions)))
    ensures GraphRun(PlanNode, Resumed(sys, true).checkpoint, pc, ec, planner, executor)
      == RunFrom(sys.checkpoint.agent.(executions := AllDurable(sys.checkpoint.agent.executions)),
                 pc, ec, planner, executor)
  {
    AcceptedRestore(sys);
    RestartContinues(sys, Restart(sys), pc, ec, planner, executor);
    GraphRefinesLoop(PlanNode, Resumed(sys, true).checkpoint, pc, ec, planner, executor);
  }

  /** A resumed run differs from the plain coordinator on the restored state at the entry only: without interrupted
      work the two are the same run; with it the coordinator demands a decision, and the resumed run executes the
      step again. */
  lemma OnlyEntryDiffers(sys: Sys, planner: Planner, executor: Executor)
    requires Inv(sys) && !sys.alive && SameVersion(sys.log, sys.checkpoint) && sys.checkpoint.status == Resuming
    ensures Fits(PlanNode, Resumed(sys, true).checkpoint)
    ensures var s := sys.checkpoint.agent.(executions := AllDurable(sys.checkpoint.agent.executions));
      && ValidState(s)
      && CoordinatorRun(s, None, planner, executor) ==
           if HasOpenWork(s) then Trace(RaisedRun, [], [])
           else GraphRun(PlanNode, Resumed(sys, true).checkpoint, 0, 0, planner, executor)
  {
    ResumeContinuesLoop(sys, 0, 0, planner, executor);
    LoopIsEnteredIff(sys.checkpoint.agent.(executions := AllDurable(sys.checkpoint.agent.executions)));
  }

  lemma PutIsKnown(s: AgentState, e: StepExecution, t: AgentState)
    requires ValidState(s) && NextStep(s) == Some(KeyOf(e)) && e.status != Completed
    requires t == s.(executions := Put(s.executions, e))
    ensures WithExecution(s, e) == Some(t)
  {
    NextStepIsPlanned(s);
    PutIsValid(s, e);
  }

  /** A run that died between the two writes is refused by every later resume. */
  lemma {:induction false} RefusedForever(sys: Sys, events: seq<Event>)
    requires !sys.alive && RestoreOf(sys.log, sys.runId, sys.checkpoint.version).None?
    ensures Run(sys, events) == sys
    decreases |events|
  {
    if events != [] {
      RefusedForever(sys, events[1..]);
    }
  }

  lemma CrashBetweenWritesIsRefused(sys: Sys, plan: PlanReply, exec: ExecReply)
    requires Inv(sys) && sys.alive && NodeTurn(sys.node, sys.checkpoint, plan, exec).Turn?
    requires NodeTurn(sys.node, sys.checkpoint, plan, exec).entry.Some?
    ensures var dead := Step(sys, CrashAfterRecord(plan, exec));
      !dead.alive && RestoreOf(dead.log, dead.runId, dead.checkpoint.version).None?
  {
    LoggedTurn(sys, plan, exec);
    var dead := Step(sys, CrashAfterRecord(plan, exec));
    RestoreIs(dead.log, dead.runId, dead.checkpoint.version);
  }

  ghost predicate Ahead(sys: Sys) {
    sys.log != [] && sys.log[|sys.log| - 1].version == sys.checkpoint.version + 1
  }

  lemma RestartedAhead(sys: Sys, r: GraphState, running: StepExecution, inputWritten: bool)
    requires Inv(sys) && !sys.alive && SameVersion(sys.log, sys.checkpoint) && r.status == Resuming
    requires Reproduces(sys.checkpoint, r) && Shape(sys.node, r) && Agree(sys.log, r)
    requires FirstWith(r.agent.executions, Running) == Some(running)
    ensures Ahead(Restarted(sys, r, inputWritten)) && Restarted(sys, r, inputWritten).alive == inputWritten
  {
    StaleShape(sys.node, r, running);
    var stale := MarkStale(r.agent).value;
    StaleLogged(sys, r, running, stale);
    RestartedIs(sys, r, stale, Logged(sys, StaleEntry(OfRun(sys.log, sys.runId), r, stale)), inputWritten);
  }

  lemma RestartedIs(sys: Sys, r: GraphState, stale: AgentState, log: seq<RecoveryAttempt>, inputWritten: bool)
    requires MarkStale(r.agent) == Some(stale) && log == Logged(sys, StaleEntry(OfRun(sys.log, sys.runId), r, stale))
    requires !sys.alive && log != [] && log[|log| - 1].version == r.version + 1 == sys.checkpoint.version + 1
    ensures Ahead(Restarted(sys, r, inputWritten)) && Restarted(sys, r, inputWritten).alive == inputWritten
  {
  }

  lemma ResumedIs(sys: Sys, inputWritten: bool)
    requires Inv(sys) && SameVersion(sys.log, sys.checkpoint) && sys.checkpoint.status == Resuming
    ensures RestoreOf(sys.log, sys.runId, sys.checkpoint.version).Some?
    ensures Restored(sys.checkpoint, RestoreOf(sys.log, sys.runId, sys.checkpoint.version).value).Some?
    ensures Resumed(sys, inputWritten) == Restarted(sys, Restart(sys), inputWritten)
  {
    AcceptedRestore(sys);
  }

  /** A resume that marks a stale step leaves the log one version ahead, whether or not its input is written. */
  lemma ResumeLeavesLogAhead(sys: Sys, inputWritten: bool)
    requires Inv(sys) && !sys.alive && SameVersion(sys.log, sys.checkpoint) && sys.checkpoint.status == Resuming
    requires FirstWith(AllDurable(sys.checkpoint.agent.executions), Running).Some?
    ensures Resumed(sys, inputWritten).alive == inputWritten && Ahead(Resumed(sys, inputWritten))
  {
    AcceptedRestore(sys);
    ResumedIs(sys, inputWritten);
    var r := Restart(sys);
    RestartedAhead(sys, r, FirstWith(r.agent.executions, Running).value, inputWritten);
  }

  /** Until its next checkpoint such a resumed process must not die: the run is then refused. */
  lemma DeathAfterResumeIsRefused(sys: Sys)
    requires Inv(sys) && Ahead(sys)
    ensures var dead := Step(sys, Crash); RestoreOf(dead.log, dead.runId, dead.checkpoint.version).None?
  {
    AcceptedRestore(Step(sys, Crash));
  }

  /** A process that dies before a node's effect can always be resumed, unless the previous resume had left
      the log ahead. */
  lemma CrashBeforeEffectIsAccepted(sys: Sys)
    requires Inv(sys) && sys.alive && SameVersion(sys.log, sys.checkpoint)
    ensures var dead := Step(sys, Crash); RestoreOf(dead.log, dead.runId, dead.checkpoint.version).Some?
  {
    AcceptedRestore(Step(sys, Crash));
  }

  lemma LoggedIsNumbered(sys: Sys, entry: Option<Entry>)
    requires Numbered(sys.log)
    ensures Numbered(Logged(sys, entry))
  {
    if entry.Some? {
      RecordedIsNumbered(sys.log, Logged(sys, entry)[|sys.log|]);
    }
  }

  /** The attempts of every step stay contiguous through crashes and resumes. */
  lemma {:induction false} RunIsNumbered(sys: Sys, events: seq<Event>)
    requires Numbered(sys.log)
    ensures Numbered(Run(sys, events).log)
    decreases |events|
  {
    if events != [] {
      StepIsNumbered(sys, events[0]);
      RunIsNumbered(Step(sys, events[0]), events[1..]);
    }
  }

  lemma StepIsNumbered(sys: Sys, event: Event)
    requires Numbered(sys.log)
    ensures Numbered(Step(sys, event).log)
  {
    match event
    case NodeDone(plan, exec) => LoggedIsNumbered(sys, EntryOf(NodeTurn(sys.node, sys.checkpoint, plan, exec)));
    case Crash =>
    case CrashAfterRecord(plan, exec) => LoggedIsNumbered(sys, EntryOf(NodeTurn(sys.node, sys.checkpoint, plan, exec)));
    case Resume(inputWritten) =>
      var snapshot := RestoreOf(sys.log, sys.runId, sys.checkpoint.version);
      if snapshot.Some? && Restored(sys.checkpoint, snapshot.value).Some? {
        var r := Restored(sys.checkpoint, snapshot.value).value;
        if MarkStale(r.agent).Some? {
          LoggedIsNumbered(sys, StaleEntry(OfRun(sys.log, sys.runId), r, MarkStale(r.agent).value));
        }
      }
  }

  function EntryOf(turn: Turn): Option<Entry> {
    if turn.TurnRaises? then None else turn.entry
  }
}
