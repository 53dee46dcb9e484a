/** The recovery log and the graph checkpoint are two writes: process death between them, and resumption. */
module CrashConsistency {
  import opened Text
  import opened Lists
  import opened PlanState
  import opened PlanExecute
  import opened Durable
  import opened GraphShape
  import opened Recovery

  /** One run: its recovery log, its newest checkpoint, the node that follows it, and whether a process is at work */
  datatype Sys = Sys(runId: string, log: seq<RecoveryAttempt>, checkpoint: GraphState, node: Node, alive: bool)

  datatype Event =
    | NodeDone(plan: PlanReply, exec: ExecReply)
    | Crash
    | CrashAfterRecord(crashPlan: PlanReply, crashExec: ExecReply)
    | Resume(inputWritten: bool)

  function Start(runId: string, goal: string): Sys {
    Sys(runId, [], Fresh(goal), PlanNode, true)
  }

  function Logged(sys: Sys, entry: Option<Entry>): seq<RecoveryAttempt> {
    if entry.None? then sys.log
    else
      var e := entry.value;
      sys.log + [NewAttempt(sys.log, sys.runId, e.execution, e.update, e.recovery, e.version)]
  }

  // ----- Resumption -----

  function Overlay(s: AgentState, latest: seq<StepExecution>): Option<AgentState>
    decreases |latest|
  {
    if latest == [] then Some(s)
    else
      var t := WithExecution(s, latest[0]);
      if t.None? then None else Overlay(t.value, latest[1..])
  }

  /** The checkpointed values with what the log says about steps and files */
  function Restored(gs: GraphState, snapshot: RecoverySnapshot): Option<GraphState> {
    if snapshot.latest == [] then Some(gs)
    else
      var overlaid := Overlay(gs.agent, snapshot.latest);
      if overlaid.None? then None
      else
        Some(gs.(agent := overlaid.value, filesRead := snapshot.context.filesRead,
                 filesModified := snapshot.context.filesModified, observations := snapshot.context.observations))
  }

  /** What a resumed process records before it writes its input */
  function StaleEntry(history: seq<RecoveryAttempt>, restored: GraphState, stale: AgentState): Option<Entry> {
    var interrupted := FirstWith(stale.executions, Interrupted);
    if FirstWith(restored.agent.executions, Running).Some? && interrupted.Some? then
      var version := if history == [] then 1 else history[|history| - 1].version + 1;
      Some(Entry(interrupted.value, None, false, version))
    else None
  }

  /** Mark stale work, record it, and write the input that starts the graph over. */
  function Restarted(sys: Sys, restored: GraphState, inputWritten: bool): Sys {
    var stale := MarkStale(restored.agent);
    if stale.None? then sys
    else
      var log := Logged(sys, StaleEntry(OfRun(sys.log, sys.runId), restored, stale.value));
      if inputWritten then Sys(sys.runId, log, restored.(agent := stale.value), PlanNode, true)
      else sys.(log := log)
  }

  function Resumed(sys: Sys, inputWritten: bool): Sys {
    var snapshot := RestoreOf(sys.log, sys.runId, sys.checkpoint.version);
    if snapshot.None? then sys
    else
      var restored := Restored(sys.checkpoint, snapshot.value);
      if restored.None? || sys.checkpoint.status != Resuming then sys
      else Restarted(sys, restored.value, inputWritten)
  }

  function Step(sys: Sys, event: Event): Sys {
    match event
    case NodeDone(plan, exec) =>
      if !sys.alive || sys.node == End then sys
      else
        var turn := NodeTurn(sys.node, sys.checkpoint, plan, exec);
        if turn.TurnRaises? then sys.(alive := false)
        else Sys(sys.runId, Logged(sys, turn.entry), turn.state, NextNode(sys.node, turn.state), true)
    case Crash => sys.(alive := false)
    case CrashAfterRecord(plan, exec) =>
      if !sys.alive || sys.node == End then sys
      else
        var turn := NodeTurn(sys.node, sys.checkpoint, plan, exec);
        sys.(alive := false, log := if turn.TurnRaises? then sys.log else Logged(sys, turn.entry))
    case Resume(inputWritten) => if sys.alive then sys else Resumed(sys, inputWritten)
  }

  function Run(sys: Sys, events: seq<Event>): Sys
    decreases |events|
  {
    if events == [] then sys else Run(Step(sys, events[0]), events[1..])
  }

  // ----- The invariant -----

  function AllDurable(es: seq<StepExecution>): seq<StepExecution> {
    if es == [] then [] else AllDurable(es[..|es| - 1]) + [DurableExecution(es[|es| - 1])]
  }

  ghost predicate Ascending(log: seq<RecoveryAttempt>) {
    forall i, j | 0 <= i < j < |log| :: NoLater(log[i], log[j])
  }

  predicate Mine(log: seq<RecoveryAttempt>, runId: string) {
    forall i | 0 <= i < |log| :: log[i].runId == runId
  }

  /** The log and the checkpoint tell the same story. */
  predicate Agree(log: seq<RecoveryAttempt>, gs: GraphState) {
    && LatestOf(log) == AllDurable(gs.agent.executions)
    && ContextOf(log).filesRead == gs.filesRead
    && ContextOf(log).filesModified == gs.filesModified
  }

  /** The log ends at the checkpoint's version. */
  predicate SameVersion(log: seq<RecoveryAttempt>, gs: GraphState) {
    log == [] || log[|log| - 1].version == gs.version
  }

  ghost predicate Inv(sys: Sys) {
    && Shape(sys.node, sys.checkpoint)
    && Ascending(sys.log) && Mine(sys.log, sys.runId)
    && (sys.log != [] ==> sys.checkpoint.version <= sys.log[|sys.log| - 1].version <= sys.checkpoint.version + 1)
    && (sys.alive || SameVersion(sys.log, sys.checkpoint) ==> Agree(sys.log, sys.checkpoint))
  }

  // ----- Log and list updates correspond -----

  lemma {:induction false} AllDurableIs(es: seq<StepExecution>)
    ensures |AllDurable(es)| == |es|
    ensures forall i | 0 <= i < |es| :: AllDurable(es)[i] == DurableExecution(es[i])
  {
    if es != [] {
      AllDurableIs(es[..|es| - 1]);
    }
  }

  lemma {:induction false} AssignNew(latest: seq<StepExecution>, e: StepExecution)
    requires Absent(latest, KeyOf(e))
    ensures Assign(latest, e) == latest + [e]
  {
    if latest != [] {
      AssignNew(latest[1..], e);
      assert latest == [latest[0]] + latest[1..];
    }
  }

  lemma {:induction false} AssignLast(front: seq<StepExecution>, last: StepExecution, e: StepExecution)
    requires KeyOf(last) == KeyOf(e)
    requires Absent(front, KeyOf(e))
    ensures Assign(front + [last], e) == front + [e]
  {
    var all := front + [last];
    if front != [] {
      assert all[0] == front[0] && all[1..] == front[1..] + [last];
      AssignLast(front[1..], last, e);
      assert front + [e] == [front[0]] + (front[1..] + [e]);
    } else {
      assert all[1..] == [];
    }
  }

  lemma AllDurableAppend(es: seq<StepExecution>, e: StepExecution)
    ensures AllDurable(es + [e]) == AllDurable(es) + [DurableExecution(e)]
  {
    assert (es + [e])[..|es|] == es;
  }

  lemma DurableKeysDiffer(es: seq<StepExecution>, key: Key)
    requires Absent(es, key)
    ensures Absent(AllDurable(es), key)
  {
    AllDurableIs(es);
  }

  lemma AssignIsPutNew(es: seq<StepExecution>, e: StepExecution)
    requires Absent(es, KeyOf(e))
    ensures Assign(AllDurable(es), DurableExecution(e)) == AllDurable(Put(es, e))
  {
    PutNew(es, e);
    DurableKeysDiffer(es, KeyOf(e));
    AssignNew(AllDurable(es), DurableExecution(e));
    AllDurableAppend(es, e);
  }

  lemma AssignIsPutLast(all: seq<StepExecution>, front: seq<StepExecution>, last: StepExecution, e: StepExecution)
    requires all == front + [last] && UniqueKeys(all) && KeyOf(last) == KeyOf(e)
    ensures Assign(AllDurable(all), DurableExecution(e)) == AllDurable(Put(all, e))
  {
    forall i | 0 <= i < |front|
      ensures KeyOf(front[i]) != KeyOf(e)
    {
      assert KeyOf(all[i]) != KeyOf(all[|front|]);
    }
    PutLast(front, last, e);
    AllDurableAppend(front, last);
    AllDurableAppend(front, e);
    DurableKeysDiffer(front, KeyOf(e));
    AssignLast(AllDurable(front), DurableExecution(last), DurableExecution(e));
  }

  /** Recording a new step or the newest one changes the log's projection and the list alike. */
  lemma AssignIsPut(es: seq<StepExecution>, e: StepExecution)
    requires UniqueKeys(es)
    requires Absent(es, KeyOf(e)) || Newest(es, KeyOf(e))
    ensures Assign(AllDurable(es), DurableExecution(e)) == AllDurable(Put(es, e))
  {
    if Newest(es, KeyOf(e)) {
      AssignIsPutLast(es, es[..|es| - 1], es[|es| - 1], e);
    } else {
      AssignIsPutNew(es, e);
    }
  }

  // ----- A node's turn -----

  lemma LogGrows(log: seq<RecoveryAttempt>, a: RecoveryAttempt)
    ensures LatestOf(log + [a]) == Assign(LatestOf(log), a.execution)
    ensures ContextOf(log + [a]) == if Contributes(a) then Merged(ContextOf(log), a.update.value) else ContextOf(log)
  {
    assert (log + [a])[..|log|] == log;
  }

  /** A turn without a record leaves everything that the log tells unchanged. */
  lemma SilentTurn(node: Node, gs: GraphState, plan: PlanReply, exec: ExecReply)
    requires NodeTurn(node, gs, plan, exec).Turn? && NodeTurn(node, gs, plan, exec).entry.None?
    ensures var next := NodeTurn(node, gs, plan, exec).state;
      && next.agent.executions == gs.agent.executions && next.version == gs.version
      && next.filesRead == gs.filesRead && next.filesModified == gs.filesModified
  {
  }

  /** A recorded turn moves log and checkpoint alike. */
  lemma RecordedTurn(node: Node, gs: GraphState, plan: PlanReply, exec: ExecReply,
                     log: seq<RecoveryAttempt>, a: RecoveryAttempt)
    requires Shape(node, gs) && Agree(log, gs)
    requires NodeTurn(node, gs, plan, exec).Turn? && NodeTurn(node, gs, plan, exec).entry.Some?
    requires var e := NodeTurn(node, gs, plan, exec).entry.value;
      a.execution == DurableExecution(e.execution) && a.update == e.update
    ensures NodeTurn(node, gs, plan, exec).entry.value.version == gs.version + 1
    ensures NodeTurn(node, gs, plan, exec).state.version == gs.version + 1
    ensures Agree(log + [a], NodeTurn(node, gs, plan, exec).state)
  {
    assert node == MarkRunning || node == Execute;
    var e := NodeTurn(node, gs, plan, exec).entry.value.execution;
    assert Assign(AllDurable(gs.agent.executions), DurableExecution(e)) == AllDurable(Put(gs.agent.executions, e)) by {
      NextIsNewOrLast(node, gs);
      AssignIsPut(gs.agent.executions, e);
    }
    LogGrows(log, a);
  }

  // ----- What restoring accepts -----

  lemma {:induction false} OfRunAll(log: seq<RecoveryAttempt>, runId: string)
    requires Mine(log, runId)
    ensures OfRun(log, runId) == log
  {
    if log != [] {
      OfRunAll(log[..|log| - 1], runId);
    }
  }

  /** Restoring succeeds exactly when the log ends at the checkpoint's version; it then sees the whole log. */
  lemma RestoreIs(log: seq<RecoveryAttempt>, runId: string, version: nat)
    requires Mine(log, runId) && Ascending(log)
    ensures RestoreOf(log, runId, version) ==
      if log == [] then Some(RecoverySnapshot([], [], EMPTY_CONTEXT, version))
      else if log[|log| - 1].version != version then None
      else Some(SnapshotOf(log, version))
  {
    OfRunAll(log, runId);
    SortedIsFixed(log, NoLater);
  }

  lemma {:induction false} WithoutFirst(first: StepExecution, others: seq<StepExecution>)
    requires Absent(others, KeyOf(first))
    ensures Without([first] + others, KeyOf(first)) == others
  {
    var all := [first] + others;
    if others != [] {
      var n := |others| - 1;
      assert all[..|all| - 1] == [first] + others[..n];
      WithoutFirst(first, others[..n]);
      assert others == others[..n] + [others[n]];
    } else {
      assert all[..0] == [];
    }
  }

  lemma AbsentElsewhere(first: StepExecution, others: seq<StepExecution>)
    requires UniqueKeys([first] + others)
    ensures Absent(others, KeyOf(first)) && UniqueKeys(others)
  {
    var all := [first] + others;
    forall i | 0 <= i < |others|
      ensures KeyOf(others[i]) != KeyOf(first)
    {
      assert KeyOf(all[0]) != KeyOf(all[i + 1]);
    }
    forall i, j | 0 <= i < j < |others|
      ensures KeyOf(others[i]) != KeyOf(others[j])
    {
      assert KeyOf(all[i + 1]) != KeyOf(all[j + 1]);
    }
  }

  lemma OverlayStep(s: AgentState, e: StepExecution, others: seq<StepExecution>)
    requires ValidState(s) && s.executions == [e] + others
    ensures WithExecution(s, DurableExecution(e)) == Some(s.(executions := others + [DurableExecution(e)]))
  {
    AbsentElsewhere(e, others);
    WithoutFirst(e, others);
    assert s.executions[0] == e;
    assert Placed(s.plans, s.executions[0]);
    PutIsValid(s, DurableExecution(e));
  }

  lemma OverlayHead(s: AgentState, ds: seq<StepExecution>, t: AgentState)
    requires ds != [] && WithExecution(s, ds[0]) == Some(t)
    ensures Overlay(s, ds) == Overlay(t, ds[1..])
  {
  }

  /** Overlaying the durable executions one by one rotates the list once around, order included. */
  lemma {:induction false} OverlayRotates(s: AgentState, rest: seq<StepExecution>, done: seq<StepExecution>,
                                          ds: seq<StepExecution>)
    requires ValidState(s) && s.executions == rest + done
    requires |ds| == |rest| && forall i | 0 <= i < |ds| :: ds[i] == DurableExecution(rest[i])
    ensures Overlay(s, ds) == Some(s.(executions := done + ds))
    decreases |rest|
  {
    if rest == [] {
      assert rest + done == done && done + ds == done;
    } else {
      Rotation(rest, done, ds);
      OverlayStep(s, rest[0], rest[1..] + done);
      var t := s.(executions := rest[1..] + (done + [ds[0]]));
      OverlayHead(s, ds, t);
      OverlayRotates(t, rest[1..], done + [ds[0]], ds[1..]);
    }
  }

  lemma Rotation<T>(rest: seq<T>, done: seq<T>, ds: seq<T>)
    requires rest != [] && ds != []
    ensures rest + done == [rest[0]] + (rest[1..] + done)
    ensures rest[1..] + done + [ds[0]] == rest[1..] + (done + [ds[0]])
    ensures done + [ds[0]] + ds[1..] == done + ds
  {
  }

  /** `r` is checkpoint `gs` again, but for evidence that does not outlive its step and the observations. */
  predicate Reproduces(gs: GraphState, r: GraphState) {
    && r.agent == gs.agent.(executions := AllDurable(gs.agent.executions))
    && r.filesRead == gs.filesRead && r.filesModified == gs.filesModified
    && r.status == gs.status && r.version == gs.version
  }

  /** Whenever the log and the checkpoint agree, restoring reproduces the checkpoint. */
  lemma RestoredReproduces(log: seq<RecoveryAttempt>, gs: GraphState)
    requires ValidState(gs.agent) && Agree(log, gs)
    ensures Restored(gs, SnapshotOf(log, gs.version)).Some?
    ensures Reproduces(gs, Restored(gs, SnapshotOf(log, gs.version)).value)
  {
    var es := gs.agent.executions;
    AllDurableIs(es);
    assert es + [] == es && [] + AllDurable(es) == AllDurable(es);
    OverlayRotates(gs.agent, es, [], AllDurable(es));
  }

  // ----- Durable copies keep the shape -----

  lemma {:induction false} FindDurable(es: seq<StepExecution>, ds: seq<StepExecution>, key: Key)
    requires |ds| == |es| && forall i | 0 <= i < |ds| :: ds[i] == DurableExecution(es[i])
    ensures Find(ds, key) == if Find(es, key).None? then None else Some(DurableExecution(Find(es, key).value))
  {
    if es != [] && KeyOf(es[0]) != key {
      FindDurable(es[1..], ds[1..], key);
    }
  }

  lemma {:induction false} FirstOpenDurable(p: Plan, es: seq<StepExecution>, ds: seq<StepExecution>, i: nat)
    requires i <= |p.steps|
    requires |ds| == |es| && forall k | 0 <= k < |ds| :: ds[k] == DurableExecution(es[k])
    ensures FirstOpen(p, ds, i) == FirstOpen(p, es, i)
    decreases |p.steps| - i
  {
    if i < |p.steps| {
      FindDurable(es, ds, StepKey(p, i));
      FirstOpenDurable(p, es, ds, i + 1);
    }
  }

  lemma StatusDurable(es: seq<StepExecution>, ds: seq<StepExecution>, key: Key, status: Status)
    requires |ds| == |es| && forall i | 0 <= i < |ds| :: ds[i] == DurableExecution(es[i])
    ensures HasStatus(ds, key, status) == HasStatus(es, key, status)
  {
    FindDurable(es, ds, key);
  }

  lemma UntouchedDurable(p: Plan, es: seq<StepExecution>, ds: seq<StepExecution>, c: nat)
    requires |ds| == |es| && forall i | 0 <= i < |ds| :: ds[i] == DurableExecution(es[i])
    requires Untouched(p, es, c)
    ensures Untouched(p, ds, c)
  {
    forall k: nat | c < k < |p.steps|
      ensures Find(ds, StepKey(p, k)) == None
    {
      FindDurable(es, ds, StepKey(p, k));
    }
  }

  lemma SupersededDurable(p: Plan, es: seq<StepExecution>, ds: seq<StepExecution>)
    requires |ds| == |es| && forall i | 0 <= i < |ds| :: ds[i] == DurableExecution(es[i])
    requires Superseded(p, es)
    ensures Superseded(p, ds)
  {
    var c := FirstOpen(p, es, 0);
    FirstOpenDurable(p, es, ds, 0);
    StatusDurable(es, ds, StepKey(p, c), Failed);
    UntouchedDurable(p, es, ds, c);
  }

  lemma LatestShapeDurable(p: Plan, es: seq<StepExecution>, ds: seq<StepExecution>, node: Node)
    requires |ds| == |es| && forall i | 0 <= i < |ds| :: ds[i] == DurableExecution(es[i])
    requires LatestShape(p, es, node)
    ensures LatestShape(p, ds, node)
  {
    var c := FirstOpen(p, es, 0);
    FirstOpenDurable(p, es, ds, 0);
    if c < |p.steps| {
      FindDurable(es, ds, StepKey(p, c));
      UntouchedDurable(p, es, ds, c);
    }
  }

  lemma AnyFailedDurable(p: Plan, es: seq<StepExecution>, ds: seq<StepExecution>)
    requires |ds| == |es| && forall i | 0 <= i < |ds| :: ds[i] == DurableExecution(es[i])
    ensures AnyFailed(p, ds) == AnyFailed(p, es)
  {
    forall k: nat | k < |p.steps|
      ensures HasStatus(ds, StepKey(p, k), Failed) == HasStatus(es, StepKey(p, k), Failed)
    {
      StatusDurable(es, ds, StepKey(p, k), Failed);
    }
  }

  lemma ValidDurable(s: AgentState, ds: seq<StepExecution>)
    requires ValidState(s) && |ds| == |s.executions|
    requires forall i | 0 <= i < |ds| :: ds[i] == DurableExecution(s.executions[i])
    ensures ValidState(s.(executions := ds))
  {
    forall i, j | 0 <= i < j < |ds|
      ensures KeyOf(ds[i]) != KeyOf(ds[j])
    {
      assert KeyOf(s.executions[i]) != KeyOf(s.executions[j]);
    }
    forall i | 0 <= i < |ds|
      ensures Placed(s.plans, ds[i])
    {
      assert Placed(s.plans, s.executions[i]);
    }
  }

  lemma FitsDurable(node: Node, gs: GraphState, r: GraphState)
    requires Fits(node, gs) && Reproduces(gs, r)
    ensures Fits(node, r)
  {
    var es, ds := gs.agent.executions, r.agent.executions;
    AllDurableIs(es);
    ValidDurable(gs.agent, ds);
    if gs.agent.plans != [] {
      FirstOpenDurable(Latest(gs.agent), es, ds, 0);
      AnyFailedDurable(Latest(gs.agent), es, ds);
    }
  }

  lemma ShapeDurable(node: Node, gs: GraphState, r: GraphState)
    requires Shape(node, gs) && Reproduces(gs, r)
    ensures Shape(node, r)
  {
    var s, es, ds := gs.agent, gs.agent.executions, r.agent.executions;
    AllDurableIs(es);
    FitsDurable(node, gs, r);
    if s.plans != [] {
      LatestShapeDurable(Latest(s), es, ds, node);
    }
    forall i: nat | i + 1 < |s.plans|
      ensures SupersededAt(r.agent, i)
    {
      assert SupersededAt(s, i);
      SupersededDurable(s.plans[i], es, ds);
    }
  }
}
