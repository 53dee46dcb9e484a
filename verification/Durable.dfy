/** The checkpointed graph: one turn of each node, the edges, and the whole run. */
module Durable {
  import opened Text
  import opened Lists
  import opened PlanState
  import opened PlanExecute

  datatype Node = PlanNode | MarkRunning | Execute | Replan | Complete | End
  datatype RunStatus = Resuming | CompletedStatus | BlockedStatus

  datatype GraphState = GraphState(
    agent: AgentState, status: RunStatus,
    filesRead: seq<string>, filesModified: seq<string>, observations: seq<string>, version: nat)

  /** What a node hands to the recovery log */
  datatype Entry = Entry(execution: StepExecution, update: Option<ContextUpdate>, recovery: bool, version: nat)

  datatype Turn = TurnRaises | Turn(state: GraphState, entry: Option<Entry>)

  function Fresh(goal: string): GraphState {
    GraphState(AgentState(goal, [], [], None), Resuming, [], [], [], 0)
  }

  // ----- Context -----

  function Attributed(key: Key, observations: seq<string>): seq<string> {
    if observations == [] then []
    else
      ["revision " + Decimal(key.0) + ", step " + key.1 + ": " + observations[0]] + Attributed(key, observations[1..])
  }

  function MergeContext(gs: GraphState, u: ContextUpdate, key: Key): GraphState {
    gs.(filesRead := AppendUnique(gs.filesRead, u.filesRead),
        filesModified := AppendUnique(gs.filesModified, u.filesModified),
        observations := gs.observations + Attributed(key, u.observations))
  }

  // ----- Nodes -----

  function PlanTurn(gs: GraphState, reply: PlanReply): Turn {
    if gs.agent.plans != [] then Turn(gs, None)
    else if reply.PlanRaises? || WithPlan(gs.agent, reply.plan).None? then TurnRaises
    else Turn(gs.(agent := WithPlan(gs.agent, reply.plan).value), None)
  }

  function MarkRunningTurn(gs: GraphState): Turn {
    match NextStep(gs.agent)
    case None => TurnRaises
    case Some(key) =>
      if HasStatus(gs.agent.executions, key, Failed) then Turn(gs, None)
      else
        var e := Marked(key, Running, None);
        var updated := WithExecution(gs.agent, e);
        if updated.None? then TurnRaises
        else
          Turn(gs.(agent := updated.value, version := gs.version + 1), Some(Entry(e, None, false, gs.version + 1)))
  }

  function ExecuteTurn(gs: GraphState, reply: ExecReply): Turn {
    match NextStep(gs.agent)
    case None => Turn(gs.(status := CompletedStatus), None)
    case Some(key) =>
      if reply.ExecRaises? || WithExecution(gs.agent, Execution(key, reply.outcome)).None? then TurnRaises
      else
        var o := reply.outcome;
        var next := gs.(agent := WithExecution(gs.agent, Execution(key, o)).value, version := gs.version + 1);
        var update := if o.completed then Some(o.update) else None;
        Turn(if o.completed then MergeContext(next, o.update, key) else next,
             Some(Entry(Execution(key, o), update, gs.status == Resuming, gs.version + 1)))
  }

  function ReplanTurn(gs: GraphState, reply: PlanReply): Turn {
    if gs.agent.plans == [] then TurnRaises
    else if Latest(gs.agent).revision == 3 then Turn(gs.(status := BlockedStatus), None)
    else if reply.PlanRaises? || WithPlan(gs.agent, reply.plan).None? then TurnRaises
    else Turn(gs.(agent := WithPlan(gs.agent, reply.plan).value), None)
  }

  function NodeTurn(node: Node, gs: GraphState, plan: PlanReply, exec: ExecReply): Turn {
    match node
    case PlanNode => PlanTurn(gs, plan)
    case MarkRunning => MarkRunningTurn(gs)
    case Execute => ExecuteTurn(gs, exec)
    case Replan => ReplanTurn(gs, plan)
    case Complete => Turn(gs.(status := CompletedStatus), None)
    case End => Turn(gs, None)
  }

  // ----- Edges -----

  predicate LastFailed(s: AgentState) {
    s.executions != [] && s.executions[|s.executions| - 1].status == Failed
  }

  /** The node after `node`, chosen on the state that `node` left */
  function NextNode(node: Node, gs: GraphState): Node {
    match node
    case PlanNode => if NextStep(gs.agent).None? then Complete else MarkRunning
    case MarkRunning =>
      if LastFailed(gs.agent) then Replan else if NextStep(gs.agent).None? then Complete else Execute
    case Execute =>
      if LastFailed(gs.agent) then Replan else if NextStep(gs.agent).None? then Complete else MarkRunning
    case Replan => if gs.status == BlockedStatus then End else MarkRunning
    case Complete => End
    case End => End
  }

  // ----- Where the graph can stand -----

  /** The first open step has failed, and nothing was recorded after it. */
  predicate FailedLast(s: AgentState) {
    LastFailed(s) && NextStep(s) == Some(KeyOf(s.executions[|s.executions| - 1]))
  }

  predicate AllCompleted(s: AgentState) {
    s.plans != [] && !HasFailed(s) && NextStep(s) == None
  }

  predicate Fits(node: Node, gs: GraphState) {
    var s := gs.agent;
    && ValidState(s) && (node != End ==> gs.status == Resuming)
    && match node
       case PlanNode => s.plans == [] || !HasFailed(s) || FailedLast(s)
       case MarkRunning => s.plans != [] && NextStep(s).Some? && (!HasFailed(s) || FailedLast(s))
       case Execute => s.plans != [] && NextStep(s).Some? && !HasFailed(s)
       case Replan => HasFailed(s)
       case Complete => AllCompleted(s)
       case End =>
         || (gs.status == CompletedStatus && AllCompleted(s))
         || (gs.status == BlockedStatus && HasFailed(s) && Latest(s).revision == 3)
  }

  // ----- The state under marks -----

  lemma WithoutWithout(es: seq<StepExecution>, key: Key)
    ensures Without(Without(es, key), key) == Without(es, key)
  {
    WithoutMembers(es, key);
    WithoutAbsent(Without(es, key), key);
  }

  lemma PutTwice(es: seq<StepExecution>, a: StepExecution, b: StepExecution)
    requires KeyOf(a) == KeyOf(b)
    ensures Put(Put(es, a), b) == Put(es, b)
  {
    var key := KeyOf(a);
    var w := Without(es, key);
    var p := w + [a];
    assert p[..|p| - 1] == w && p[|p| - 1] == a;
    assert Without(p, key) == w by {
      WithoutWithout(es, key);
      assert Without(p, key) == Without(w, key) + [];
    }
  }

  /** The next step of a plan is one of its steps, the first that is not completed. */
  lemma NextStepOf(s: AgentState, i: nat)
    requires s.plans != [] && NextStep(s).Some? && i == FirstOpen(Latest(s), s.executions, 0)
    ensures i < |Latest(s).steps| && NextStep(s) == Some(StepKey(Latest(s), i))
    ensures CompletedUpTo(Latest(s), s.executions, i)
    ensures !HasStatus(s.executions, StepKey(Latest(s), i), Completed)
  {
    FirstOpenIs(Latest(s), s.executions, 0);
  }

  /** Recording a status that settles nothing keeps the next step and the absence of failures. */
  lemma MarkKeepsNext(s: AgentState, e: StepExecution, t: AgentState)
    requires ValidState(s) && s.plans != [] && NextStep(s) == Some(KeyOf(e)) && !HasFailed(s)
    requires e.status != Completed && e.status != Failed
    requires t == s.(executions := Put(s.executions, e))
    ensures !HasFailed(t) && NextStep(t) == NextStep(s)
    ensures UnsettledSteps(t) == UnsettledSteps(s)
  {
    var p := Latest(s);
    var i := FirstOpen(p, s.executions, 0);
    NextStepOf(s, i);
    LatestFits(s);
    forall k: nat | k < |p.steps|
      ensures HasStatus(t.executions, StepKey(p, k), Completed) == HasStatus(s.executions, StepKey(p, k), Completed)
      ensures !HasStatus(t.executions, StepKey(p, k), Failed)
    {
      ExecutedStatus(p, s.executions, i, e, k, Completed);
      ExecutedStatus(p, s.executions, i, e, k, Failed);
    }
    NextStepIs(t, i);
  }

  lemma MarkKeepsRun(s: AgentState, e: StepExecution, t: AgentState, pc: nat, ec: nat,
                     planner: Planner, executor: Executor)
    requires ValidState(s) && s.plans != [] && NextStep(s) == Some(KeyOf(e)) && !HasFailed(s)
    requires e.status != Completed && e.status != Failed && WithExecution(s, e) == Some(t)
    ensures RunFrom(t, pc, ec, planner, executor) == RunFrom(s, pc, ec, planner, executor)
  {
    MarkKeepsNext(s, e, t);
    if executor(ec).Executed? {
      PutTwice(s.executions, e, Execution(KeyOf(e), executor(ec).outcome));
    }
  }

  // ----- Every turn keeps the graph where it can stand -----

  lemma RecordedRevision(s: AgentState, e: Option<StepExecution>)
    requires ValidState(s) && (e.Some? ==> e.value in s.executions)
    ensures e.Some? ==> 1 <= e.value.revision <= |s.plans|
  {
    if e.Some? {
      var i :| 0 <= i < |s.executions| && s.executions[i] == e.value;
      assert Placed(s.plans, s.executions[i]);
      var r, j :| 0 <= r < |s.plans| && 0 <= j < |s.plans[r].steps|
        && (s.plans[r].revision, s.plans[r].steps[j].id) == KeyOf(e.value);
      assert PlanState.PlanFits(s.goal, s.plans, r);
    }
  }

  /** No step of a new revision has been executed. */
  lemma NewRevisionIsOpen(s: AgentState, p: Plan, t: AgentState)
    requires ValidState(s) && WithPlan(s, p) == Some(t)
    ensures !HasFailed(t) && NextStep(t).Some?
    ensures forall k: nat | k < |p.steps| :: Find(t.executions, StepKey(p, k)) == None
  {
    LatestFits(t);
    forall k: nat | k < |p.steps|
      ensures Find(t.executions, StepKey(p, k)).None?
    {
      FindFinds(t.executions, StepKey(p, k));
      RecordedRevision(s, Find(t.executions, StepKey(p, k)));
    }
    FirstOpenIs(p, t.executions, 0);
  }

  lemma PlanKeepsFits(gs: GraphState, reply: PlanReply)
    requires Fits(PlanNode, gs) && PlanTurn(gs, reply).Turn?
    ensures var next := PlanTurn(gs, reply).state; Fits(NextNode(PlanNode, next), next)
  {
    if gs.agent.plans == [] {
      NewRevisionIsOpen(gs.agent, reply.plan, PlanTurn(gs, reply).state.agent);
    }
  }

  lemma ReplanKeepsFits(gs: GraphState, reply: PlanReply)
    requires Fits(Replan, gs) && ReplanTurn(gs, reply).Turn?
    ensures var next := ReplanTurn(gs, reply).state; Fits(NextNode(Replan, next), next)
  {
    if Latest(gs.agent).revision != 3 {
      NewRevisionIsOpen(gs.agent, reply.plan, ReplanTurn(gs, reply).state.agent);
    }
  }

  /** The step that a running mark or an outcome is recorded for is planned, so recording it succeeds. */
  lemma NextStepIsPlanned(s: AgentState)
    requires ValidState(s) && NextStep(s).Some?
    ensures s.plans != [] && HasStep(s.plans, NextStep(s).value)
    ensures 1 <= NextStep(s).value.0 <= 3 && !Blank(NextStep(s).value.1)
  {
    var i := FirstOpen(Latest(s), s.executions, 0);
    NextStepOf(s, i);
    LatestFits(s);
    assert ValidStep(Latest(s).steps[i]);
    assert (s.plans[|s.plans| - 1].revision, s.plans[|s.plans| - 1].steps[i].id) == NextStep(s).value;
  }

  lemma MarkRunningKeepsFits(gs: GraphState)
    requires Fits(MarkRunning, gs)
    ensures MarkRunningTurn(gs).Turn?
    ensures var next := MarkRunningTurn(gs).state; Fits(NextNode(MarkRunning, next), next)
  {
    var s := gs.agent;
    var key := NextStep(s).value;
    if HasStatus(s.executions, key, Failed) {
      NextStepOf(s, FirstOpen(Latest(s), s.executions, 0));
      assert HasFailed(s);
    } else {
      if FailedLast(s) {
        FindIs(s.executions, s.executions[|s.executions| - 1]);
      }
      var e := Marked(key, Running, None);
      NextStepIsPlanned(s);
      PutIsValid(s, e);
      MarkKeepsNext(s, e, MarkRunningTurn(gs).state.agent);
    }
  }

  lemma ExecuteKeepsFits(gs: GraphState, reply: ExecReply)
    requires Fits(Execute, gs) && ExecuteTurn(gs, reply).Turn?
    ensures var next := ExecuteTurn(gs, reply).state; Fits(NextNode(Execute, next), next)
  {
    var s, t := gs.agent, ExecuteTurn(gs, reply).state.agent;
    var i := FirstOpen(Latest(s), s.executions, 0);
    NextStepOf(s, i);
    StateTaken(s, i, reply.outcome, t);
    if reply.outcome.completed {
      FirstOpenIs(Latest(t), t.executions, 0);
    }
  }

  lemma TurnKeepsFits(node: Node, gs: GraphState, plan: PlanReply, exec: ExecReply)
    requires Fits(node, gs) && NodeTurn(node, gs, plan, exec).Turn?
    ensures var next := NodeTurn(node, gs, plan, exec).state; Fits(NextNode(node, next), next)
  {
    match node
    case PlanNode => PlanKeepsFits(gs, plan);
    case MarkRunning => MarkRunningKeepsFits(gs);
    case Execute => ExecuteKeepsFits(gs, exec);
    case Replan => ReplanKeepsFits(gs, plan);
    case Complete =>
    case End =>
  }

  // ----- The graph run -----

  function Rank(node: Node): nat {
    match node
    case PlanNode => 5
    case MarkRunning => 4
    case Execute => 3
    case Replan => 2
    case Complete => 1
    case End => 0
  }

  /** How many steps of the latest plan can still be settled before the graph plans again */
  function Unsettled(s: AgentState): nat {
    if s.plans == [] || HasFailed(s) then 0 else |UnsettledSteps(s)|
  }

  lemma SmallerSet(a: set<nat>, b: set<nat>)
    requires a < b
    ensures |a| < |b|
  {
    assert |b - a| > 0 by {
      var x :| x in b && x !in a;
      assert x in b - a;
    }
    assert b == a + (b - a);
  }

  /** Every turn lowers (revisions left, steps left, distance to the end). */
  lemma TurnFalls(node: Node, gs: GraphState, plan: PlanReply, exec: ExecReply)
    requires Fits(node, gs) && node != End && NodeTurn(node, gs, plan, exec).Turn?
    ensures var next := NodeTurn(node, gs, plan, exec).state; var t, n := next.agent, NextNode(node, next);
      && |gs.agent.plans| <= |t.plans| <= 3
      && (|t.plans| == |gs.agent.plans| ==>
            || Unsettled(t) < Unsettled(gs.agent)
            || (Unsettled(t) == Unsettled(gs.agent) && Rank(n) < Rank(node)))
  {
    var s, next := gs.agent, NodeTurn(node, gs, plan, exec).state;
    TurnKeepsFits(node, gs, plan, exec);
    PlansAreBounded(next.agent);
    if node == MarkRunning && !HasStatus(s.executions, NextStep(s).value, Failed) {
      MarkFalls(gs);
    } else if node == Execute {
      ExecuteFalls(gs, exec);
    }
  }

  lemma TurnsKeepFits(node: Node, gs: GraphState, plan: PlanReply, exec: ExecReply)
    requires Fits(node, gs) && node != End
    ensures var turn := NodeTurn(node, gs, plan, exec); turn.Turn? ==>
      var t, n := turn.state.agent, NextNode(node, turn.state);
      && Fits(n, turn.state)
      && |gs.agent.plans| <= |t.plans| <= 3
      && (|t.plans| == |gs.agent.plans| ==>
            || Unsettled(t) < Unsettled(gs.agent)
            || (Unsettled(t) == Unsettled(gs.agent) && Rank(n) < Rank(node)))
  {
    if NodeTurn(node, gs, plan, exec).Turn? {
      TurnKeepsFits(node, gs, plan, exec);
      TurnFalls(node, gs, plan, exec);
    }
  }

  lemma MarkFalls(gs: GraphState)
    requires Fits(MarkRunning, gs) && !HasStatus(gs.agent.executions, NextStep(gs.agent).value, Failed)
    ensures MarkRunningTurn(gs).Turn?
    ensures var next := MarkRunningTurn(gs).state;
      next.agent.plans == gs.agent.plans && Unsettled(next.agent) == Unsettled(gs.agent)
    ensures NextNode(MarkRunning, MarkRunningTurn(gs).state) == Execute
  {
    MarkRunningKeepsFits(gs);
    var s := gs.agent;
    if FailedLast(s) {
      FindIs(s.executions, s.executions[|s.executions| - 1]);
    }
    MarkKeepsNext(s, Marked(NextStep(s).value, Running, None), MarkRunningTurn(gs).state.agent);
  }

  lemma ExecuteFalls(gs: GraphState, exec: ExecReply)
    requires Fits(Execute, gs) && ExecuteTurn(gs, exec).Turn?
    ensures var next := ExecuteTurn(gs, exec).state;
      next.agent.plans == gs.agent.plans && Unsettled(next.agent) < Unsettled(gs.agent)
  {
    var s, t := gs.agent, ExecuteTurn(gs, exec).state.agent;
    var i := FirstOpen(Latest(s), s.executions, 0);
    NextIsUnsettled(s);
    NextStepOf(s, i);
    SettlingFalls(s, i, Execution(StepKey(Latest(s), i), exec.outcome));
    SmallerSet(UnsettledSteps(t), UnsettledSteps(s));
  }

  /** The whole run of the graph from `node`, with the calls it makes */
  ghost function GraphRun(node: Node, gs: GraphState, pc: nat, ec: nat, planner: Planner, executor: Executor): Trace
    requires Fits(node, gs)
    decreases 3 - |gs.agent.plans|, Unsettled(gs.agent), Rank(node), 0
  {
    var s := gs.agent;
    PlansAreBounded(s);
    if node == End then Trace(if gs.status == BlockedStatus then BlockedRun(s) else CompletedRun(s), [], [])
    else
      TurnsKeepFits(node, gs, planner(pc), executor(ec));
      match node
      case PlanNode =>
        if s.plans == [] then GraphRest(node, PlanTurn(gs, planner(pc)), [s], [], pc + 1, ec, planner, executor)
        else GraphRest(node, Turn(gs, None), [], [], pc, ec, planner, executor)
      case MarkRunning => GraphRest(node, MarkRunningTurn(gs), [], [], pc, ec, planner, executor)
      case Execute =>
        GraphRest(node, ExecuteTurn(gs, executor(ec)), [], [NextStep(s).value], pc, ec + 1, planner, executor)
      case Replan =>
        if Latest(s).revision != 3 then
          GraphRest(node, ReplanTurn(gs, planner(pc)), [s], [], pc + 1, ec, planner, executor)
        else GraphRest(node, ReplanTurn(gs, PlanRaises), [], [], pc, ec, planner, executor)
      case Complete =>
        GraphRest(node, Turn(gs.(status := CompletedStatus), None), [], [], pc, ec, planner, executor)
  }

  /** The run after a turn of `node` that made these calls */
  ghost function GraphRest(node: Node, turn: Turn, planCalls: seq<AgentState>, stepCalls: seq<Key>,
                           pc: nat, ec: nat, planner: Planner, executor: Executor): Trace
    requires turn.Turn? ==> Fits(NextNode(node, turn.state), turn.state)
    decreases if turn.TurnRaises? then 0 else 3 - |turn.state.agent.plans|,
              if turn.TurnRaises? then 0 else Unsettled(turn.state.agent),
              if turn.TurnRaises? then 0 else Rank(NextNode(node, turn.state)), 1
  {
    if turn.TurnRaises? then Trace(RaisedRun, planCalls, stepCalls)
    else After(planCalls, stepCalls, GraphRun(NextNode(node, turn.state), turn.state, pc, ec, planner, executor))
  }

  // ----- The graph refines the loop -----

  lemma AfterNothing(rest: Trace)
    ensures After([], [], rest) == rest
  {
    assert [] + rest.planCalls == rest.planCalls && [] + rest.stepCalls == rest.stepCalls;
  }

  /** `turn` of a node that makes these calls is what the loop does next on the same state. */
  ghost predicate Follows(s: AgentState, turn: Turn, planCalls: seq<AgentState>, stepCalls: seq<Key>,
                          pc: nat, ec: nat, pc': nat, ec': nat, planner: Planner, executor: Executor)
    requires ValidState(s) && (turn.Turn? ==> ValidState(turn.state.agent))
  {
    RunFrom(s, pc, ec, planner, executor) ==
      if turn.TurnRaises? then Trace(RaisedRun, planCalls, stepCalls)
      else After(planCalls, stepCalls, RunFrom(turn.state.agent, pc', ec', planner, executor))
  }

  lemma PlanFollows(gs: GraphState, pc: nat, ec: nat, planner: Planner, executor: Executor)
    requires Fits(PlanNode, gs) && gs.agent.plans == []
    ensures Follows(gs.agent, PlanTurn(gs, planner(pc)), [gs.agent], [], pc, ec, pc + 1, ec, planner, executor)
  {
    RunPlans(gs.agent, pc, ec, planner, executor);
  }

  lemma SkipFollows(gs: GraphState, pc: nat, ec: nat, planner: Planner, executor: Executor)
    requires ValidState(gs.agent)
    ensures Follows(gs.agent, Turn(gs, None), [], [], pc, ec, pc, ec, planner, executor)
  {
    AfterNothing(RunFrom(gs.agent, pc, ec, planner, executor));
  }

  lemma MarkRunningFollows(gs: GraphState, pc: nat, ec: nat, planner: Planner, executor: Executor)
    requires Fits(MarkRunning, gs)
    ensures MarkRunningTurn(gs).Turn? && ValidState(MarkRunningTurn(gs).state.agent)
    ensures Follows(gs.agent, MarkRunningTurn(gs), [], [], pc, ec, pc, ec, planner, executor)
  {
    var s := gs.agent;
    MarkRunningKeepsFits(gs);
    AfterNothing(RunFrom(s, pc, ec, planner, executor));
    if !HasStatus(s.executions, NextStep(s).value, Failed) {
      if FailedLast(s) {
        FindIs(s.executions, s.executions[|s.executions| - 1]);
      }
      MarkKeepsRun(s, Marked(NextStep(s).value, Running, None), MarkRunningTurn(gs).state.agent,
                   pc, ec, planner, executor);
    }
  }

  lemma ExecuteFollows(gs: GraphState, key: Key, pc: nat, ec: nat, planner: Planner, executor: Executor)
    requires Fits(Execute, gs) && NextStep(gs.agent) == Some(key)
    ensures Follows(gs.agent, ExecuteTurn(gs, executor(ec)), [], [key], pc, ec, pc, ec + 1, planner, executor)
  {
    var i := FirstOpen(Latest(gs.agent), gs.agent.executions, 0);
    NextStepOf(gs.agent, i);
    RunExecutes(gs.agent, i, pc, ec, planner, executor);
  }

  lemma ReplanFollows(gs: GraphState, pc: nat, ec: nat, planner: Planner, executor: Executor)
    requires Fits(Replan, gs) && Latest(gs.agent).revision != 3
    ensures Follows(gs.agent, ReplanTurn(gs, planner(pc)), [gs.agent], [], pc, ec, pc + 1, ec, planner, executor)
  {
    RunPlans(gs.agent, pc, ec, planner, executor);
  }

  /** A turn that does what the loop does next, followed by a run that does what the loop does then,
      is what the loop does. */
  lemma RestAgrees(node: Node, s: AgentState, turn: Turn, planCalls: seq<AgentState>, stepCalls: seq<Key>,
                   pc: nat, ec: nat, pc': nat, ec': nat, planner: Planner, executor: Executor)
    requires ValidState(s) && (turn.Turn? ==> Fits(NextNode(node, turn.state), turn.state))
    requires Follows(s, turn, planCalls, stepCalls, pc, ec, pc', ec', planner, executor)
    requires turn.Turn? ==>
      GraphRun(NextNode(node, turn.state), turn.state, pc', ec', planner, executor)
      == RunFrom(turn.state.agent, pc', ec', planner, executor)
    ensures GraphRest(node, turn, planCalls, stepCalls, pc', ec', planner, executor)
      == RunFrom(s, pc, ec, planner, executor)
  {
  }

  /** From any place where it can stand, the graph ends like the loop, in the same state, after calling
      the planner on the same states and the executor for the same steps. */
  lemma {:induction false} GraphRefinesLoop(node: Node, gs: GraphState, pc: nat, ec: nat,
                                            planner: Planner, executor: Executor)
    requires Fits(node, gs)
    ensures GraphRun(node, gs, pc, ec, planner, executor) == RunFrom(gs.agent, pc, ec, planner, executor)
    decreases 3 - |gs.agent.plans|, Unsettled(gs.agent), Rank(node), 1
  {
    PlansAreBounded(gs.agent);
    if node != End {
      TurnsKeepFits(node, gs, planner(pc), executor(ec));
    }
    var s := gs.agent;
    match node
    case End =>
    case PlanNode =>
      if s.plans == [] {
        PlanFollows(gs, pc, ec, planner, executor);
        RestRefines(node, s, PlanTurn(gs, planner(pc)), [s], [], pc, ec, pc + 1, ec, planner, executor);
      } else {
        SkipFollows(gs, pc, ec, planner, executor);
        RestRefines(node, s, Turn(gs, None), [], [], pc, ec, pc, ec, planner, executor);
      }
    case MarkRunning =>
      MarkRunningFollows(gs, pc, ec, planner, executor);
      RestRefines(node, s, MarkRunningTurn(gs), [], [], pc, ec, pc, ec, planner, executor);
    case Execute =>
      var key := NextStep(s).value;
      ExecuteFollows(gs, key, pc, ec, planner, executor);
      RestRefines(node, s, ExecuteTurn(gs, executor(ec)), [], [key], pc, ec, pc, ec + 1, planner, executor);
    case Replan =>
      if Latest(s).revision != 3 {
        ReplanFollows(gs, pc, ec, planner, executor);
        RestRefines(node, s, ReplanTurn(gs, planner(pc)), [s], [], pc, ec, pc + 1, ec, planner, executor);
      } else {
        SkipFollows(gs.(status := BlockedStatus), pc, ec, planner, executor);
        RestRefines(node, s, Turn(gs.(status := BlockedStatus), None), [], [], pc, ec, pc, ec, planner, executor);
      }
    case Complete =>
      SkipFollows(gs.(status := CompletedStatus), pc, ec, planner, executor);
      RestRefines(node, s, Turn(gs.(status := CompletedStatus), None), [], [], pc, ec, pc, ec, planner, executor);
  }

  lemma {:induction false} RestRefines(node: Node, s: AgentState, turn: Turn,
                                       planCalls: seq<AgentState>, stepCalls: seq<Key>,
                                       pc: nat, ec: nat, pc': nat, ec': nat, planner: Planner, executor: Executor)
    requires ValidState(s) && (turn.Turn? ==> Fits(NextNode(node, turn.state), turn.state))
    requires Follows(s, turn, planCalls, stepCalls, pc, ec, pc', ec', planner, executor)
    ensures GraphRest(node, turn, planCalls, stepCalls, pc', ec', planner, executor)
      == RunFrom(s, pc, ec, planner, executor)
    decreases if turn.TurnRaises? then 0 else 3 - |turn.state.agent.plans|,
              if turn.TurnRaises? then 0 else Unsettled(turn.state.agent),
              if turn.TurnRaises? then 0 else Rank(NextNode(node, turn.state)), 2
  {
    if turn.Turn? {
      PlansAreBounded(turn.state.agent);
      GraphRefinesLoop(NextNode(node, turn.state), turn.state, pc', ec', planner, executor);
    }
    RestAgrees(node, s, turn, planCalls, stepCalls, pc, ec, pc', ec', planner, executor);
  }

  lemma FreshFits(goal: string)
    requires !Blank(goal)
    ensures Fits(PlanNode, Fresh(goal))
  {
  }

  /** How every run ends: completed with all steps of the latest plan completed, or blocked on a failed
      third revision, or by an exception. */
  lemma {:induction false} EndingIs(s: AgentState, pc: nat, ec: nat, planner: Planner, executor: Executor)
    requires ValidState(s)
    ensures match RunFrom(s, pc, ec, planner, executor).ending
      case CompletedRun(t) =>
        && ValidState(t) && t.plans != [] && !HasFailed(t)
        && CompletedUpTo(Latest(t), t.executions, |Latest(t).steps|)
      case BlockedRun(t) => ValidState(t) && |t.plans| == 3 && HasFailed(t)
      case RaisedRun => true
    decreases 3 - |s.plans|, if s.plans == [] then {} else UnsettledSteps(s)
  {
    if s.plans == [] || HasFailed(s) {
      if s.plans != [] && Latest(s).revision == 3 {
        LatestFits(s);
      } else if planner(pc).Planned? && WithPlan(s, planner(pc).plan).Some? {
        var t := WithPlan(s, planner(pc).plan).value;
        LatestFits(t);
        EndingIs(t, pc + 1, ec, planner, executor);
      }
    } else if NextStep(s).None? {
      FirstOpenIs(Latest(s), s.executions, 0);
    } else if executor(ec).Executed? {
      var t := WithExecution(s, Execution(NextStep(s).value, executor(ec).outcome));
      if t.Some? {
        NextIsUnsettled(s);
        NextStepOf(s, FirstOpen(Latest(s), s.executions, 0));
        SettlingFalls(s, FirstOpen(Latest(s), s.executions, 0), Execution(NextStep(s).value, executor(ec).outcome));
        EndingIs(t.value, pc, ec + 1, planner, executor);
      }
    }
  }
}
