/** What the step executions look like wherever the graph can stand. */
module GraphShape {
  import opened Text
  import opened PlanState
  import opened PlanExecute
  import opened Durable

  /** No step of `p` after step `i` has an execution. */
  predicate Untouched(p: Plan, es: seq<StepExecution>, i: nat) {
    forall k: nat | i < k < |p.steps| :: Find(es, StepKey(p, k)) == None
  }

  /** A completed prefix, one failed step, and nothing after it */
  predicate Superseded(p: Plan, es: seq<StepExecution>) {
    var c := FirstOpen(p, es, 0);
    c < |p.steps| && HasStatus(es, StepKey(p, c), Failed) && Untouched(p, es, c)
  }

  predicate OpenEntry(e: Option<StepExecution>, es: seq<StepExecution>, node: Node) {
    if e.None? then node != Execute && node != Replan
    else
      && es != [] && e.value == es[|es| - 1]
      && match e.value.status
         case Running => node == Execute
         case Interrupted => node == PlanNode || node == MarkRunning
         case Failed => node == PlanNode || node == MarkRunning || node == Replan || node == End
         case _ => false
  }

  /** A completed prefix, then at most one open step whose execution is the newest of all */
  predicate LatestShape(p: Plan, es: seq<StepExecution>, node: Node) {
    var c := FirstOpen(p, es, 0);
    c < |p.steps| ==> Untouched(p, es, c) && OpenEntry(Find(es, StepKey(p, c)), es, node)
  }

  predicate SupersededAt(s: AgentState, r: nat) {
    r < |s.plans| && Superseded(s.plans[r], s.executions)
  }

  predicate OldRevisions(s: AgentState) {
    forall r: nat {:trigger SupersededAt(s, r)} | r + 1 < |s.plans| :: SupersededAt(s, r)
  }

  predicate Shape(node: Node, gs: GraphState) {
    var s := gs.agent;
    && Fits(node, gs)
    && OldRevisions(s)
    && (s.plans != [] ==> LatestShape(Latest(s), s.executions, node))
  }

  // ----- Plans do not disturb each other -----

  lemma {:induction false} FirstOpenSame(p: Plan, es: seq<StepExecution>, es': seq<StepExecution>, i: nat)
    requires i <= |p.steps|
    requires forall k: nat | k < |p.steps| :: Find(es, StepKey(p, k)) == Find(es', StepKey(p, k))
    ensures FirstOpen(p, es, i) == FirstOpen(p, es', i)
    decreases |p.steps| - i
  {
    if i < |p.steps| {
      FirstOpenSame(p, es, es', i + 1);
    }
  }

  lemma SupersededSame(p: Plan, es: seq<StepExecution>, es': seq<StepExecution>)
    requires Superseded(p, es)
    requires forall k: nat | k < |p.steps| :: Find(es, StepKey(p, k)) == Find(es', StepKey(p, k))
    ensures Superseded(p, es')
  {
    FirstOpenSame(p, es, es', 0);
  }

  /** Recording an execution of the latest revision leaves the superseded revisions alone. */
  lemma OthersStaySuperseded(s: AgentState, e: StepExecution, r: nat)
    requires ValidState(s) && r + 1 < |s.plans| && e.revision == |s.plans| && SupersededAt(s, r)
    ensures SupersededAt(s.(executions := Put(s.executions, e)), r)
  {
    assert PlanState.PlanFits(s.goal, s.plans, r);
    var p := s.plans[r];
    forall k: nat | k < |p.steps|
      ensures Find(s.executions, StepKey(p, k)) == Find(Put(s.executions, e), StepKey(p, k))
    {
      FindAfterPut(s.executions, e, StepKey(p, k));
    }
    SupersededSame(p, s.executions, Put(s.executions, e));
  }

  lemma SupersededStay(s: AgentState, e: StepExecution)
    requires ValidState(s) && e.revision == |s.plans|
    requires OldRevisions(s)
    ensures OldRevisions(s.(executions := Put(s.executions, e)))
  {
    var t := s.(executions := Put(s.executions, e));
    forall r: nat | r + 1 < |s.plans|
      ensures SupersededAt(t, r)
    {
      assert SupersededAt(s, r);
      OthersStaySuperseded(s, e, r);
    }
  }

  // ----- The latest revision -----

  /** The steps of `p` once its first open step has been recorded as `e` */
  lemma RecordedOpen(p: Plan, es: seq<StepExecution>, e: StepExecution)
    requires ValidPlan(p) && UniqueKeys(es)
    requires var c := FirstOpen(p, es, 0); c < |p.steps| && KeyOf(e) == StepKey(p, c) && Untouched(p, es, c)
    ensures var c, es' := FirstOpen(p, es, 0), Put(es, e);
      && Find(es', StepKey(p, c)) == Some(e)
      && Untouched(p, es', c)
      && FirstOpen(p, es', 0) == if e.status == Completed then c + 1 else c
  {
    var c, es' := FirstOpen(p, es, 0), Put(es, e);
    FirstOpenIs(p, es, 0);
    forall k: nat | k < |p.steps|
      ensures Find(es', StepKey(p, k)) == if k == c then Some(e) else Find(es, StepKey(p, k))
    {
      FindAfterPut(es, e, StepKey(p, k));
    }
    FirstOpenUnique(p, es', if e.status == Completed then c + 1 else c);
  }

  lemma FirstOpenUnique(p: Plan, es: seq<StepExecution>, c: nat)
    requires c <= |p.steps| && CompletedUpTo(p, es, c)
    requires c < |p.steps| ==> !HasStatus(es, StepKey(p, c), Completed)
    ensures FirstOpen(p, es, 0) == c
  {
    FirstOpenIs(p, es, 0);
  }

  lemma LatestAfterRecording(p: Plan, es: seq<StepExecution>, e: StepExecution)
    requires ValidPlan(p) && UniqueKeys(es)
    requires var c := FirstOpen(p, es, 0); c < |p.steps| && KeyOf(e) == StepKey(p, c) && Untouched(p, es, c)
    ensures e.status == Completed ==> LatestShape(p, Put(es, e), MarkRunning) && LatestShape(p, Put(es, e), Complete)
    ensures e.status == Failed ==> LatestShape(p, Put(es, e), Replan)
    ensures e.status == Running ==> LatestShape(p, Put(es, e), Execute)
    ensures e.status == Interrupted ==> LatestShape(p, Put(es, e), PlanNode)
  {
    RecordedOpen(p, es, e);
  }

  /** A plan that was never executed, after a revision that failed */
  lemma ReplannedRevisions(s: AgentState, t: AgentState)
    requires ValidState(s) && s.plans != [] && OldRevisions(s) && LatestShape(Latest(s), s.executions, Replan)
    requires HasFailed(s) && |t.plans| == |s.plans| + 1 && s.plans <= t.plans && t.executions == s.executions
    ensures OldRevisions(t)
  {
    FirstOpenIs(Latest(s), s.executions, 0);
    assert Superseded(Latest(s), s.executions);
    forall r: nat | r + 1 < |t.plans|
      ensures SupersededAt(t, r)
    {
      if r + 1 < |s.plans| {
        assert SupersededAt(s, r);
      }
    }
  }

  // ----- Every turn keeps the shape -----

  lemma PlanKeepsShape(gs: GraphState, reply: PlanReply)
    requires Shape(PlanNode, gs) && PlanTurn(gs, reply).Turn?
    ensures var next := PlanTurn(gs, reply).state; Shape(NextNode(PlanNode, next), next)
  {
    PlanKeepsFits(gs, reply);
    if gs.agent.plans == [] {
      NewRevisionIsOpen(gs.agent, reply.plan, PlanTurn(gs, reply).state.agent);
    } else {
      FirstOpenIs(Latest(gs.agent), gs.agent.executions, 0);
    }
  }

  lemma MarkRunningKeepsShape(gs: GraphState)
    requires Shape(MarkRunning, gs)
    ensures MarkRunningTurn(gs).Turn?
    ensures var next := MarkRunningTurn(gs).state; Shape(NextNode(MarkRunning, next), next)
  {
    var s := gs.agent;
    var p, es, c := Latest(s), s.executions, FirstOpen(Latest(s), s.executions, 0);
    MarkRunningKeepsFits(gs);
    NextStepOf(s, c);
    if HasStatus(es, StepKey(p, c), Failed) {
      assert Find(es, StepKey(p, c)).Some?;
    } else {
      MarkFalls(gs);
      RecordingKeepsShape(s, Marked(StepKey(p, c), Running, None), Execute, MarkRunningTurn(gs).state);
    }
  }

  lemma ExecutedState(gs: GraphState, key: Key, reply: ExecReply)
    requires NextStep(gs.agent) == Some(key) && ExecuteTurn(gs, reply).Turn?
    ensures reply.Executed?
    ensures var next := ExecuteTurn(gs, reply).state;
      && next.agent == gs.agent.(executions := Put(gs.agent.executions, Execution(key, reply.outcome)))
      && NextNode(Execute, next) ==
         if !reply.outcome.completed then Replan else if NextStep(next.agent).None? then Complete else MarkRunning
  {
  }

  /** Recording the first open step keeps the shape, wherever the graph goes on. */
  lemma RecordingKeepsShape(s: AgentState, e: StepExecution, n: Node, next: GraphState)
    requires ValidState(s) && s.plans != [] && OldRevisions(s)
    requires NextStep(s) == Some(KeyOf(e)) && Untouched(Latest(s), s.executions, FirstOpen(Latest(s), s.executions, 0))
    requires Fits(n, next) && next.agent == s.(executions := Put(s.executions, e))
    requires match e.status
             case Completed => n == MarkRunning || n == Complete
             case Failed => n == Replan
             case Running => n == Execute
             case Interrupted => n == PlanNode
             case _ => false
    ensures Shape(n, next)
  {
    NextStepOf(s, FirstOpen(Latest(s), s.executions, 0));
    LatestFits(s);
    LatestAfterRecording(Latest(s), s.executions, e);
    SupersededStay(s, e);
  }

  lemma ExecuteKeepsShape(gs: GraphState, reply: ExecReply)
    requires Shape(Execute, gs) && ExecuteTurn(gs, reply).Turn?
    ensures var next := ExecuteTurn(gs, reply).state; Shape(NextNode(Execute, next), next)
  {
    var key, next := NextStep(gs.agent).value, ExecuteTurn(gs, reply).state;
    NextStepOf(gs.agent, FirstOpen(Latest(gs.agent), gs.agent.executions, 0));
    ExecuteKeepsFits(gs, reply);
    ExecutedState(gs, key, reply);
    RecordingKeepsShape(gs.agent, Execution(key, reply.outcome), NextNode(Execute, next), next);
  }

  lemma ReplanKeepsShape(gs: GraphState, reply: PlanReply)
    requires Shape(Replan, gs) && ReplanTurn(gs, reply).Turn?
    ensures var next := ReplanTurn(gs, reply).state; Shape(NextNode(Replan, next), next)
  {
    var s, t := gs.agent, ReplanTurn(gs, reply).state.agent;
    ReplanKeepsFits(gs, reply);
    if Latest(s).revision != 3 {
      NewRevisionIsOpen(s, reply.plan, t);
      ReplannedRevisions(s, t);
    }
  }

  lemma TurnKeepsShape(node: Node, gs: GraphState, plan: PlanReply, exec: ExecReply)
    requires Shape(node, gs) && NodeTurn(node, gs, plan, exec).Turn?
    ensures var next := NodeTurn(node, gs, plan, exec).state; Shape(NextNode(node, next), next)
  {
    match node
    case PlanNode => PlanKeepsShape(gs, plan);
    case MarkRunning => MarkRunningKeepsShape(gs);
    case Execute => ExecuteKeepsShape(gs, exec);
    case Replan => ReplanKeepsShape(gs, plan);
    case Complete => FirstOpenIs(Latest(gs.agent), gs.agent.executions, 0);
    case End =>
  }

  // ----- What the shape means for single executions -----

  /** In a superseded revision every recorded step has completed or failed. */
  lemma SupersededSettles(s: AgentState, r: nat, j: nat, e: StepExecution)
    requires ValidState(s) && SupersededAt(s, r) && j < |s.plans[r].steps|
    requires Find(s.executions, StepKey(s.plans[r], j)) == Some(e)
    ensures e.status == Completed || e.status == Failed
  {
    FirstOpenIs(s.plans[r], s.executions, 0);
  }

  lemma LatestSettles(p: Plan, es: seq<StepExecution>, node: Node, j: nat, e: StepExecution)
    requires LatestShape(p, es, node) && j < |p.steps| && Find(es, StepKey(p, j)) == Some(e)
    requires e.status != Completed
    ensures j == FirstOpen(p, es, 0) && e == es[|es| - 1] && OpenEntry(Some(e), es, node)
  {
    FirstOpenIs(p, es, 0);
  }

  /** A step that is under way is the next step of the latest plan, and its execution is the newest. */
  lemma OpenIsLast(node: Node, gs: GraphState, i: nat)
    requires Shape(node, gs) && i < |gs.agent.executions|
    requires gs.agent.executions[i].status != Completed && gs.agent.executions[i].status != Failed
    ensures i == |gs.agent.executions| - 1 && gs.agent.plans != []
    ensures NextStep(gs.agent) == Some(KeyOf(gs.agent.executions[i]))
    ensures match gs.agent.executions[i].status
            case Running => node == Execute
            case Interrupted => node == PlanNode || node == MarkRunning
            case _ => false
  {
    var s := gs.agent;
    var e := s.executions[i];
    assert Placed(s.plans, e);
    var r, j :| 0 <= r < |s.plans| && 0 <= j < |s.plans[r].steps|
      && (s.plans[r].revision, s.plans[r].steps[j].id) == KeyOf(e);
    FindIs(s.executions, e);
    if r + 1 < |s.plans| {
      assert SupersededAt(s, r);
      SupersededSettles(s, r, j, e);
    } else {
      LatestSettles(Latest(s), s.executions, node, j, e);
      NextStepIsAt(s, j);
      assert KeyOf(s.executions[i]) == KeyOf(s.executions[|s.executions| - 1]);
    }
  }

  lemma NextStepIsAt(s: AgentState, j: nat)
    requires s.plans != [] && j < |Latest(s).steps| && j == FirstOpen(Latest(s), s.executions, 0)
    ensures NextStep(s) == Some(StepKey(Latest(s), j))
  {
  }

  /** The key of the next step is new, or it belongs to the newest execution. */
  lemma NextIsNewOrLast(node: Node, gs: GraphState)
    requires Shape(node, gs) && NextStep(gs.agent).Some?
    ensures
      || Absent(gs.agent.executions, NextStep(gs.agent).value)
      || Newest(gs.agent.executions, NextStep(gs.agent).value)
  {
    var s := gs.agent;
    var c := FirstOpen(Latest(s), s.executions, 0);
    NextStepOf(s, c);
    FindFinds(s.executions, StepKey(Latest(s), c));
  }
}
